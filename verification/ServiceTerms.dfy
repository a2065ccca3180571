// What the checkpoint service promises, file by file: which envelope chains verify,
// which nonce claims a readable journal can hold, what an append, a claim and a served
// suffix do, and what a snapshot says.
module ServiceTerms {
  import opened Base
  import opened Chains
  import opened CheckpointService
  import X = ExternalCheckpoint

  // ----- Envelope chains

  predicate ProperBoard(env: X.Env, b: X.Board) {
    if b.count == 0 then b.tip.None? else b.tip.Some? && env.validHash(b.tip.value)
  }

  // A signer of this case under the policy in force, with a key that no observer uses,
  // over a floor that is either the very beginning or an envelope.
  predicate TrustTerms(env: X.Env, t: X.Trust) {
    && env.policyValid && ValidId(t.signer.id) && ValidId(t.signer.streamId)
    && t.signer.namespace == env.namespace && t.signer.caseId == env.caseId
    && t.signer.policy == env.policyHash && env.validHash(env.policyHash)
    && env.validKey(t.signer.key) && t.signer.key !in env.otherKeys
    && ProperBoard(env, t.floorBoard)
    && if t.floorSequence == 0 then t.floorEnvelope.None? else t.floorEnvelope.Some? && env.validHash(t.floorEnvelope.value)
  }

  function BoardBefore(t: X.Trust, signed: seq<X.Envelope>, i: nat): X.Board
    requires i <= |signed|
  {
    if i == 0 then t.floorBoard else signed[i - 1].payload.board
  }

  // The trusted signer's next envelope: the same board again, or one that has grown
  // out of a board that was not in quarantine; and evidence exactly in quarantine.
  ghost predicate LawfulEnvelope(env: X.Env, t: X.Trust, signed: seq<X.Envelope>, i: nat)
    requires i < |signed|
  {
    var p, who, prior := signed[i].payload, t.signer, BoardBefore(t, signed, i);
    && p.format == "GALIA_NONCANONICAL_EXTERNAL_CHECKPOINT_V1"
    && p.signerId == who.id && p.streamId == who.streamId && p.namespace == who.namespace
    && p.caseId == who.caseId && p.policy == who.policy
    && p.sequence == t.floorSequence + i + 1 <= U64_MAX
    && p.previous == Tip(env.hash, t.floorEnvelope, signed[..i])
    && ProperBoard(env, p.board) && (p.board == prior || (!prior.quarantined && p.board.count > prior.count))
    && (if p.board.quarantined then p.evidence.Some? && env.validHash(p.evidence.value) else p.evidence.None?)
    && env.verify(who.key, signed[i].signature, p)
  }

  ghost predicate LawfulChain(env: X.Env, t: X.Trust, signed: seq<X.Envelope>) {
    TrustTerms(env, t) && signed != [] && forall i :: 0 <= i < |signed| ==> LawfulEnvelope(env, t, signed, i)
  }

  lemma TrustIff(env: X.Env, t: X.Trust)
    ensures X.ValidTrust(env, t) <==> TrustTerms(env, t)
  {
    hide ValidId;
  }

  lemma EnvelopeNext(env: X.Env, t: X.Trust, p: seq<X.Envelope>, s: X.State, e: X.Envelope)
    requires X.Sound(env) && s.sequence == t.floorSequence + |p| && s.tip == Tip(env.hash, t.floorEnvelope, p)
    requires s.board == BoardBefore(t, p, |p|)
    requires forall x :: x in s.seen ==> exists i :: 0 <= i < |p| && env.hash(p[i]) == x
    requires forall i :: 0 <= i < |p| ==> X.Placed(env, t, p, i)
    ensures X.Apply(env, t.signer, s, e).Ok? <==> LawfulEnvelope(env, t, p + [e], |p|)
  {
    assert (p + [e])[..|p|] == p;
    if env.hash(e) in s.seen {
      var i: nat :| i < |p| && env.hash(p[i]) == env.hash(e);
      assert X.Placed(env, t, p, i);
    }
  }

  lemma {:induction false} RunIffLawful(env: X.Env, t: X.Trust, signed: seq<X.Envelope>)
    requires X.Sound(env)
    ensures Run(X.Step(env, t.signer), X.Start(t), signed).Ok? <==>
            forall i :: 0 <= i < |signed| ==> LawfulEnvelope(env, t, signed, i)
    decreases |signed|
  {
    hide X.Apply, X.Sound, X.Placed;
    if signed != [] {
      var n := |signed| - 1;
      var p := signed[..n];
      assert signed == p + [signed[n]];
      RunSnoc(X.Step(env, t.signer), X.Start(t), p, signed[n]);
      RunIffLawful(env, t, p);
      forall i | 0 <= i < n ensures LawfulEnvelope(env, t, signed, i) <==> LawfulEnvelope(env, t, p, i) {
        assert signed[..i] == p[..i];
      }
      var before := Run(X.Step(env, t.signer), X.Start(t), p);
      if before.Ok? {
        X.RunFacts(env, t, p);
        EnvelopeNext(env, t, p, before.value, signed[n]);
      } else {
        var i: nat :| i < n && !LawfulEnvelope(env, t, p, i);
        assert !LawfulEnvelope(env, t, signed, i);
      }
    }
  }

  // An envelope chain verifies exactly when it is lawful over a proper trust; what is
  // handed on is the last envelope's board, evidence and digest.
  lemma VerifyIff(env: X.Env, t: X.Trust, signed: seq<X.Envelope>)
    requires X.Sound(env)
    ensures X.VerifyChain(env, t, signed).Ok? <==> LawfulChain(env, t, signed)
    ensures X.VerifyChain(env, t, signed).Ok? ==>
              var s := X.VerifyChain(env, t, signed).value;
              && s.board == signed[|signed| - 1].payload.board && s.evidence == signed[|signed| - 1].payload.evidence
              && s.tip == Some(env.hash(signed[|signed| - 1]))
  {
    hide X.Apply, TrustTerms, X.ValidTrust, X.Sound;
    TrustIff(env, t);
    RunIffLawful(env, t, signed);
    if X.VerifyChain(env, t, signed).Ok? { X.RunFacts(env, t, signed); }
  }

  // ----- The envelope files

  predicate AllWhole(files: Envelopes, es: seq<X.Envelope>) {
    |es| == |files| && forall i :: 0 <= i < |files| ==> files[i] == Whole(es[i])
  }

  // The files hold exactly these envelopes, which are nothing yet or a lawful chain.
  ghost predicate Holding(env: Env, files: Envelopes, es: seq<X.Envelope>) {
    AllWhole(files, es) && (es == [] || LawfulChain(env.anchor, env.trust, es))
  }

  lemma {:induction false} DecodeIff(files: Envelopes, es: seq<X.Envelope>)
    ensures Decode(files) == Some(es) <==> AllWhole(files, es)
    decreases |files|
  {
    DecodeFacts(files);
    if AllWhole(files, es) && files != [] {
      var n := |files| - 1;
      DecodeIff(files[..n], es[..n]);
      assert es == es[..n] + [es[n]];
    }
    if Decode(files) == Some(es) { assert es == Decode(files).value; }
  }

  // The files are read exactly when they hold a lawful chain, and as that chain.
  lemma ReadIff(env: Env, files: Envelopes, es: seq<X.Envelope>)
    requires Sound(env)
    ensures Checkpoints(env, files) == Ok(es) <==> Holding(env, files, es)
  {
    hide X.VerifyChain, Decode, LawfulChain, AllWhole;
    DecodeIff(files, es);
    VerifyIff(env.anchor, env.trust, es);
  }

  // An envelope is appended exactly when it lawfully follows what the files hold; the
  // files then hold the longer chain, and its length is the answer.
  lemma AppendIff(env: Env, files: Envelopes, e: X.Envelope, fault: Fault)
    requires Sound(env)
    ensures var (r, files') := AppendSigned(env, files, e, fault);
            && (r.Ok? <==> fault == NoFault && exists es :: Holding(env, files, es) && LawfulChain(env.anchor, env.trust, es + [e]))
            && (files' == files || files' == files + [Torn] || files' == files + [Whole(e)])
            && (r.Ok? ==> r.value == |files| + 1 && files' == files + [Whole(e)]
                          && forall es :: Holding(env, files, es) ==> Holding(env, files', es + [e]))
  {
    hide Checkpoints, X.VerifyChain, LawfulChain, AllWhole, X.Sound;
    forall es ensures Checkpoints(env, files) == Ok(es) <==> Holding(env, files, es) {
      ReadIff(env, files, es);
    }
    if Checkpoints(env, files).Ok? {
      var es := Checkpoints(env, files).value;
      assert Holding(env, files, es);
      VerifyIff(env.anchor, env.trust, es + [e]);
      AllWholeSnoc(files, es, e);
    }
  }

  lemma AllWholeSnoc(files: Envelopes, es: seq<X.Envelope>, e: X.Envelope)
    requires AllWhole(files, es)
    ensures |es| == |files| && AllWhole(files + [Whole(e)], es + [e])
  {
  }

  // A suffix is served exactly to a client that names a digest of the chain at its own
  // height, and is everything after it, from one envelope to 128.
  lemma SuffixIff(env: Env, files: Envelopes, floor: nat, floorHash: Option<Digest>, suffix: seq<X.Envelope>)
    requires Sound(env)
    ensures Suffix(env, files, floor, floorHash) == Ok(suffix) <==>
            exists es :: Served(env, files, floor, floorHash, suffix, es)
  {
    hide Checkpoints, LawfulChain, AllWhole;
    forall es ensures Checkpoints(env, files) == Ok(es) <==> Holding(env, files, es) {
      ReadIff(env, files, es);
    }
    if Suffix(env, files, floor, floorHash) == Ok(suffix) {
      assert Served(env, files, floor, floorHash, suffix, Checkpoints(env, files).value);
    }
  }

  ghost predicate Served(env: Env, files: Envelopes, floor: nat, floorHash: Option<Digest>, suffix: seq<X.Envelope>,
                         es: seq<X.Envelope>)
  {
    && Holding(env, files, es) && floor <= |es| && floorHash == Tip(env.anchor.hash, None, es[..floor])
    && es == es[..floor] + suffix && 0 < |suffix| <= 128
  }

  // ----- The nonce claims

  ghost predicate ClaimTerms(env: Env, files: Nonces, c: NonceClaim) {
    && c.format == "GALIA_NONCANONICAL_MTLS_CHECKPOINT_SERVER_V1" && c.sequence == |files| + 1 <= U64_MAX
    && c.previous == Tip(env.nonceHash, None, files)
    && env.anchor.validHash(c.nonce) && env.anchor.validHash(c.challenge)
    && forall k :: 0 <= k < |files| && files[k].Whole? ==> files[k].entry.nonce != c.nonce
  }

  ghost predicate LawfulClaim(env: Env, files: Nonces, i: nat)
    requires i < |files|
  {
    files[i].Whole? && ClaimTerms(env, files[..i], files[i].entry)
  }

  ghost predicate LawfulClaims(env: Env, files: Nonces) {
    forall i :: 0 <= i < |files| ==> LawfulClaim(env, files, i)
  }

  lemma ClaimNext(env: Env, files: Nonces, s: NonceHistory, f: File<NonceClaim>)
    requires s.count == |files| && s.tip == Tip(env.nonceHash, None, files)
    requires forall x :: x in s.seen <==> Seen(files, x)
    ensures ApplyNonce(env, s, f).Ok? <==> LawfulClaim(env, files + [f], |files|)
  {
    assert (files + [f])[..|files|] == files;
    if f.Whole? {
      assert Seen(files, f.entry.nonce) <==> exists i :: 0 <= i < |files| && Claims(files[i], f.entry.nonce);
    }
  }

  // The claims can be read exactly when each is numbered, linked, well formed, and of
  // a nonce not claimed before it.
  lemma {:induction false} NoncesIff(env: Env, files: Nonces)
    ensures ReplayNonces(env, files).Ok? <==> LawfulClaims(env, files)
    decreases |files|
  {
    hide ApplyNonce, ClaimTerms, Seen, Linked, ClaimsDiffer;
    if files != [] {
      var n := |files| - 1;
      var p := files[..n];
      assert files == p + [files[n]];
      RunSnoc(NonceStep(env), NO_NONCES, p, files[n]);
      NoncesIff(env, p);
      forall i | 0 <= i < n ensures LawfulClaim(env, files, i) <==> LawfulClaim(env, p, i) {
        assert files[..i] == p[..i];
      }
      if ReplayNonces(env, p).Ok? {
        NonceFacts(env, p);
        ClaimNext(env, p, ReplayNonces(env, p).value, files[n]);
      } else {
        var i: nat :| i < n && !LawfulClaim(env, p, i);
        assert !LawfulClaim(env, files, i);
      }
    }
  }

  // A claim goes through exactly when it lawfully follows, and the record that is
  // written is of this nonce and this challenge.
  lemma ClaimIff(env: Env, files: Nonces, nonce: Digest, challenge: Digest, fault: Fault)
    ensures var (r, files') := ClaimNonce(env, files, nonce, challenge, fault);
            && (r.Ok? <==> fault == NoFault && LawfulClaims(env, files) && exists c :: Asked(env, files, nonce, challenge, c))
            && (files' == files || files' == files + [Torn]
                || exists c :: Asked(env, files, nonce, challenge, c) && files' == files + [Whole(c)])
            && (r.Ok? ==> exists c :: Asked(env, files, nonce, challenge, c) && files' == files + [Whole(c)])
  {
    hide ReplayNonces, Linked, ClaimsDiffer;
    NoncesIff(env, files);
    if ReplayNonces(env, files).Ok? {
      NonceFacts(env, files);
      var c := NonceClaim(FORMAT, |files| + 1, Tip(env.nonceHash, None, files), nonce, challenge);
      assert Seen(files, nonce) <==> exists i :: 0 <= i < |files| && Claims(files[i], nonce);
      assert ClaimNonce(env, files, nonce, challenge, fault).0.Ok? ==> Asked(env, files, nonce, challenge, c);
      assert ClaimNonce(env, files, nonce, challenge, fault).1 != files ==> Asked(env, files, nonce, challenge, c);
    }
  }

  ghost predicate Asked(env: Env, files: Nonces, nonce: Digest, challenge: Digest, c: NonceClaim) {
    ClaimTerms(env, files, c) && c.nonce == nonce && c.challenge == challenge
  }

  // ----- Snapshots

  // Both journals are readable and the snapshot tells their heights and last digests.
  ghost predicate Told(env: Env, files: Envelopes, nonces: Nonces, p: Snapshot, es: seq<X.Envelope>) {
    && Holding(env, files, es) && LawfulClaims(env, nonces)
    && p.checkpoints == |files| && p.checkpointTip == Tip(env.anchor.hash, None, es)
    && p.nonces == |nonces| && p.nonceTip == Tip(env.nonceHash, None, nonces)
  }

  lemma SnapIff(env: Env, files: Envelopes, nonces: Nonces, p: Snapshot)
    requires Sound(env)
    ensures TakeSnapshot(env, files, nonces) == Ok(p) <==> exists es :: Told(env, files, nonces, p, es)
  {
    hide Checkpoints, ReplayNonces, LawfulChain, LawfulClaims, Seen, Linked, ClaimsDiffer;
    forall es ensures Checkpoints(env, files) == Ok(es) <==> Holding(env, files, es) {
      ReadIff(env, files, es);
    }
    NoncesIff(env, nonces);
    if ReplayNonces(env, nonces).Ok? { NonceFacts(env, nonces); }
    if TakeSnapshot(env, files, nonces) == Ok(p) {
      assert Told(env, files, nonces, p, Checkpoints(env, files).value);
    }
  }

  // A retained snapshot passes exactly on readable journals that had its last digests
  // at its heights, and what is reported is the present snapshot.
  lemma FloorIff(env: Env, files: Envelopes, nonces: Nonces, p: Snapshot)
    requires Sound(env)
    ensures var r := VerifyFloor(env, files, nonces, p);
            && (r.Ok? <==> exists es :: Passed(env, files, nonces, p, es))
            && (r.Ok? ==> r == TakeSnapshot(env, files, nonces))
  {
    hide Checkpoints, ReplayNonces, LawfulChain, LawfulClaims, Seen, Linked, ClaimsDiffer;
    forall es ensures Checkpoints(env, files) == Ok(es) <==> Holding(env, files, es) {
      ReadIff(env, files, es);
    }
    NoncesIff(env, nonces);
    if ReplayNonces(env, nonces).Ok? { NonceFacts(env, nonces); }
    if VerifyFloor(env, files, nonces, p).Ok? {
      assert Passed(env, files, nonces, p, Checkpoints(env, files).value);
    }
  }

  ghost predicate Passed(env: Env, files: Envelopes, nonces: Nonces, p: Snapshot, es: seq<X.Envelope>) {
    && Holding(env, files, es) && LawfulClaims(env, nonces) && p.checkpoints <= |es| && p.nonces <= |nonces|
    && p == SnapshotAt(env, es, nonces, p.checkpoints, p.nonces)
  }
}
