// What the journal of proven auditor forks promises, entry by entry: which forks are
// proven, which entries a readable journal can hold, and what each of them says.
module ForkTerms {
  import opened Base
  import opened Chains
  import opened ForkPublication
  import U = AuditChain
  import K = AuditFork
  import T = AuditTerms

  // Both branches are lawful and plainly signed, the quorum accepted the bundle as
  // this evidence, and n is where the branches part.
  ghost predicate ProvenAt(env: Env, b: Bundle, n: nat, evidence: Digest) {
    && env.quorum(b) == Some(evidence)
    && T.PlainSignatures(b.left) && T.PlainSignatures(b.right)
    && T.LawfulChain(env.audit, env.pin, b.left) && T.LawfulChain(env.audit, env.pin, b.right)
    && n < |b.left| && n < |b.right| && b.left[..n] == b.right[..n] && b.left[n] != b.right[n]
  }

  // What the fingerprint digests: the floor, the place, and the two envelopes there.
  ghost predicate FingerprintTerms(env: Env, b: Bundle, n: nat, x: Digest)
    requires n < |b.left| && n < |b.right|
  {
    var l, r := env.audit.signedHash(b.left[n]), env.audit.signedHash(b.right[n]);
    x == env.fingerprintHash(FingerprintInput(
      env.pin.auditor.streamId, env.pin.auditor.scope, env.pin.floorSequence, env.pin.floorSigned,
      env.pin.floorSequence + n + 1, Tip(env.audit.signedHash, env.pin.floorSigned, b.left[..n]),
      if l < r then l else r, if l < r then r else l))
  }

  ghost predicate Proves(env: Env, b: Bundle, n: nat, p: Proof) {
    ProvenAt(env, b, n, p.evidence) && FingerprintTerms(env, b, n, p.fingerprint)
  }

  // A bundle is a proven fork exactly when the quorum accepts it and its two lawful
  // branches part somewhere; the proof is the evidence and the fingerprint of that place.
  lemma ProofIff(env: Env, b: Bundle, p: Proof)
    requires Sound(env)
    ensures ProveFork(env, b) == Ok(p) <==> exists n :: Proves(env, b, n, p)
  {
    hide K.Compare, T.LawfulChain, T.PlainSignatures;
    T.ComparisonNames(env.audit, env.pin, b.left, b.right);
    var compared := K.Compare(env.audit, env.pin, b.left, b.right);
    if ProveFork(env, b) == Ok(p) {
      PartsAt(env, b, compared.value.common);
      assert Proves(env, b, compared.value.common, p);
    }
    if n: nat :| Proves(env, b, n, p) {
      Parting(env, b, n, compared.value.common);
    }
  }

  lemma PartsAt(env: Env, b: Bundle, n: nat)
    requires n < |b.left| && n < |b.right| && env.audit.signedHash(b.left[n]) != env.audit.signedHash(b.right[n])
    ensures b.left[n] != b.right[n]
  {
  }

  lemma Parting(env: Env, b: Bundle, n: nat, common: nat)
    requires n < |b.left| && n < |b.right| && b.left[..n] == b.right[..n] && b.left[n] != b.right[n]
    requires common <= |b.left| && common <= |b.right| && b.left[..common] == b.right[..common]
    requires common < |b.left| && common < |b.right| ==> env.audit.signedHash(b.left[common]) != env.audit.signedHash(b.right[common])
    ensures common == n
  {
    assert forall k :: 0 <= k < n ==> b.left[k] == b.left[..n][k] == b.right[..n][k] == b.right[k];
    assert forall k :: 0 <= k < common ==> b.left[k] == b.left[..common][k] == b.right[..common][k] == b.right[k];
  }

  // ----- The journal

  ghost predicate Unpublished(j: Journal, x: Digest) {
    forall k :: 0 <= k < |j| && j[k].Whole? ==> j[k].entry.fingerprint != x
  }

  // The entry that publishes a fork after these entries.
  ghost predicate EntryTerms(env: Env, j: Journal, e: Entry) {
    && e.format == "GALIA_NONCANONICAL_FORK_PUBLICATION_V1" && e.sequence == |j| + 1
    && e.previous == Tip(env.fileHash, None, j) && e.policyHash == env.policyHash
    && env.size(e) <= 2097152
    && (exists n :: Proves(env, e.bundle, n, Proof(e.fingerprint, e.evidence)))
    && Unpublished(j, e.fingerprint)
  }

  ghost predicate LawfulEntry(env: Env, j: Journal, i: nat)
    requires i < |j|
  {
    j[i].Whole? && EntryTerms(env, j[..i], j[i].entry)
  }

  lemma ForksAre(env: Env, j: Journal, x: Digest)
    requires Run(Step(env), BLANK, j).Ok?
    ensures x !in Run(Step(env), BLANK, j).value.forks <==> Unpublished(j, x)
  {
    hide Run, Published;
    RunForks(env, j);
    var forks := Run(Step(env), BLANK, j).value.forks;
    if x in forks {
      var i: nat :| i < |j| && HasFingerprint(j[i], x);
    }
    if !Unpublished(j, x) {
      var k: nat :| k < |j| && j[k].Whole? && j[k].entry.fingerprint == x;
    }
  }

  lemma LawfulNext(env: Env, p: Journal, f: File<Entry>)
    requires Sound(env) && Run(Step(env), BLANK, p).Ok?
    ensures Apply(env, Run(Step(env), BLANK, p).value, f).Ok? <==> LawfulEntry(env, p + [f], |p|)
  {
    hide Run, ProveFork, Proves, Unpublished, Sound;
    assert (p + [f])[..|p|] == p;
    RunShape(env, p);
    if f.Whole? {
      ForksAre(env, p, f.entry.fingerprint);
      ProofIff(env, f.entry.bundle, Proof(f.entry.fingerprint, f.entry.evidence));
    }
  }

  lemma {:induction false} RunIffLawful(env: Env, j: Journal)
    requires Sound(env)
    ensures Run(Step(env), BLANK, j).Ok? <==> forall i :: 0 <= i < |j| ==> LawfulEntry(env, j, i)
    decreases |j|
  {
    hide Apply, EntryTerms, Sound;
    if j != [] {
      var n := |j| - 1;
      var p := j[..n];
      assert j == p + [j[n]];
      RunSnoc(Step(env), BLANK, p, j[n]);
      RunIffLawful(env, p);
      forall i | 0 <= i < n ensures LawfulEntry(env, j, i) <==> LawfulEntry(env, p, i) {
        assert j[..i] == p[..i];
      }
      if Run(Step(env), BLANK, p).Ok? {
        LawfulNext(env, p, j[n]);
      } else {
        var i: nat :| i < n && !LawfulEntry(env, p, i);
        assert !LawfulEntry(env, j, i);
      }
    }
  }

  ghost predicate LawfulJournal(env: Env, j: Journal) {
    |j| <= 4096 && forall i :: 0 <= i < |j| ==> LawfulEntry(env, j, i)
  }

  // A journal is readable exactly when each entry is numbered, linked, of this policy
  // and a size that can be read, and publishes a proven fork not published before.
  lemma ReplayIffLawful(env: Env, j: Journal)
    requires Sound(env)
    ensures Replay(env, j).Ok? <==> LawfulJournal(env, j)
  {
    RunIffLawful(env, j);
  }

  // A publication goes through exactly for a proven fork not published before, on a
  // readable journal with room, and is acknowledged with the count and digest of the
  // entry it leaves.
  lemma PublishIff(env: Env, j: Journal, b: Bundle, fault: Fault)
    requires Sound(env)
    ensures var (r, j') := Append(env, j, b, fault);
            && (r.Ok? <==>
                && fault == NoFault && LawfulJournal(env, j) && |j| < 4096
                && exists e: Entry :: e.bundle == b && EntryTerms(env, j, e))
            && (j' == j || j' == j + [Torn]
                || (|j'| == |j| + 1 && j'[..|j|] == j && j'[|j|].Whole? && j'[|j|].entry.bundle == b
                    && EntryTerms(env, j, j'[|j|].entry)))
            && (r.Ok? ==> |j'| == |j| + 1 && r.value == Checkpoint(|j'|, Some(env.fileHash(j'[|j|]))))
  {
    hide Replay, ProveFork, LawfulJournal, Proves, Sound, Unpublished;
    ReplayIffLawful(env, j);
    if Replay(env, j).Ok? {
      Readable(env, j);
      if ProveFork(env, b).Ok? {
        var p := ProveFork(env, b).value;
        ProofIff(env, b, p);
        ForksOfReplay(env, j, p.fingerprint);
      }
      if e: Entry :| e.bundle == b && EntryTerms(env, j, e) {
        ProofIff(env, b, Proof(e.fingerprint, e.evidence));
      }
    }
  }

  lemma Readable(env: Env, j: Journal)
    requires Replay(env, j).Ok?
    ensures var s := Replay(env, j).value; s.count == |j| <= 4096 && s.tip == Tip(env.fileHash, None, j)
  {
    RunShape(env, j);
  }

  lemma ForksOfReplay(env: Env, j: Journal, x: Digest)
    requires Replay(env, j).Ok?
    ensures x !in Replay(env, j).value.forks <==> Unpublished(j, x)
  {
    ForksAre(env, j, x);
  }

  // A retained checkpoint passes exactly on a readable journal that had it at its
  // height, and what is reported is where the journal ends.
  lemma FloorIff(env: Env, j: Journal, floor: Checkpoint)
    requires Sound(env)
    ensures var r := VerifyFloor(env, j, floor);
            && (r.Ok? <==> LawfulJournal(env, j) && floor.count <= |j| && floor.tip == Tip(env.fileHash, None, j[..floor.count]))
            && (r.Ok? ==> r.value == Checkpoint(|j|, Tip(env.fileHash, None, j)))
  {
    hide Apply, LawfulJournal;
    ReplayIffLawful(env, j);
    if Replay(env, j).Ok? {
      RunShape(env, j);
      if 0 < floor.count <= |j| { assert j[..floor.count][floor.count - 1] == j[floor.count - 1]; }
    }
  }
}
