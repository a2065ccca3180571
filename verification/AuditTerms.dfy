// What the signed audit promises, statement by statement: which chains verify, what
// a comparison of two branches answers, and when both roots are found together.
module AuditTerms {
  import opened Base
  import opened Chains
  import opened AuditChain
  import F = Fencing
  import L = FencingLaws
  import A = Anchor
  import K = AuditFork

  // ----- Chains

  // A height with its tip and its holder, or no records at all.
  predicate ProperCheckpoint(validHash: Digest -> bool, c: F.FencingCheckpoint) {
    if c.recordCount == 0 then c == F.FencingCheckpoint(0, None, None, 0)
    else
      && c.tip.Some? && validHash(c.tip.value) && c.nonceClaims <= c.recordCount
      && c.active.Some? && c.active.value.epoch > 0 && ValidId(c.active.value.hostId)
  }

  // A named auditor whose key is not the response signer's, over a floor that is
  // either the very beginning or a signed statement.
  predicate PinTerms(env: Env, pin: TrustPin) {
    var who := pin.auditor;
    && env.validScope(who.scope) && env.validKey(who.key) && who.key != who.scope.responseSigner
    && ValidId(who.id) && ValidId(who.streamId) && ProperCheckpoint(env.validHash, pin.floorCheckpoint)
    && if pin.floorSequence == 0 then pin.floorSigned.None? && pin.floorCheckpoint.recordCount == 0
       else pin.floorSigned.Some? && env.validHash(pin.floorSigned.value)
  }

  function HeightBefore(pin: TrustPin, signed: seq<Signed>, i: nat): F.FencingCheckpoint
    requires i <= |signed|
  {
    if i == 0 then pin.floorCheckpoint else signed[i - 1].statement.checkpoint
  }

  // The pinned auditor's next statement, about the same height or a greater one.
  ghost predicate LawfulStatement(env: Env, pin: TrustPin, signed: seq<Signed>, i: nat)
    requires i < |signed|
  {
    var p, who := signed[i].statement, pin.auditor;
    && p.format == "GALIA_NONCANONICAL_DUAL_ROOT_AUDIT_V1"
    && p.auditorId == who.id && p.streamId == who.streamId && p.scopeHash == env.scopeHash(who.scope)
    && p.sequence == pin.floorSequence + i + 1 <= U64_MAX
    && p.previous == Tip(env.signedHash, pin.floorSigned, signed[..i])
    && ProperCheckpoint(env.validHash, p.checkpoint)
    && (p.checkpoint == HeightBefore(pin, signed, i) || p.checkpoint.recordCount > HeightBefore(pin, signed, i).recordCount)
    && env.verify(who.key, signed[i].signature, p)
  }

  ghost predicate LawfulChain(env: Env, pin: TrustPin, signed: seq<Signed>) {
    PinTerms(env, pin) && 0 < |signed| <= 128 && forall i :: 0 <= i < |signed| ==> LawfulStatement(env, pin, signed, i)
  }

  lemma CheckpointIff(validHash: Digest -> bool, c: F.FencingCheckpoint)
    ensures F.ValidCheckpoint(validHash, c) <==> ProperCheckpoint(validHash, c)
  {
  }

  lemma PinIff(env: Env, pin: TrustPin)
    ensures ValidPin(env, pin) <==> PinTerms(env, pin)
  {
    hide ValidId;
    CheckpointIff(env.validHash, pin.floorCheckpoint);
  }

  lemma LawfulNext(env: Env, pin: TrustPin, p: seq<Signed>, s: State, r: Signed)
    requires s.sequence == pin.floorSequence + |p| && s.previous == Tip(env.signedHash, pin.floorSigned, p)
    requires s.prior == HeightBefore(pin, p, |p|)
    ensures Apply(env, pin.auditor, s, r).Ok? <==> LawfulStatement(env, pin, p + [r], |p|)
  {
    hide F.ValidCheckpoint, ProperCheckpoint;
    assert (p + [r])[..|p|] == p;
    CheckpointIff(env.validHash, r.statement.checkpoint);
  }

  lemma {:induction false} RunIffLawful(env: Env, pin: TrustPin, signed: seq<Signed>)
    ensures Run(Step(env, pin.auditor), Start(pin), signed).Ok? <==>
            forall i :: 0 <= i < |signed| ==> LawfulStatement(env, pin, signed, i)
    decreases |signed|
  {
    hide Apply, ProperCheckpoint;
    if signed != [] {
      var n := |signed| - 1;
      var p := signed[..n];
      assert signed == p + [signed[n]];
      RunSnoc(Step(env, pin.auditor), Start(pin), p, signed[n]);
      RunIffLawful(env, pin, p);
      forall i | 0 <= i < n ensures LawfulStatement(env, pin, signed, i) <==> LawfulStatement(env, pin, p, i) {
        assert signed[..i] == p[..i];
      }
      var before := Run(Step(env, pin.auditor), Start(pin), p);
      if before.Ok? {
        RunFacts(env, pin, p);
        LawfulNext(env, pin, p, before.value, signed[n]);
      } else {
        var i: nat :| i < n && !LawfulStatement(env, pin, p, i);
        assert !LawfulStatement(env, pin, signed, i);
      }
    }
  }

  // A chain verifies exactly when it is lawful over a proper pin; what is handed on is
  // the signed checkpoints in order and the digest of the last envelope.
  lemma VerifyIff(env: Env, pin: TrustPin, signed: seq<Signed>)
    ensures VerifyChain(env, pin, signed).Ok? <==> LawfulChain(env, pin, signed)
    ensures VerifyChain(env, pin, signed).Ok? ==>
              var s := VerifyChain(env, pin, signed).value;
              && s.sequence == pin.floorSequence + |signed| && s.previous == Some(env.signedHash(signed[|signed| - 1]))
              && |s.observed| == |signed| && forall i :: 0 <= i < |signed| ==> s.observed[i] == signed[i].statement.checkpoint
  {
    hide Apply, PinTerms, ValidPin;
    PinIff(env, pin);
    RunIffLawful(env, pin, signed);
    if VerifyChain(env, pin, signed).Ok? { RunFacts(env, pin, signed); }
  }

  // ----- Branches

  // Every signature is written as 128 lower-case hexadecimal digits.
  predicate PlainSignatures(signed: seq<Signed>) {
    forall i :: 0 <= i < |signed| ==>
      |signed[i].signature| == 128 && forall c :: c in signed[i].signature ==> '0' <= c <= '9' || 'a' <= c <= 'f'
  }

  lemma PlainIff(signed: seq<Signed>)
    ensures K.CanonicalBranch(signed) <==> PlainSignatures(signed)
  {
    forall i | 0 <= i < |signed|
      ensures K.CanonicalSignature(signed[i].signature) <==>
              |signed[i].signature| == 128 && forall c :: c in signed[i].signature ==> '0' <= c <= '9' || 'a' <= c <= 'f'
    {
      var x := signed[i].signature;
      forall k | 0 <= k < |x| ensures x[k] in x {
      }
    }
  }

  // The two envelopes at position n, and what they have in common.
  ghost predicate ForkTerms(env: Env, pin: TrustPin, left: seq<Signed>, right: seq<Signed>, n: nat, f: K.Fork)
    requires n < |left| && n < |right|
  {
    && f.left == left[n] && f.right == right[n]
    && f.leftHash == env.signedHash(left[n]) && f.rightHash == env.signedHash(right[n]) && f.leftHash != f.rightHash
    && f.sequence == pin.floorSequence + n + 1 && f.previous == Tip(env.signedHash, pin.floorSigned, left[..n])
    && (f.checkpointDiverged <==> left[n].statement.checkpoint != right[n].statement.checkpoint)
  }

  // Two branches compare exactly when both are lawful and plainly signed. The answer
  // counts the envelopes they share, names where each ends, and shows the two
  // envelopes that follow if both go on.
  lemma ComparisonNames(env: Env, pin: TrustPin, left: seq<Signed>, right: seq<Signed>)
    requires Sound(env)
    ensures K.Compare(env, pin, left, right).Ok? <==>
            PlainSignatures(left) && PlainSignatures(right) && LawfulChain(env, pin, left) && LawfulChain(env, pin, right)
    ensures K.Compare(env, pin, left, right).Ok? ==>
              var a := K.Compare(env, pin, left, right).value;
              && a.common <= |left| && a.common <= |right| && left[..a.common] == right[..a.common]
              && a.leftLast == pin.floorSequence + |left| && a.rightLast == pin.floorSequence + |right|
              && a.leftTip == Some(env.signedHash(left[|left| - 1])) && a.rightTip == Some(env.signedHash(right[|right| - 1]))
              && if a.common < |left| && a.common < |right|
                 then a.fork.Some? && ForkTerms(env, pin, left, right, a.common, a.fork.value)
                 else a.fork.None?
  {
    hide VerifyChain, LawfulChain, K.CanonicalBranch, PlainSignatures;
    VerifyIff(env, pin, left);
    VerifyIff(env, pin, right);
    PlainIff(left);
    PlainIff(right);
    K.ComparisonExact(env, pin, left, right);
    var n := K.Common(left, right);
    if K.Compare(env, pin, left, right).Ok? && n < |left| && n < |right| {
      K.SharedPredecessor(env, pin, left, right, n);
    }
  }

  // ----- Both roots

  // A checkpoint that the journal had at its height.
  ghost predicate InHistory(fenv: F.Env, j: F.Journal, c: F.FencingCheckpoint)
    requires F.Replay(fenv, j).Ok?
  {
    c.recordCount <= |j| && L.CheckpointAt(fenv, j, c.recordCount) == c
  }

  ghost predicate AllInHistory(fenv: F.Env, j: F.Journal, signed: seq<Signed>)
    requires F.Replay(fenv, j).Ok?
  {
    forall i :: 0 <= i < |signed| ==> InHistory(fenv, j, signed[i].statement.checkpoint)
  }

  // The two roots pass exactly when the chain is lawful, both are of the auditor's
  // scope and can be read, the journal has been through the floor and every signed
  // checkpoint, and the anchor stands where the journal ends, which is the answer.
  lemma DualRootIff(env: Env, fenv: F.Env, j: F.Journal, aenv: A.Env, c: A.CasJournal, pin: TrustPin, signed: seq<Signed>)
    requires F.Sound(fenv)
    ensures var r := AssessDualRoot(env, fenv, j, aenv, c, pin, signed);
            && (r.Ok? <==>
                && LawfulChain(env, pin, signed) && fenv.scope == pin.auditor.scope && aenv.scope == pin.auditor.scope
                && F.Replay(fenv, j).Ok? && A.Replay(aenv, c).Ok?
                && InHistory(fenv, j, pin.floorCheckpoint) && AllInHistory(fenv, j, signed)
                && A.Before(c, |c|) == L.CheckpointAt(fenv, j, |j|))
            && (r.Ok? ==> r.value == L.CheckpointAt(fenv, j, |j|))
  {
    hide F.Replay, A.Replay, VerifyChain, LawfulChain, L.VerifyFloor;
    VerifyIff(env, pin, signed);
    A.ReplayIffLawful(aenv, c);
    assert j[..|j|] == j;
    if VerifyChain(env, pin, signed).Ok? {
      FloorsIff(fenv, j, pin.floorCheckpoint, VerifyChain(env, pin, signed).value.observed);
    }
  }

  lemma FloorsIff(fenv: F.Env, j: F.Journal, floor: F.FencingCheckpoint, observed: seq<F.FencingCheckpoint>)
    requires F.Sound(fenv)
    ensures CheckFloors(fenv, j, [floor] + observed) && F.Replay(fenv, j).Ok? <==>
            F.Replay(fenv, j).Ok? && InHistory(fenv, j, floor) && forall i :: 0 <= i < |observed| ==> InHistory(fenv, j, observed[i])
  {
    hide F.Replay, L.VerifyFloor, L.CheckpointAt;
    var floors := [floor] + observed;
    assert floors[0] == floor && forall i :: 0 <= i < |observed| ==> floors[i + 1] == observed[i];
    forall i | 0 <= i < |floors|
      ensures L.VerifyFloor(fenv, j, floors[i]).Ok? <==> F.Replay(fenv, j).Ok? && InHistory(fenv, j, floors[i])
    {
      L.FloorIsHistory(fenv, j, floors[i]);
    }
  }
}
