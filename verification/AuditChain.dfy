// The signed high-water audit of rust/galia-core/src/independent_audit.rs.
module AuditChain {
  import opened Base
  import opened Chains
  import F = Fencing
  import L = FencingLaws
  import A = Anchor
  import C = Coordinator

  const FORMAT := "GALIA_NONCANONICAL_DUAL_ROOT_AUDIT_V1"
  const MAX_CHAIN := 128

  // Who may sign, and for which coordinator.
  datatype Auditor = Auditor(id: string, key: string, streamId: string, scope: F.FencingScope)

  datatype TrustPin = TrustPin(
    auditor: Auditor, floorSequence: nat, floorSigned: Option<Digest>, floorCheckpoint: F.FencingCheckpoint)

  datatype Statement = Statement(
    format: string, auditorId: string, streamId: string, scopeHash: Digest,
    sequence: nat, previous: Option<Digest>, checkpoint: F.FencingCheckpoint)

  datatype Signed = Signed(statement: Statement, signature: string)

  datatype Env = Env(
    signedHash: Signed -> Digest,
    scopeHash: F.FencingScope -> Digest,
    validHash: Digest -> bool,
    validScope: F.FencingScope -> bool,
    validKey: string -> bool,
    verify: (string, string, Statement) -> bool)

  ghost predicate Sound(env: Env) {
    Injective(env.signedHash) && forall x :: env.validHash(env.signedHash(x))
  }

  datatype Error =
    | InvalidPin | Length | InvalidCheckpoint | SequenceOverflow | ChainMismatch | BadSignature
    | ForeignScope | FloorFailed | AnchorUnreadable | RootsDiverge

  predicate ValidPin(env: Env, pin: TrustPin) {
    && env.validScope(pin.auditor.scope) && F.ValidCheckpoint(env.validHash, pin.floorCheckpoint)
    && ValidId(pin.auditor.id) && ValidId(pin.auditor.streamId)
    && pin.auditor.key != pin.auditor.scope.responseSigner
    && (pin.floorSequence == 0 <==> pin.floorSigned.None?)
    && (pin.floorSigned.Some? ==> env.validHash(pin.floorSigned.value))
    && (pin.floorSequence == 0 ==> pin.floorCheckpoint.recordCount == 0)
    && env.validKey(pin.auditor.key)
  }

  datatype State = State(
    sequence: nat, previous: Option<Digest>, prior: F.FencingCheckpoint, observed: seq<F.FencingCheckpoint>)

  function Apply(env: Env, who: Auditor, s: State, r: Signed): Result<State, Error> {
    var p := r.statement;
    if !F.ValidCheckpoint(env.validHash, p.checkpoint) then Err(InvalidCheckpoint)
    else if CheckedAdd1(s.sequence).None? then Err(SequenceOverflow)
    else if || p.format != FORMAT || p.auditorId != who.id || p.streamId != who.streamId
            || p.scopeHash != env.scopeHash(who.scope)
            || p.sequence != s.sequence + 1 || p.previous != s.previous
            || p.checkpoint.recordCount < s.prior.recordCount
            || (p.checkpoint.recordCount == s.prior.recordCount && p.checkpoint != s.prior)
    then Err(ChainMismatch)
    else if !env.verify(who.key, r.signature, p) then Err(BadSignature)
    else Ok(State(p.sequence, Some(env.signedHash(r)), p.checkpoint, s.observed + [p.checkpoint]))
  }

  function Step(env: Env, who: Auditor): (State, Signed) -> Result<State, Error> {
    (s: State, r: Signed) => Apply(env, who, s, r)
  }

  function Start(pin: TrustPin): State {
    State(pin.floorSequence, pin.floorSigned, pin.floorCheckpoint, [])
  }

  // The whole chain above a pinned floor.
  function VerifyChain(env: Env, pin: TrustPin, signed: seq<Signed>): Result<State, Error> {
    if !ValidPin(env, pin) then Err(InvalidPin)
    else if signed == [] || |signed| > MAX_CHAIN then Err(Length)
    else Run(Step(env, pin.auditor), Start(pin), signed)
  }

  method VerifySignedAuditChain(env: Env, pin: TrustPin, signed: seq<Signed>)
    returns (r: Result<(seq<F.FencingCheckpoint>, Digest), Error>)
    ensures match VerifyChain(env, pin, signed)
            case Err(e) => r == Err(e)
            case Ok(s) => s.previous.Some? && r == Ok((s.observed, s.previous.value))
  {
    if !ValidPin(env, pin) { return Err(InvalidPin); }
    if signed == [] || |signed| > MAX_CHAIN { return Err(Length); }
    var sequence, previous, prior := pin.floorSequence, pin.floorSigned, pin.floorCheckpoint;
    var observed := [];
    for i := 0 to |signed|
      invariant Run(Step(env, pin.auditor), Start(pin), signed[..i]) == Ok(State(sequence, previous, prior, observed))
      invariant i > 0 ==> previous.Some?
    {
      assert signed[..i + 1] == signed[..i] + [signed[i]];
      RunSnoc(Step(env, pin.auditor), Start(pin), signed[..i], signed[i]);
      assert signed == signed[..i + 1] + signed[i + 1..];
      RunConcat(Step(env, pin.auditor), Start(pin), signed[..i + 1], signed[i + 1..]);
      var p := signed[i].statement;
      if !F.ValidCheckpoint(env.validHash, p.checkpoint) { return Err(InvalidCheckpoint); }
      if CheckedAdd1(sequence).None? { return Err(SequenceOverflow); }
      if || p.format != FORMAT || p.auditorId != pin.auditor.id || p.streamId != pin.auditor.streamId
         || p.scopeHash != env.scopeHash(pin.auditor.scope)
         || p.sequence != sequence + 1 || p.previous != previous
         || p.checkpoint.recordCount < prior.recordCount
         || (p.checkpoint.recordCount == prior.recordCount && p.checkpoint != prior) {
        return Err(ChainMismatch);
      }
      if !env.verify(pin.auditor.key, signed[i].signature, p) { return Err(BadSignature); }
      previous, sequence, prior := Some(env.signedHash(signed[i])), p.sequence, p.checkpoint;
      observed := observed + [prior];
    }
    assert signed[..|signed|] == signed;
    r := Ok((observed, previous.value));
  }

  // ----- What a verified chain says about its envelopes

  function PreviousOf(r: Signed): Option<Digest> {
    r.statement.previous
  }

  // Everything a verified envelope carries, by position.
  ghost predicate Placed(env: Env, pin: TrustPin, signed: seq<Signed>, i: nat)
    requires i < |signed|
  {
    var p := signed[i].statement;
    && p.format == FORMAT && p.auditorId == pin.auditor.id && p.streamId == pin.auditor.streamId
    && p.scopeHash == env.scopeHash(pin.auditor.scope)
    && p.sequence == pin.floorSequence + i + 1
    && p.previous == Tip(env.signedHash, pin.floorSigned, signed[..i])
    && env.verify(pin.auditor.key, signed[i].signature, p)
    && F.ValidCheckpoint(env.validHash, p.checkpoint)
  }

  lemma {:induction false} RunFacts(env: Env, pin: TrustPin, signed: seq<Signed>)
    requires Run(Step(env, pin.auditor), Start(pin), signed).Ok?
    ensures var s := Run(Step(env, pin.auditor), Start(pin), signed).value;
            && s.sequence == pin.floorSequence + |signed|
            && s.previous == Tip(env.signedHash, pin.floorSigned, signed)
            && s.prior == (if signed == [] then pin.floorCheckpoint else signed[|signed| - 1].statement.checkpoint)
            && |s.observed| == |signed|
            && forall i :: 0 <= i < |signed| ==> s.observed[i] == signed[i].statement.checkpoint
    ensures forall i :: 0 <= i < |signed| ==> Placed(env, pin, signed, i)
    decreases |signed|
  {
    if signed != [] {
      var n := |signed| - 1;
      assert signed == signed[..n] + [signed[n]];
      RunSnoc(Step(env, pin.auditor), Start(pin), signed[..n], signed[n]);
      RunFacts(env, pin, signed[..n]);
      forall i | 0 <= i < n ensures Placed(env, pin, signed, i) {
        assert Placed(env, pin, signed[..n], i);
        assert signed[..n][..i] == signed[..i];
      }
      assert Placed(env, pin, signed, n);
    }
  }

  // Heights never fall, and the same height means the same checkpoint.
  lemma {:induction false} HeightsNeverFall(env: Env, pin: TrustPin, signed: seq<Signed>, i: nat, k: nat)
    requires Run(Step(env, pin.auditor), Start(pin), signed).Ok? && i <= k < |signed|
    ensures signed[i].statement.checkpoint.recordCount <= signed[k].statement.checkpoint.recordCount
    ensures signed[i].statement.checkpoint.recordCount == signed[k].statement.checkpoint.recordCount ==>
              signed[i].statement.checkpoint == signed[k].statement.checkpoint
    decreases k
  {
    if i < k {
      RunPrefix(Step(env, pin.auditor), Start(pin), signed, k);
      RunPrefix(Step(env, pin.auditor), Start(pin), signed, k + 1);
      assert signed[..k + 1] == signed[..k] + [signed[k]];
      RunSnoc(Step(env, pin.auditor), Start(pin), signed[..k], signed[k]);
      RunFacts(env, pin, signed[..k]);
      HeightsNeverFall(env, pin, signed[..k], i, k - 1);
    }
  }

  // ----- Composition

  // The same auditor, pinned at the end of a verified chain.
  function Repin(env: Env, pin: TrustPin, signed: seq<Signed>): TrustPin
    requires signed != []
  {
    var last := signed[|signed| - 1];
    pin.(floorSequence := last.statement.sequence, floorSigned := Some(env.signedHash(last)),
         floorCheckpoint := last.statement.checkpoint)
  }

  // The list of observed checkpoints is only collected: it never decides anything.
  lemma {:induction false} ObservedIrrelevant(env: Env, who: Auditor, s: State, base: seq<F.FencingCheckpoint>, es: seq<Signed>)
    ensures Run(Step(env, who), s, es).Ok? <==> Run(Step(env, who), s.(observed := base + s.observed), es).Ok?
    ensures Run(Step(env, who), s, es).Ok? ==>
              Run(Step(env, who), s.(observed := base + s.observed), es).value ==
              var t := Run(Step(env, who), s, es).value; t.(observed := base + t.observed)
    decreases |es|
  {
    if es != [] {
      var n := |es| - 1;
      assert es == es[..n] + [es[n]];
      RunSnoc(Step(env, who), s, es[..n], es[n]);
      RunSnoc(Step(env, who), s.(observed := base + s.observed), es[..n], es[n]);
      ObservedIrrelevant(env, who, s, base, es[..n]);
      if Run(Step(env, who), s, es).Ok? {
        var t := Run(Step(env, who), s, es[..n]).value;
        assert base + (t.observed + [es[n].statement.checkpoint]) == (base + t.observed) + [es[n].statement.checkpoint];
      }
    }
  }

  // Chain verification composes: a then b verifies over a floor exactly when a
  // verifies over it and b verifies over the floor re-pinned at the end of a.
  lemma ChainsCompose(env: Env, pin: TrustPin, a: seq<Signed>, b: seq<Signed>)
    requires Sound(env) && a != [] && b != [] && |a| + |b| <= MAX_CHAIN
    ensures VerifyChain(env, pin, a + b).Ok? <==>
            VerifyChain(env, pin, a).Ok? && VerifyChain(env, Repin(env, pin, a), b).Ok?
    ensures VerifyChain(env, pin, a + b).Ok? ==>
              var ab, sb := VerifyChain(env, pin, a + b).value, VerifyChain(env, Repin(env, pin, a), b).value;
              ab.previous == sb.previous && ab.observed == VerifyChain(env, pin, a).value.observed + sb.observed
  {
    var step := Step(env, pin.auditor);
    RunConcat(step, Start(pin), a, b);
    if ValidPin(env, pin) && Run(step, Start(pin), a).Ok? {
      RunFacts(env, pin, a);
      assert Placed(env, pin, a, |a| - 1);
      var s := Run(step, Start(pin), a).value;
      var again := Start(Repin(env, pin, a));
      assert s == again.(observed := s.observed + again.observed);
      ObservedIrrelevant(env, pin.auditor, again, s.observed, b);
    }
  }

  // ----- The dual-root assessment

  function CheckFloors(fenv: F.Env, j: F.Journal, floors: seq<F.FencingCheckpoint>): bool {
    forall i :: 0 <= i < |floors| ==> L.VerifyFloor(fenv, j, floors[i]).Ok?
  }

  function AssessDualRoot(env: Env, fenv: F.Env, j: F.Journal, aenv: A.Env, c: A.CasJournal, pin: TrustPin, signed: seq<Signed>)
    : Result<F.FencingCheckpoint, Error>
  {
    match VerifyChain(env, pin, signed)
    case Err(e) => Err(e)
    case Ok(s) =>
      if fenv.scope != pin.auditor.scope then Err(ForeignScope)
      else if !CheckFloors(fenv, j, [pin.floorCheckpoint] + s.observed) || F.Replay(fenv, j).Err? then Err(FloorFailed)
      else if aenv.scope != pin.auditor.scope || A.Replay(aenv, c).Err? then Err(AnchorUnreadable)
      else
        var local := F.Replay(fenv, j).value.Checkpoint();
        if local != A.Replay(aenv, c).value.value then Err(RootsDiverge) else Ok(local)
  }

  method AllFloorsPass(coordinator: C.FencingCoordinator, floors: seq<F.FencingCheckpoint>) returns (ok: bool)
    ensures ok == CheckFloors(coordinator.env, coordinator.journal, floors)
  {
    for i := 0 to |floors|
      invariant forall k :: 0 <= k < i ==> L.VerifyFloor(coordinator.env, coordinator.journal, floors[k]).Ok?
    {
      var floor := coordinator.CheckFloor(floors[i]);
      if floor.Err? { return false; }
    }
    ok := true;
  }

  method AssessDualRootAudit(env: Env, coordinator: C.FencingCoordinator, anchor: A.DurableAnchor, pin: TrustPin, signed: seq<Signed>)
    returns (r: Result<F.FencingCheckpoint, Error>)
    ensures r == AssessDualRoot(env, coordinator.env, coordinator.journal, anchor.env, anchor.journal, pin, signed)
  {
    var chain := VerifySignedAuditChain(env, pin, signed);
    if chain.Err? { return Err(chain.error); }
    if coordinator.env.scope != pin.auditor.scope { return Err(ForeignScope); }
    var passed := AllFloorsPass(coordinator, [pin.floorCheckpoint] + chain.value.0);
    if !passed { return Err(FloorFailed); }
    var s, replayed := coordinator.ReplayAll();
    if replayed.Err? { return Err(FloorFailed); }
    var outside := anchor.Current(pin.auditor.scope);
    if outside.Err? { return Err(AnchorUnreadable); }
    if s.View().Checkpoint() != outside.value { return Err(RootsDiverge); }
    r := Ok(outside.value);
  }

  // Rolling back both roots together is caught: if some verified statement signs the
  // checkpoint that journal j had at height n, an accepted journal k still begins
  // with those n records, even when k and the anchor agree with each other.
  lemma DualRollbackDetected(env: Env, fenv: F.Env, aenv: A.Env, c: A.CasJournal, pin: TrustPin, signed: seq<Signed>,
                             i: nat, j: F.Journal, n: nat, k: F.Journal)
    requires F.Sound(fenv) && F.Replay(fenv, j).Ok? && n <= |j| && i < |signed|
    requires signed[i].statement.checkpoint == L.CheckpointAt(fenv, j, n)
    requires AssessDualRoot(env, fenv, k, aenv, c, pin, signed).Ok?
    ensures n <= |k| && k[..n] == j[..n]
    ensures A.Replay(aenv, c).Ok? && A.Replay(aenv, c).value.value == F.Replay(fenv, k).value.Checkpoint()
  {
    hide F.Replay, A.Replay, L.VerifyFloor, L.CheckpointAt, Apply;
    RunFacts(env, pin, signed);
    var floors := [pin.floorCheckpoint] + VerifyChain(env, pin, signed).value.observed;
    assert floors[i + 1] == signed[i].statement.checkpoint;
    L.FloorPinsPrefix(fenv, j, n, k);
  }
}
