// The signed chain of board checkpoints: rust/galia-core/src/external_checkpoint.rs.
module ExternalCheckpoint {
  import opened Base
  import opened Chains

  const FORMAT := "GALIA_NONCANONICAL_EXTERNAL_CHECKPOINT_V1"

  datatype Board = Board(count: nat, tip: Option<Digest>, quarantined: bool)

  datatype Signer = Signer(id: string, key: string, streamId: string, namespace: string, caseId: string, policy: Digest)

  datatype Trust = Trust(signer: Signer, floorSequence: nat, floorEnvelope: Option<Digest>, floorBoard: Board)

  datatype Payload = Payload(
    format: string, signerId: string, streamId: string, namespace: string, caseId: string, policy: Digest,
    sequence: nat, previous: Option<Digest>, board: Board, evidence: Option<Digest>)

  datatype Envelope = Envelope(payload: Payload, signature: string)

  // The observer policy in force, seen through what the verifier takes from it.
  datatype Env = Env(
    policyValid: bool, policyHash: Digest, namespace: string, caseId: string, otherKeys: set<string>,
    validKey: string -> bool, validHash: Digest -> bool,
    hash: Envelope -> Digest, verify: (string, string, Payload) -> bool)

  ghost predicate Sound(env: Env) {
    Injective(env.hash) && forall e :: env.validHash(env.hash(e))
  }

  datatype Error =
    | InvalidTrust | Empty | CounterOverflow | OutOfScope | Rollback | BadSignature | Duplicate
    | BoardDiffers | EvidenceDiffers

  predicate ValidTrust(env: Env, t: Trust) {
    && env.policyValid && ValidId(t.signer.id) && ValidId(t.signer.streamId)
    && t.signer.namespace == env.namespace && t.signer.caseId == env.caseId
    && env.validHash(t.signer.policy) && t.signer.policy == env.policyHash
    && (t.floorEnvelope.Some? ==> env.validHash(t.floorEnvelope.value))
    && (t.floorSequence == 0 <==> t.floorEnvelope.None?)
    && WellFormed(env, t.floorBoard)
    && env.validKey(t.signer.key) && t.signer.key !in env.otherKeys
  }

  predicate WellFormed(env: Env, b: Board) {
    (b.tip.Some? ==> env.validHash(b.tip.value)) && (b.count == 0 <==> b.tip.None?)
  }

  // A board may only grow, never leaves quarantine, does not grow in quarantine,
  // and does not change at the same height.
  predicate Monotonic(env: Env, prior: Board, next: Board) {
    && WellFormed(env, next)
    && prior.count <= next.count
    && (prior.quarantined ==> next.quarantined && next.count == prior.count)
    && (next.count == prior.count ==> next.tip == prior.tip && next.quarantined == prior.quarantined)
  }

  datatype State = State(
    sequence: nat, tip: Option<Digest>, board: Board, evidence: Option<Digest>, seen: set<Digest>)

  function Apply(env: Env, who: Signer, s: State, e: Envelope): Result<State, Error> {
    var p := e.payload;
    if CheckedAdd1(s.sequence).None? then Err(CounterOverflow)
    else if || p.format != FORMAT || p.signerId != who.id || p.streamId != who.streamId
            || p.namespace != who.namespace || p.caseId != who.caseId || p.policy != who.policy
            || p.sequence != s.sequence + 1 || p.previous != s.tip
            || (p.evidence.Some? && !env.validHash(p.evidence.value))
            || p.board.quarantined != p.evidence.Some?
    then Err(OutOfScope)
    else if !Monotonic(env, s.board, p.board) then Err(Rollback)
    else if !env.verify(who.key, e.signature, p) then Err(BadSignature)
    else if env.hash(e) in s.seen then Err(Duplicate)
    else Ok(State(p.sequence, Some(env.hash(e)), p.board, p.evidence, s.seen + {env.hash(e)}))
  }

  function Step(env: Env, who: Signer): (State, Envelope) -> Result<State, Error> {
    (s: State, e: Envelope) => Apply(env, who, s, e)
  }

  function Start(t: Trust): State {
    State(t.floorSequence, t.floorEnvelope, t.floorBoard, None, {})
  }

  function VerifyChain(env: Env, t: Trust, signed: seq<Envelope>): Result<State, Error> {
    if !ValidTrust(env, t) then Err(InvalidTrust)
    else if signed == [] then Err(Empty)
    else Run(Step(env, t.signer), Start(t), signed)
  }

  method VerifyAnchorChain(env: Env, t: Trust, signed: seq<Envelope>)
    returns (r: Result<(Board, Digest, Option<Digest>), Error>)
    ensures match VerifyChain(env, t, signed)
            case Err(e) => r == Err(e)
            case Ok(s) => s.tip.Some? && r == Ok((s.board, s.tip.value, s.evidence))
  {
    if !ValidTrust(env, t) { return Err(InvalidTrust); }
    if signed == [] { return Err(Empty); }
    var who := t.signer;
    var sequence, tip, board := t.floorSequence, t.floorEnvelope, t.floorBoard;
    var evidence: Option<Digest>, seen: set<Digest> := None, {};
    for i := 0 to |signed|
      invariant Run(Step(env, who), Start(t), signed[..i]) == Ok(State(sequence, tip, board, evidence, seen))
      invariant i > 0 ==> tip.Some?
    {
      assert signed[..i + 1] == signed[..i] + [signed[i]];
      RunSnoc(Step(env, who), Start(t), signed[..i], signed[i]);
      assert signed == signed[..i + 1] + signed[i + 1..];
      RunConcat(Step(env, who), Start(t), signed[..i + 1], signed[i + 1..]);
      var p := signed[i].payload;
      if CheckedAdd1(sequence).None? { return Err(CounterOverflow); }
      if || p.format != FORMAT || p.signerId != who.id || p.streamId != who.streamId
         || p.namespace != who.namespace || p.caseId != who.caseId || p.policy != who.policy
         || p.sequence != sequence + 1 || p.previous != tip
         || (p.evidence.Some? && !env.validHash(p.evidence.value))
         || p.board.quarantined != p.evidence.Some? {
        return Err(OutOfScope);
      }
      if !Monotonic(env, board, p.board) { return Err(Rollback); }
      if !env.verify(who.key, signed[i].signature, p) { return Err(BadSignature); }
      var hash := env.hash(signed[i]);
      if hash in seen { return Err(Duplicate); }
      seen := seen + {hash};
      sequence, tip, board, evidence := p.sequence, Some(hash), p.board, p.evidence;
    }
    assert signed[..|signed|] == signed;
    r := Ok((board, tip.value, evidence));
  }

  // ----- What a verified chain says

  function PreviousOf(e: Envelope): Option<Digest> {
    e.payload.previous
  }

  ghost predicate Placed(env: Env, t: Trust, signed: seq<Envelope>, i: nat)
    requires i < |signed|
  {
    var p := signed[i].payload;
    && p.sequence == t.floorSequence + i + 1
    && p.previous == Tip(env.hash, t.floorEnvelope, signed[..i])
    && WellFormed(env, p.board)
  }

  lemma {:induction false} RunFacts(env: Env, t: Trust, signed: seq<Envelope>)
    requires Run(Step(env, t.signer), Start(t), signed).Ok?
    ensures var s := Run(Step(env, t.signer), Start(t), signed).value;
            && s.sequence == t.floorSequence + |signed|
            && s.tip == Tip(env.hash, t.floorEnvelope, signed)
            && s.board == (if signed == [] then t.floorBoard else signed[|signed| - 1].payload.board)
            && (signed != [] ==> s.evidence == signed[|signed| - 1].payload.evidence)
            && (forall x :: x in s.seen ==> exists i :: 0 <= i < |signed| && env.hash(signed[i]) == x)
    ensures forall i :: 0 <= i < |signed| ==> Placed(env, t, signed, i)
    decreases |signed|
  {
    if signed != [] {
      var n := |signed| - 1;
      assert signed == signed[..n] + [signed[n]];
      RunSnoc(Step(env, t.signer), Start(t), signed[..n], signed[n]);
      RunFacts(env, t, signed[..n]);
      forall i | 0 <= i < n ensures Placed(env, t, signed, i) {
        assert Placed(env, t, signed[..n], i);
        assert signed[..n][..i] == signed[..i];
      }
      assert Placed(env, t, signed, n);
      assert forall i :: 0 <= i < n ==> signed[i] == signed[..n][i];
    }
  }

  lemma ChainLinked(env: Env, t: Trust, signed: seq<Envelope>)
    requires Run(Step(env, t.signer), Start(t), signed).Ok?
    ensures Linked(env.hash, PreviousOf, t.floorEnvelope, signed)
  {
    RunFacts(env, t, signed);
    forall i | 0 <= i < |signed| ensures PreviousOf(signed[i]) == Tip(env.hash, t.floorEnvelope, signed[..i]) {
      assert Placed(env, t, signed, i);
    }
  }

  // Along a verified chain heights never fall, quarantine never clears, and a
  // quarantined board never moves again.
  lemma {:induction false} BoardsOnlyGrow(env: Env, t: Trust, signed: seq<Envelope>, i: nat, k: nat)
    requires Run(Step(env, t.signer), Start(t), signed).Ok? && i <= k < |signed|
    ensures signed[i].payload.board.count <= signed[k].payload.board.count
    ensures signed[i].payload.board.quarantined ==> signed[k].payload.board == signed[i].payload.board
    ensures signed[i].payload.board.count == signed[k].payload.board.count ==> signed[k].payload.board == signed[i].payload.board
    decreases k
  {
    hide Run, Start, Step;
    if i < k {
      NextBoard(env, t, signed, k);
      BoardsOnlyGrow(env, t, signed, i, k - 1);
    }
  }

  // Each board of a verified chain follows on from the one before.
  lemma NextBoard(env: Env, t: Trust, signed: seq<Envelope>, k: nat)
    requires Run(Step(env, t.signer), Start(t), signed).Ok? && 0 < k < |signed|
    ensures Monotonic(env, signed[k - 1].payload.board, signed[k].payload.board)
  {
    hide Run, Monotonic;
    RunPrefix(Step(env, t.signer), Start(t), signed, k);
    RunPrefix(Step(env, t.signer), Start(t), signed, k + 1);
    assert signed[..k + 1] == signed[..k] + [signed[k]];
    RunSnoc(Step(env, t.signer), Start(t), signed[..k], signed[k]);
    RunFacts(env, t, signed[..k]);
    assert signed[..k][k - 1] == signed[k - 1];
  }

  // ----- Composition

  // The same signer, pinned at the end of a verified chain.
  function Repin(env: Env, t: Trust, signed: seq<Envelope>): Trust
    requires signed != []
  {
    var last := signed[|signed| - 1];
    t.(floorSequence := last.payload.sequence, floorEnvelope := Some(env.hash(last)), floorBoard := last.payload.board)
  }

  // States that differ at most in the seen set, where the larger set only holds
  // digests of envelopes numbered no higher than the state.
  ghost predicate SameButSeen(env: Env, s: State, u: State) {
    && s.sequence == u.sequence && s.tip == u.tip && s.board == u.board
    && u.seen <= s.seen
    && forall x :: x in s.seen ==> exists e :: env.hash(e) == x && e.payload.sequence <= s.sequence
  }

  lemma SeenNeverDecides(env: Env, who: Signer, s: State, u: State, e: Envelope)
    requires Sound(env) && SameButSeen(env, s, u)
    ensures Apply(env, who, s, e).Ok? <==> Apply(env, who, u, e).Ok?
    ensures Apply(env, who, s, e).Ok? ==>
              && SameButSeen(env, Apply(env, who, s, e).value, Apply(env, who, u, e).value)
              && Apply(env, who, s, e).value.evidence == Apply(env, who, u, e).value.evidence
  {
    if e.payload.sequence == s.sequence + 1 {
      assert env.hash(e) !in s.seen;
      if Apply(env, who, s, e).Ok? {
        var t := Apply(env, who, s, e).value;
        forall x | x in t.seen ensures exists f :: env.hash(f) == x && f.payload.sequence <= t.sequence {
          if x in s.seen {
            var f :| env.hash(f) == x && f.payload.sequence <= s.sequence;
          } else {
            assert env.hash(e) == x;
          }
        }
      }
    }
  }

  lemma {:induction false} SeenNeverDecidesRun(env: Env, who: Signer, s: State, u: State, es: seq<Envelope>)
    requires Sound(env) && SameButSeen(env, s, u)
    ensures Run(Step(env, who), s, es).Ok? <==> Run(Step(env, who), u, es).Ok?
    ensures Run(Step(env, who), s, es).Ok? ==>
              && SameButSeen(env, Run(Step(env, who), s, es).value, Run(Step(env, who), u, es).value)
              && (es != [] ==> Run(Step(env, who), s, es).value.evidence == Run(Step(env, who), u, es).value.evidence)
    decreases |es|
  {
    hide Apply, SameButSeen;
    if es != [] {
      var n := |es| - 1;
      assert es == es[..n] + [es[n]];
      RunSnoc(Step(env, who), s, es[..n], es[n]);
      RunSnoc(Step(env, who), u, es[..n], es[n]);
      SeenNeverDecidesRun(env, who, s, u, es[..n]);
      if Run(Step(env, who), s, es[..n]).Ok? {
        SeenNeverDecides(env, who, Run(Step(env, who), s, es[..n]).value, Run(Step(env, who), u, es[..n]).value, es[n]);
      }
    }
  }

  lemma RepinnedStart(env: Env, t: Trust, a: seq<Envelope>)
    requires Sound(env) && ValidTrust(env, t) && a != [] && Run(Step(env, t.signer), Start(t), a).Ok?
    ensures ValidTrust(env, Repin(env, t, a))
    ensures SameButSeen(env, Run(Step(env, t.signer), Start(t), a).value, Start(Repin(env, t, a)))
  {
    hide Apply;
    RunFacts(env, t, a);
    var s := Run(Step(env, t.signer), Start(t), a).value;
    assert Placed(env, t, a, |a| - 1);
    forall x | x in s.seen ensures exists e :: env.hash(e) == x && e.payload.sequence <= s.sequence {
      var i :| 0 <= i < |a| && env.hash(a[i]) == x;
      assert Placed(env, t, a, i);
    }
  }

  // Chain verification composes: a then b verifies over a floor exactly when a
  // verifies over it and b over the floor re-pinned at the end of a, with the same
  // board, tip and evidence. The duplicate check never makes a difference.
  lemma ChainsCompose(env: Env, t: Trust, a: seq<Envelope>, b: seq<Envelope>)
    requires Sound(env) && a != [] && b != []
    ensures VerifyChain(env, t, a + b).Ok? <==> VerifyChain(env, t, a).Ok? && VerifyChain(env, Repin(env, t, a), b).Ok?
    ensures VerifyChain(env, t, a + b).Ok? ==>
              var x, y := VerifyChain(env, t, a + b).value, VerifyChain(env, Repin(env, t, a), b).value;
              x.board == y.board && x.tip == y.tip && x.evidence == y.evidence
  {
    hide Apply;
    var step := Step(env, t.signer);
    RunConcat(step, Start(t), a, b);
    if ValidTrust(env, t) && Run(step, Start(t), a).Ok? {
      RepinnedStart(env, t, a);
      SeenNeverDecidesRun(env, t.signer, Run(step, Start(t), a).value, Start(Repin(env, t, a)), b);
    }
  }

  // ----- Against the local board

  // What the local board's own replay reports.
  datatype LocalBoard = LocalBoard(board: Board, evidence: Option<Digest>)

  method InspectAnchoredBoard(env: Env, local: LocalBoard, t: Trust, signed: seq<Envelope>)
    returns (r: Result<(Board, nat, Digest), Error>)
    ensures r.Ok? <==> VerifyChain(env, t, signed).Ok?
                       && signed[|signed| - 1].payload.board == local.board
                       && signed[|signed| - 1].payload.evidence == local.evidence
    ensures r.Ok? ==> r.value == (local.board, t.floorSequence + |signed|, env.hash(signed[|signed| - 1]))
  {
    hide Apply;
    var chain := VerifyAnchorChain(env, t, signed);
    if chain.Err? { return Err(chain.error); }
    RunFacts(env, t, signed);
    var (claimed, hash, evidence) := chain.value;
    if local.board != claimed { return Err(BoardDiffers); }
    if local.evidence != evidence { return Err(EvidenceDiffers); }
    assert Placed(env, t, signed, |signed| - 1);
    r := Ok((local.board, signed[|signed| - 1].payload.sequence, hash));
  }
}
