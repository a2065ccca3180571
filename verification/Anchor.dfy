// The separate compare-and-swap journal of
// rust/galia-core/src/durable_monotonic_anchor.rs.
module Anchor {
  import opened Base
  import opened Chains
  import F = Fencing

  const FORMAT := "GALIA_NONCANONICAL_DURABLE_ANCHOR_V1"

  datatype CasEntry = CasEntry(
    format: string, sequence: nat, previous: Option<Digest>,
    from: F.FencingCheckpoint, to: F.FencingCheckpoint)

  type CasJournal = seq<File<CasEntry>>

  datatype Env = Env(scope: F.FencingScope, fileHash: File<CasEntry> -> Digest, validHash: Digest -> bool)

  datatype Error =
    | InvalidCheckpoint | RecordOverflow | HeightOrTip | MissingGrant | InitialEpoch
    | EpochOverflow | BadRotation | NonceOverflow | BadNonceStep
    | CountOverflow | Lineage | ForeignScope | StaleFloor | WriteFailed

  // The anchor's own rule for one step, blind to the journal it protects.
  function ValidateTransition(validHash: Digest -> bool, now: F.FencingCheckpoint, next: F.FencingCheckpoint)
    : Result<(), Error>
  {
    if !F.ValidCheckpoint(validHash, now) || !F.ValidCheckpoint(validHash, next) then Err(InvalidCheckpoint)
    else if CheckedAdd1(now.recordCount).None? then Err(RecordOverflow)
    else if next.recordCount != now.recordCount + 1 || next.tip == now.tip then Err(HeightOrTip)
    else if next.active.None? then Err(MissingGrant)
    else
      match now.active
      case None =>
        if now.recordCount != 0 || next.active.value.epoch != 1 || next.nonceClaims != 0 then Err(InitialEpoch)
        else Ok(())
      case Some(held) =>
        if held != next.active.value then
          if CheckedAdd1(held.epoch).None? then Err(EpochOverflow)
          else if next.active.value.epoch != held.epoch + 1 || next.nonceClaims != now.nonceClaims then Err(BadRotation)
          else Ok(())
        else if CheckedAdd1(now.nonceClaims).None? then Err(NonceOverflow)
        else if next.nonceClaims != now.nonceClaims + 1 then Err(BadNonceStep)
        else Ok(())
  }

  datatype State = State(value: F.FencingCheckpoint, count: nat, lastHash: Option<Digest>)

  const BLANK := State(F.GENESIS, 0, None)

  function Apply(env: Env, s: State, f: File<CasEntry>): Result<State, Error> {
    if CheckedAdd1(s.count).None? then Err(CountOverflow)
    else if || f.Torn? || f.entry.format != FORMAT || f.entry.sequence != s.count + 1
            || f.entry.previous != s.lastHash || f.entry.from != s.value
    then Err(Lineage)
    else
      match ValidateTransition(env.validHash, f.entry.from, f.entry.to)
      case Err(e) => Err(e)
      case Ok(_) => Ok(State(f.entry.to, s.count + 1, Some(env.fileHash(f))))
  }

  function Step(env: Env): (State, File<CasEntry>) -> Result<State, Error> {
    (s: State, f: File<CasEntry>) => Apply(env, s, f)
  }

  function Replay(env: Env, j: CasJournal): Result<State, Error> {
    Run(Step(env), BLANK, j)
  }

  lemma ReplaySnoc(env: Env, j: CasJournal, f: File<CasEntry>)
    ensures Replay(env, j + [f]) ==
            match Replay(env, j) case Err(e) => Err(e) case Ok(s) => Apply(env, s, f)
  {
    RunSnoc(Step(env), BLANK, j, f);
  }

  // The guards of a compare-and-swap: what it checks before it writes.
  function CheckSwap(env: Env, j: CasJournal, scope: F.FencingScope, from: F.FencingCheckpoint, to: F.FencingCheckpoint)
    : Result<CasEntry, Error>
  {
    if scope != env.scope then Err(ForeignScope)
    else
      match ValidateTransition(env.validHash, from, to)
      case Err(e) => Err(e)
      case Ok(_) =>
        match Replay(env, j)
        case Err(e) => Err(e)
        case Ok(s) =>
          if s.value != from then Err(StaleFloor)
          else if CheckedAdd1(s.count).None? then Err(CountOverflow)
          else Ok(CasEntry(FORMAT, s.count + 1, s.lastHash, from, to))
  }

  function Advance(env: Env, j: CasJournal, scope: F.FencingScope, from: F.FencingCheckpoint, to: F.FencingCheckpoint,
                   fault: Fault): (Result<(), Error>, CasJournal)
  {
    match CheckSwap(env, j, scope, from, to)
    case Err(e) => (Err(e), j)
    case Ok(entry) => (if fault == NoFault then Ok(()) else Err(WriteFailed), WriteNext(j, entry, fault))
  }

  // ----- Laws

  // Records are acquisitions plus spent nonces; the epoch counts the acquisitions.
  predicate Balanced(c: F.FencingCheckpoint) {
    c.recordCount == (if c.active.None? then 0 else c.active.value.epoch) + c.nonceClaims
  }

  // The transition rule alone keeps the balance, and climbs by one record.
  lemma TransitionKeepsBalance(validHash: Digest -> bool, a: F.FencingCheckpoint, b: F.FencingCheckpoint)
    requires ValidateTransition(validHash, a, b).Ok? && Balanced(a)
    ensures Balanced(b) && b.recordCount == a.recordCount + 1 && F.ValidCheckpoint(validHash, b)
  {
  }

  // In every replayable anchor journal the value is balanced and its height is the
  // number of swaps, so the anchor never returns to a value it has left.
  lemma {:induction false} AnchorClimbs(env: Env, j: CasJournal)
    requires Replay(env, j).Ok?
    ensures var s := Replay(env, j).value;
            Balanced(s.value) && s.value.recordCount == s.count == |j|
    decreases |j|
  {
    if j != [] {
      var n := |j| - 1;
      assert j == j[..n] + [j[n]];
      ReplaySnoc(env, j[..n], j[n]);
      AnchorClimbs(env, j[..n]);
    }
  }

  // The value a swap in this place has to start from.
  function Before(j: CasJournal, i: nat): F.FencingCheckpoint
    requires i <= |j|
  {
    if i == 0 || j[i - 1].Torn? then F.GENESIS else j[i - 1].entry.to
  }

  // One record more: a first grant at epoch one, a new holder at the next epoch with
  // the same claims, or the same holder with one claim more.
  predicate OneUp(validHash: Digest -> bool, a: F.FencingCheckpoint, b: F.FencingCheckpoint) {
    && b.recordCount == a.recordCount + 1
    && b.tip.Some? && validHash(b.tip.value) && b.tip != a.tip
    && b.active.Some? && ValidId(b.active.value.hostId)
    && if a.active.None? then b.active.value.epoch == 1 && b.nonceClaims == 0
       else if b.active == a.active then b.nonceClaims == a.nonceClaims + 1
       else b.active.value.epoch == a.active.value.epoch + 1 && b.nonceClaims == a.nonceClaims
  }

  ghost predicate LawfulSwap(env: Env, j: CasJournal, i: nat)
    requires i < |j|
  {
    && j[i].Whole? && j[i].entry.format == FORMAT && j[i].entry.sequence == i + 1 <= U64_MAX
    && j[i].entry.previous == Tip(env.fileHash, None, j[..i])
    && j[i].entry.from == Before(j, i) && OneUp(env.validHash, j[i].entry.from, j[i].entry.to)
  }

  // Where an anchor can stand, and its record count, epoch and claims then.
  predicate Standing(validHash: Digest -> bool, c: F.FencingCheckpoint, n: nat) {
    && c.recordCount == n && Balanced(c)
    && (n == 0 ==> c == F.GENESIS)
    && (n > 0 ==> && c.tip.Some? && validHash(c.tip.value)
                  && c.active.Some? && c.active.value.epoch >= 1 && ValidId(c.active.value.hostId))
  }

  // From where an anchor can stand, the transition rule is exactly that.
  lemma TransitionExact(validHash: Digest -> bool, a: F.FencingCheckpoint, b: F.FencingCheckpoint, n: nat)
    requires Standing(validHash, a, n) && n < U64_MAX
    ensures ValidateTransition(validHash, a, b).Ok? <==> OneUp(validHash, a, b)
    ensures OneUp(validHash, a, b) ==> Standing(validHash, b, n + 1)
  {
  }

  // An anchor journal replays exactly when every record is numbered, linked, starts
  // from where the one before it ended, and goes one record up.
  lemma {:induction false} ReplayIffLawful(env: Env, j: CasJournal)
    ensures Replay(env, j).Ok? <==> forall i :: 0 <= i < |j| ==> LawfulSwap(env, j, i)
    ensures Replay(env, j).Ok? ==>
              var s := Replay(env, j).value;
              && s.value == Before(j, |j|) && s.count == |j| && s.lastHash == Tip(env.fileHash, None, j)
              && Standing(env.validHash, s.value, |j|)
    decreases |j|
  {
    if j != [] {
      var n := |j| - 1;
      var p := j[..n];
      assert j == p + [j[n]];
      ReplaySnoc(env, p, j[n]);
      ReplayIffLawful(env, p);
      hide Replay, OneUp, ValidateTransition, Standing;
      forall i | 0 <= i < n ensures LawfulSwap(env, j, i) <==> LawfulSwap(env, p, i) {
        assert j[..i] == p[..i];
      }
      if Replay(env, p).Ok? {
        LawfulNext(env, p, j[n]);
      } else {
        var i: nat :| i < n && !LawfulSwap(env, p, i);
        assert !LawfulSwap(env, j, i);
      }
    }
  }

  lemma LawfulNext(env: Env, p: CasJournal, f: File<CasEntry>)
    requires Replay(env, p).Ok?
    requires var s := Replay(env, p).value;
             && s.value == Before(p, |p|) && s.count == |p| && s.lastHash == Tip(env.fileHash, None, p)
             && Standing(env.validHash, s.value, |p|)
    ensures Apply(env, Replay(env, p).value, f).Ok? <==> LawfulSwap(env, p + [f], |p|)
    ensures Apply(env, Replay(env, p).value, f).Ok? ==>
              Standing(env.validHash, f.entry.to, |p| + 1)
              && Apply(env, Replay(env, p).value, f).value == State(f.entry.to, |p| + 1, Some(env.fileHash(f)))
  {
    hide Replay, OneUp, ValidateTransition, Standing;
    var j := p + [f];
    assert j[..|p|] == p;
    if |p| < U64_MAX && f.Whole? {
      TransitionExact(env.validHash, Before(p, |p|), f.entry.to, |p|);
    }
  }

  // A swap goes through exactly from where the anchor stands, in its own scope, one
  // record up; the record that is written says so.
  lemma SwapExact(env: Env, j: CasJournal, scope: F.FencingScope, from: F.FencingCheckpoint, to: F.FencingCheckpoint, fault: Fault)
    ensures var (r, j') := Advance(env, j, scope, from, to, fault);
            && (r.Ok? <==>
                && fault == NoFault && scope == env.scope && Replay(env, j).Ok? && |j| < U64_MAX
                && from == Before(j, |j|) && OneUp(env.validHash, from, to))
            && (j' == j || j' == j + [Torn]
                || j' == j + [Whole(CasEntry(FORMAT, |j| + 1, Tip(env.fileHash, None, j), from, to))])
  {
    hide Replay, OneUp, ValidateTransition, Standing;
    ReplayIffLawful(env, j);
    if Replay(env, j).Ok? && |j| < U64_MAX && Replay(env, j).value.value == from {
      TransitionExact(env.validHash, from, to, |j|);
    }
  }

  // A swap that passes its guards and is written whole moves the anchor to its target.
  lemma SwapMoves(env: Env, j: CasJournal, scope: F.FencingScope, from: F.FencingCheckpoint, to: F.FencingCheckpoint)
    requires CheckSwap(env, j, scope, from, to).Ok?
    ensures var j' := j + [Whole(CheckSwap(env, j, scope, from, to).value)];
            Replay(env, j').Ok? && Replay(env, j').value.value == to
  {
    ReplaySnoc(env, j, Whole(CheckSwap(env, j, scope, from, to).value));
  }

  // A torn record makes the journal unreadable for good.
  lemma {:induction false} TornForever(env: Env, j: CasJournal, i: nat)
    requires i < |j| && j[i].Torn?
    ensures Replay(env, j).Err?
  {
    var n := |j| - 1;
    assert j == j[..n] + [j[n]];
    ReplaySnoc(env, j[..n], j[n]);
    if i < n {
      TornForever(env, j[..n], i);
    }
  }

  // ----- The durable object

  class DurableAnchor {
    const env: Env
    var journal: CasJournal

    constructor (env: Env)
      ensures this.env == env && journal == []
    {
      this.env := env;
      journal := [];
    }

    method ReplayAll() returns (r: Result<State, Error>)
      ensures r == Replay(env, journal)
    {
      var value, count, lastHash := F.GENESIS, 0, None;
      for i := 0 to |journal|
        invariant count == i && Replay(env, journal[..i]) == Ok(State(value, count, lastHash))
      {
        ghost var before := State(value, count, lastHash);
        var f := journal[i];
        assert journal[..i + 1] == journal[..i] + [f];
        ReplaySnoc(env, journal[..i], f);
        ghost var rest := journal[i + 1..];
        assert journal == journal[..i + 1] + rest;
        RunConcat(Step(env), BLANK, journal[..i + 1], rest);
        if CheckedAdd1(count).None? { return Err(CountOverflow); }
        if || f.Torn? || f.entry.format != FORMAT || f.entry.sequence != count + 1
           || f.entry.previous != lastHash || f.entry.from != value {
          return Err(Lineage);
        }
        var t := ValidateTransition(env.validHash, f.entry.from, f.entry.to);
        if t.Err? { return Err(t.error); }
        value, count, lastHash := f.entry.to, count + 1, Some(env.fileHash(f));
      }
      assert journal[..|journal|] == journal;
      r := Ok(State(value, count, lastHash));
    }

    method Current(scope: F.FencingScope) returns (r: Result<F.FencingCheckpoint, Error>)
      ensures scope != env.scope ==> r == Err(ForeignScope)
      ensures scope == env.scope ==>
                r == match Replay(env, journal) case Err(e) => Err(e) case Ok(s) => Ok(s.value)
    {
      if scope != env.scope { return Err(ForeignScope); }
      var s := ReplayAll();
      r := match s case Err(e) => Err(e) case Ok(t) => Ok(t.value);
    }

    method Swap(scope: F.FencingScope, from: F.FencingCheckpoint, to: F.FencingCheckpoint, fault: Fault)
      returns (r: Result<(), Error>)
      modifies this`journal
      ensures (r, journal) == Advance(env, old(journal), scope, from, to, fault)
    {
      if scope != env.scope { return Err(ForeignScope); }
      var t := ValidateTransition(env.validHash, from, to);
      if t.Err? { return Err(t.error); }
      var s := ReplayAll();
      if s.Err? { return Err(s.error); }
      if s.value.value != from { return Err(StaleFloor); }
      if CheckedAdd1(s.value.count).None? { return Err(CountOverflow); }
      journal := WriteNext(journal, CasEntry(FORMAT, s.value.count + 1, s.value.lastHash, from, to), fault);
      r := if fault == NoFault then Ok(()) else Err(WriteFailed);
    }
  }
}
