// The durable fencing coordinator: the operations of
// rust/galia-core/src/fenced_coordinator.rs over one shared journal, and the
// journal-level functions they compute.
module Coordinator {
  import opened Base
  import opened Chains
  import opened Fencing
  import opened FencingLaws
  import A = Anchor

  // What a caller may ask to be recorded.
  datatype Request =
    | Acquire(expected: nat, hostId: string)
    | Claim(grant: EpochGrant, nonce: Digest)
    | Commit(grant: EpochGrant, nonce: Digest, response: string)

  // A request that passed every check under the lock: the record to write and the
  // state after it.
  datatype Prepared = Prepared(before: State, entry: FencingEntry, after: State)

  // Checks made before the journal is read.
  function Screen(env: Env, q: Request): Result<(), Error> {
    match q
    case Acquire(_, hostId) => if ValidId(hostId) then Ok(()) else Err(InvalidHolder)
    case Claim(_, nonce) => if env.validHash(nonce) then Ok(()) else Err(InvalidNonce)
    case Commit(_, nonce, response) =>
      if env.validHash(nonce) && 0 < |response| <= MAX_RESPONSE then Ok(()) else Err(InvalidNonce)
  }

  // Checks against the replayed state, and the action they allow.
  function Admit(env: Env, s: State, q: Request): Result<FencingAction, Error> {
    match q
    case Acquire(expected, hostId) =>
      if s.epoch != expected then Err(EpochCasFailed)
      else if CheckedAdd1(expected).None? then Err(EpochOverflow)
      else Ok(AcquireEpoch(EpochGrant(hostId, expected + 1)))
    case Claim(grant, nonce) =>
      if s.active != Some(grant) then Err(StaleHolder)
      else if nonce in s.nonces then Err(NonceReused)
      else Ok(ConsumeNonce(grant, nonce))
    case Commit(grant, nonce, response) =>
      if s.active != Some(grant) || nonce in s.nonces then Err(StaleHolder)
      else Ok(CommitResponse(grant, nonce, env.textHash(response), response))
  }

  function Project(env: Env, s: State, a: FencingAction): Result<Prepared, Error> {
    if CheckedAdd1(s.count).None? then Err(SequenceOverflow)
    else
      var entry := FencingEntry(FORMAT, s.count + 1, s.tip, a);
      match Apply(env, s, Whole(entry))
      case Err(e) => Err(e)
      case Ok(t) => Ok(Prepared(s, entry, t))
  }

  // The replayed state and the action a request is allowed to record on it.
  function Screened(env: Env, j: Journal, q: Request): Result<(State, FencingAction), Error> {
    match Screen(env, q)
    case Err(e) => Err(e)
    case Ok(_) =>
      match Replay(env, j)
      case Err(e) => Err(e)
      case Ok(s) =>
        match Admit(env, s, q)
        case Err(e) => Err(e)
        case Ok(a) => Ok((s, a))
  }

  function Prepare(env: Env, j: Journal, q: Request): Result<Prepared, Error> {
    match Screened(env, j, q)
    case Err(e) => Err(e)
    case Ok((s, a)) => Project(env, s, a)
  }

  // Create the numbered record of an action on the replayed state.
  function AppendAction(env: Env, s: State, j: Journal, a: FencingAction, fault: Fault): (Result<State, Error>, Journal) {
    match Project(env, s, a)
    case Err(e) => (Err(e), j)
    case Ok(p) => (if fault == NoFault then Ok(p.after) else Err(WriteFailed), WriteNext(j, p.entry, fault))
  }

  // The same with an anchor: the anchor moves first, the record is created second.
  function AppendAnchored(env: Env, aenv: A.Env, s: State, j: Journal, c: A.CasJournal, a: FencingAction, swap: Fault, write: Fault)
    : (Result<State, Error>, Journal, A.CasJournal)
  {
    match Project(env, s, a)
    case Err(e) => (Err(e), j, c)
    case Ok(p) =>
      var (moved, c') := A.Advance(aenv, c, env.scope, p.before.Checkpoint(), p.after.Checkpoint(), swap);
      if moved.Err? then (Err(AnchorRejected), j, c')
      else (if write == NoFault then Ok(p.after) else Err(WriteFailed), WriteNext(j, p.entry, write), c')
  }

  // An unanchored operation under the lock.
  function Record(env: Env, j: Journal, q: Request, fault: Fault): (Result<State, Error>, Journal) {
    match Screened(env, j, q)
    case Err(e) => (Err(e), j)
    case Ok((s, a)) => AppendAction(env, s, j, a, fault)
  }

  // An anchored operation under the lock.
  function RecordAnchored(env: Env, aenv: A.Env, j: Journal, c: A.CasJournal, q: Request, swap: Fault, write: Fault)
    : (Result<State, Error>, Journal, A.CasJournal)
  {
    match Screened(env, j, q)
    case Err(e) => (Err(e), j, c)
    case Ok((s, a)) => AppendAnchored(env, aenv, s, j, c, a, swap, write)
  }

  // ----- Laws of one operation

  function SpendAction(env: Env, q: Request): FencingAction
    requires !q.Acquire?
  {
    if q.Claim? then ConsumeNonce(q.grant, q.nonce)
    else CommitResponse(q.grant, q.nonce, env.textHash(q.response), q.response)
  }

  // Exactly the requests that are admitted, in terms of the journal alone.
  ghost predicate Admissible(env: Env, j: Journal, q: Request) {
    && LawfulJournal(env, j) && |j| < U64_MAX
    && match q
       case Acquire(expected, hostId) => ValidId(hostId) && expected == Acquisitions(j)
       case _ => LatestGrant(j, |j|, q.grant) && !Spent(j, q.nonce) && WellFormedAction(env, SpendAction(env, q))
  }

  // A prepared record extends the journal it was prepared on.
  lemma PreparedExtends(env: Env, j: Journal, q: Request)
    requires Prepare(env, j, q).Ok?
    ensures var p := Prepare(env, j, q).value;
            && Replay(env, j) == Ok(p.before) && Replay(env, j + [Whole(p.entry)]) == Ok(p.after)
            && p.after.count == |j| + 1
  {
    ReplaySnoc(env, j, Whole(Prepare(env, j, q).value.entry));
    ReplayIffLawful(env, j);
  }

  lemma HolderOfJournal(env: Env, j: Journal, g: EpochGrant)
    requires Replay(env, j).Ok?
    ensures Replay(env, j).value.active == Some(g) <==> LatestGrant(j, |j|, g)
  {
    ReplayIffLawful(env, j);
    if LatestGrant(j, |j|, g) {
      LatestGrantUnique(j, |j|, g, Replay(env, j).value.active.value);
    }
  }

  lemma SpentInJournal(env: Env, j: Journal, x: Digest)
    requires Replay(env, j).Ok?
    ensures x in Replay(env, j).value.nonces <==> Spent(j, x)
  {
    ReplayIffLawful(env, j);
  }

  lemma EpochOfJournal(env: Env, j: Journal)
    requires Replay(env, j).Ok?
    ensures Replay(env, j).value.count == |j| && Replay(env, j).value.epoch == Acquisitions(j) <= |j|
  {
    ReplayIffLawful(env, j);
  }

  lemma AcquireProjects(env: Env, s: State, hostId: string)
    requires s.epoch <= s.count
    ensures Project(env, s, AcquireEpoch(EpochGrant(hostId, s.epoch + 1))).Ok? <==> ValidId(hostId) && s.count < U64_MAX
  {
    hide ValidId;
    var a := AcquireEpoch(EpochGrant(hostId, s.epoch + 1));
    assert s.count < U64_MAX ==> (ApplyAction(env, s, a).Ok? <==> ValidId(hostId));
  }

  lemma AcquireAdmitted(env: Env, j: Journal, q: Request)
    requires Replay(env, j).Ok? && q.Acquire?
    ensures Prepare(env, j, q).Ok? <==> ValidId(q.hostId) && q.expected == Acquisitions(j) && |j| < U64_MAX
  {
    hide Replay, Project, ValidId, Acquisitions;
    EpochOfJournal(env, j);
    var s := Replay(env, j).value;
    AcquireProjects(env, s, q.hostId);
  }

  lemma SpendAdmitted(env: Env, j: Journal, q: Request)
    requires forall t :: env.validHash(env.textHash(t))
    requires Replay(env, j).Ok? && !q.Acquire?
    ensures Prepare(env, j, q).Ok? <==>
            && |j| < U64_MAX && LatestGrant(j, |j|, q.grant) && !Spent(j, q.nonce)
            && WellFormedAction(env, SpendAction(env, q))
  {
    hide Replay, ValidId, LatestGrant, Spent;
    ReplayShape(env, j);
    HolderOfJournal(env, j, q.grant);
    SpentInJournal(env, j, q.nonce);
    var s := Replay(env, j).value;
    assert Screened(env, j, q).Ok? ==> Screened(env, j, q).value == (s, SpendAction(env, q));
    assert s.active == Some(q.grant) && q.nonce !in s.nonces ==>
             (ApplyAction(env, s, SpendAction(env, q)).Ok? <==> WellFormedAction(env, SpendAction(env, q)));
  }

  // An operation is admitted exactly when the journal is lawful and the request
  // fits it: the next epoch number, or the latest holder and an unspent nonce.
  lemma PrepareIffAdmissible(env: Env, j: Journal, q: Request)
    requires forall t :: env.validHash(env.textHash(t))
    ensures Prepare(env, j, q).Ok? <==> Admissible(env, j, q)
  {
    assert Replay(env, j).Ok? <==> LawfulJournal(env, j) by { ReplayIffLawful(env, j); }
    if Replay(env, j).Ok? {
      match q
      case Acquire(_, _) => AcquireAdmitted(env, j, q);
      case _ => SpendAdmitted(env, j, q);
    }
  }

  // Whatever happens to the write, an operation leaves the records already there
  // alone, adds at most one file, and reports success only for a complete record.
  lemma RecordAppends(env: Env, j: Journal, q: Request, fault: Fault)
    ensures var (r, j') := Record(env, j, q, fault);
            && |j| <= |j'| <= |j| + 1 && j'[..|j|] == j
            && (r.Ok? ==> Replay(env, j') == r && |j'| == |j| + 1)
            && (r.Ok? <==> fault == NoFault && Prepare(env, j, q).Ok?)
  {
    if Prepare(env, j, q).Ok? {
      PreparedExtends(env, j, q);
    }
  }

  // ----- Reading back committed responses

  predicate IsCommit(f: File<FencingEntry>, nonce: Digest, host: string, response: string) {
    && f.Whole? && f.entry.action.CommitResponse? && f.entry.action.nonce == nonce
    && f.entry.action.grant.hostId == host && f.entry.action.response == response
  }

  ghost predicate Committed(j: Journal, nonce: Digest, host: string, response: string) {
    exists k :: 0 <= k < |j| && IsCommit(j[k], nonce, host, response)
  }

  function ResponseForHost(env: Env, j: Journal, nonce: Digest, host: string): Result<Option<string>, Error> {
    if !env.validHash(nonce) || !ValidId(host) then Err(InvalidNonce)
    else
      match Replay(env, j)
      case Err(e) => Err(e)
      case Ok(s) =>
        if nonce in s.committedHost && s.committedHost[nonce] == host && nonce in s.committed
        then Ok(Some(s.committed[nonce]))
        else Ok(None)
  }

  lemma CommittedSnoc(j: Journal, f: File<FencingEntry>, nonce: Digest, host: string, response: string)
    ensures Committed(j + [f], nonce, host, response) <==>
            Committed(j, nonce, host, response) || IsCommit(f, nonce, host, response)
  {
    var p := j + [f];
    if Committed(j, nonce, host, response) {
      var k :| 0 <= k < |j| && IsCommit(j[k], nonce, host, response);
      assert p[k] == j[k];
    }
    if IsCommit(f, nonce, host, response) {
      assert p[|j|] == f;
    }
  }

  predicate Recovers(s: State, nonce: Digest, host: string, response: string) {
    && nonce in s.committed && s.committed[nonce] == response
    && nonce in s.committedHost && s.committedHost[nonce] == host
  }

  predicate CommittedKeys(s: State) {
    s.committed.Keys == s.committedHost.Keys <= s.nonces
  }

  lemma CommittedAction(env: Env, s: State, c: FencingAction, nonce: Digest, host: string, response: string)
    requires CommittedKeys(s) && ApplyAction(env, s, c).Ok?
    ensures var t := ApplyAction(env, s, c).value;
            && CommittedKeys(t)
            && (Recovers(t, nonce, host, response) <==>
                || Recovers(s, nonce, host, response)
                || (c.CommitResponse? && c.nonce == nonce && c.grant.hostId == host && c.response == response))
  {
    var t := ApplyAction(env, s, c).value;
    match c
    case CommitResponse(grant, n, _, r) =>
      assert n !in s.nonces && n !in s.committed;
      assert t.committed == s.committed[n := r] && t.committedHost == s.committedHost[n := grant.hostId];
    case _ =>
      assert t.committed == s.committed && t.committedHost == s.committedHost;
  }

  lemma CommittedStep(env: Env, s: State, f: File<FencingEntry>, nonce: Digest, host: string, response: string)
    requires CommittedKeys(s) && Apply(env, s, f).Ok?
    ensures var t := Apply(env, s, f).value;
            && CommittedKeys(t)
            && (Recovers(t, nonce, host, response) <==>
                Recovers(s, nonce, host, response) || IsCommit(f, nonce, host, response))
  {
    CommittedAction(env, s, f.entry.action, nonce, host, response);
    var t, u := ApplyAction(env, s, f.entry.action).value, Apply(env, s, f).value;
    assert u.committed == t.committed && u.committedHost == t.committedHost && u.nonces == t.nonces;
  }

  // The committed maps hold exactly the commit records.
  lemma {:induction false} CommittedMaps(env: Env, j: Journal, nonce: Digest, host: string, response: string)
    requires Replay(env, j).Ok?
    ensures CommittedKeys(Replay(env, j).value)
    ensures Recovers(Replay(env, j).value, nonce, host, response) <==> Committed(j, nonce, host, response)
    decreases |j|
  {
    if j != [] {
      var n := |j| - 1;
      assert j == j[..n] + [j[n]];
      ReplaySnoc(env, j[..n], j[n]);
      CommittedMaps(env, j[..n], nonce, host, response);
      CommittedStep(env, Replay(env, j[..n]).value, j[n], nonce, host, response);
      CommittedSnoc(j[..n], j[n], nonce, host, response);
    }
  }

  // A host reads back a response exactly when one of the records is that host's
  // own commit of it; foreign and unknown nonces look alike.
  lemma RecoveryIsOwnCommits(env: Env, j: Journal, nonce: Digest, host: string, response: string)
    ensures ResponseForHost(env, j, nonce, host).Ok? <==> env.validHash(nonce) && ValidId(host) && LawfulJournal(env, j)
    ensures ResponseForHost(env, j, nonce, host).Ok? ==>
              (ResponseForHost(env, j, nonce, host).value == Some(response) <==> Committed(j, nonce, host, response))
  {
    hide LawfulJournal, ValidId;
    ReplayIffLawful(env, j);
    if Replay(env, j).Ok? { CommittedMaps(env, j, nonce, host, response); }
  }

  // An action moves neither the count, nor the tip, nor the list of prefixes.
  lemma ActionKeepsPlace(env: Env, s: State, a: FencingAction)
    requires ApplyAction(env, s, a).Ok?
    ensures var t := ApplyAction(env, s, a).value; t.count == s.count && t.tip == s.tip && t.prefix == s.prefix
  {
  }

  // ----- The replayed state as an updatable object

  class ReplayState {
    var count: nat
    var tip: Option<Digest>
    var epoch: nat
    var active: Option<EpochGrant>
    var nonces: set<Digest>
    var committed: map<Digest, string>
    var committedHost: map<Digest, string>
    var prefix: seq<FencingCheckpoint>

    constructor ()
      ensures View() == BLANK
    {
      count, tip, epoch, active := 0, None, 0, None;
      nonces, committed, committedHost, prefix := {}, map[], map[], [];
    }

    constructor Clone(s: ReplayState)
      ensures View() == s.View()
    {
      count, tip, epoch, active := s.count, s.tip, s.epoch, s.active;
      nonces, committed, committedHost, prefix := s.nonces, s.committed, s.committedHost, s.prefix;
    }

    function View(): State
      reads this
    {
      State(count, tip, epoch, active, nonces, committed, committedHost, prefix)
    }

    // The action of a record; a refused one leaves every field as it was.
    method Act(env: Env, a: FencingAction) returns (r: Result<(), Error>)
      modifies this
      ensures match ApplyAction(env, old(View()), a)
              case Ok(t) => r == Ok(()) && View() == t
              case Err(e) => r == Err(e) && View() == old(View())
    {
      hide ValidId;
      match a {
        case AcquireEpoch(grant) =>
          if CheckedAdd1(epoch).None? { return Err(EpochOverflow); }
          if !ValidId(grant.hostId) || Some(grant.epoch) != CheckedAdd1(epoch) { return Err(EpochRollback); }
          epoch, active := grant.epoch, Some(grant);
        case ConsumeNonce(grant, nonce) =>
          if active != Some(grant) || !env.validHash(nonce) || nonce in nonces { return Err(ClaimRejected); }
          nonces := nonces + {nonce};
        case CommitResponse(grant, nonce, responseHash, response) =>
          if || active != Some(grant) || !env.validHash(nonce) || !env.validHash(responseHash)
             || response == "" || |response| > MAX_RESPONSE || env.textHash(response) != responseHash {
            return Err(CommitInvalid);
          }
          var signed := env.readResponse(response);
          if signed.None? { return Err(NotCanonical); }
          if signed.value.nonce != nonce || signed.value.serviceId != env.scope.serviceId {
            return Err(WrongTranscript);
          }
          if !env.verify(env.scope.responseSigner, signed.value) { return Err(BadSignature); }
          if nonce in nonces { return Err(NonceReused); }
          nonces := nonces + {nonce};
          committed := committed[nonce := response];
          committedHost := committedHost[nonce := grant.hostId];
      }
      r := Ok(());
    }

    // A refused record leaves every field as it was.
    method ApplyRecord(env: Env, f: File<FencingEntry>) returns (r: Result<(), Error>)
      modifies this
      ensures match Apply(env, old(View()), f)
              case Ok(t) => r == Ok(()) && View() == t
              case Err(e) => r == Err(e) && View() == old(View())
    {
      hide ApplyAction;
      if CheckedAdd1(count).None? { return Err(SequenceOverflow); }
      if f.Torn? || f.entry.format != FORMAT || f.entry.sequence != count + 1 || f.entry.previous != tip {
        return Err(ChainMismatch);
      }
      var acted := Act(env, f.entry.action);
      if acted.Err? { return acted; }
      ActionKeepsPlace(env, old(View()), f.entry.action);
      count, tip := count + 1, Some(env.fileHash(f));
      prefix := prefix + [FencingCheckpoint(count, tip, active, |nonces|)];
      r := Ok(());
    }
  }

  datatype CommitReceipt = CommitReceipt(grant: EpochGrant, nonce: Digest, responseHash: Digest, checkpoint: FencingCheckpoint)

  // ----- The durable coordinator

  class FencingCoordinator {
    const env: Env
    var journal: Journal

    constructor (env: Env)
      ensures this.env == env && journal == []
    {
      this.env := env;
      journal := [];
    }

    method ReplayAll() returns (s: ReplayState, r: Result<(), Error>)
      ensures fresh(s)
      ensures match Replay(env, journal)
              case Ok(t) => r == Ok(()) && s.View() == t
              case Err(e) => r == Err(e)
    {
      s := new ReplayState();
      for i := 0 to |journal|
        invariant fresh(s) && Replay(env, journal[..i]) == Ok(s.View())
      {
        assert journal[..i + 1] == journal[..i] + [journal[i]];
        ReplaySnoc(env, journal[..i], journal[i]);
        assert journal == journal[..i + 1] + journal[i + 1..];
        RunConcat(Step(env), BLANK, journal[..i + 1], journal[i + 1..]);
        r := s.ApplyRecord(env, journal[i]);
        if r.Err? { return; }
      }
      assert journal[..|journal|] == journal;
      r := Ok(());
    }

    method Append(s: ReplayState, a: FencingAction, fault: Fault) returns (r: Result<(), Error>)
      modifies this`journal, s
      ensures var (done, j) := AppendAction(env, old(s.View()), old(journal), a, fault);
              && journal == j
              && r == match done case Err(e) => Err(e) case Ok(_) => Ok(())
      ensures r.Ok? ==> AppendAction(env, old(s.View()), old(journal), a, fault).0 == Ok(s.View())
    {
      if CheckedAdd1(s.count).None? { return Err(SequenceOverflow); }
      var entry := FencingEntry(FORMAT, s.count + 1, s.tip, a);
      r := s.ApplyRecord(env, Whole(entry));
      if r.Err? { return; }
      journal := WriteNext(journal, entry, fault);
      r := if fault == NoFault then Ok(()) else Err(WriteFailed);
    }

    // The next record, applied to a copy of the replayed state.
    method ProjectNext(s: ReplayState, a: FencingAction) returns (r: Result<Prepared, Error>)
      ensures r == Project(env, s.View(), a)
    {
      hide Apply;
      if CheckedAdd1(s.count).None? { return Err(SequenceOverflow); }
      var entry := FencingEntry(FORMAT, s.count + 1, s.tip, a);
      var projected := new ReplayState.Clone(s);
      var applied := projected.ApplyRecord(env, Whole(entry));
      r := if applied.Err? then Err(applied.error) else Ok(Prepared(s.View(), entry, projected.View()));
    }

    method AppendWithAnchor(s: ReplayState, a: FencingAction, external: A.DurableAnchor, swap: Fault, write: Fault)
      returns (r: Result<State, Error>)
      modifies this`journal, external`journal
      ensures (r, journal, external.journal) ==
              AppendAnchored(env, external.env, s.View(), old(journal), old(external.journal), a, swap, write)
    {
      hide Project, A.Advance, WriteNext;
      var projected := ProjectNext(s, a);
      if projected.Err? { return Err(projected.error); }
      var p := projected.value;
      var moved := external.Swap(env.scope, p.before.Checkpoint(), p.after.Checkpoint(), swap);
      if moved.Err? { return Err(AnchorRejected); }
      journal := WriteNext(journal, p.entry, write);
      r := if write == NoFault then Ok(p.after) else Err(WriteFailed);
    }

    method AdvanceEpoch(expected: nat, hostId: string, fault: Fault) returns (r: Result<EpochGrant, Error>)
      modifies this`journal
      ensures var (done, j) := Record(env, old(journal), Acquire(expected, hostId), fault);
              && journal == j
              && r == match done case Err(e) => Err(e) case Ok(_) => Ok(EpochGrant(hostId, expected + 1))
    {
      if !ValidId(hostId) { return Err(InvalidHolder); }
      var s, replayed := ReplayAll();
      if replayed.Err? { return Err(replayed.error); }
      if s.epoch != expected { return Err(EpochCasFailed); }
      if CheckedAdd1(expected).None? { return Err(EpochOverflow); }
      var grant := EpochGrant(hostId, expected + 1);
      assert Screened(env, journal, Acquire(expected, hostId)) == Ok((s.View(), AcquireEpoch(grant)));
      var done := Append(s, AcquireEpoch(grant), fault);
      r := if done.Err? then Err(done.error) else Ok(grant);
    }

    method AdvanceEpochAnchored(expected: nat, hostId: string, external: A.DurableAnchor, swap: Fault, write: Fault)
      returns (r: Result<EpochGrant, Error>)
      modifies this`journal, external`journal
      ensures var (done, j, a) := RecordAnchored(env, external.env, old(journal), old(external.journal),
                                                 Acquire(expected, hostId), swap, write);
              && journal == j && external.journal == a
              && r == match done case Err(e) => Err(e) case Ok(_) => Ok(EpochGrant(hostId, expected + 1))
    {
      hide Replay, AppendAnchored, ValidId;
      if !ValidId(hostId) { return Err(InvalidHolder); }
      var s, replayed := ReplayAll();
      if replayed.Err? { return Err(replayed.error); }
      if s.epoch != expected { return Err(EpochCasFailed); }
      if CheckedAdd1(expected).None? { return Err(EpochOverflow); }
      var grant := EpochGrant(hostId, expected + 1);
      assert Screened(env, journal, Acquire(expected, hostId)) == Ok((s.View(), AcquireEpoch(grant)));
      var done := AppendWithAnchor(s, AcquireEpoch(grant), external, swap, write);
      r := if done.Err? then Err(done.error) else Ok(grant);
    }

    method ClaimNonce(grant: EpochGrant, nonce: Digest, fault: Fault) returns (r: Result<FencingCheckpoint, Error>)
      modifies this`journal
      ensures var (done, j) := Record(env, old(journal), Claim(grant, nonce), fault);
              && journal == j
              && r == match done case Err(e) => Err(e) case Ok(s) => Ok(s.Checkpoint())
    {
      if !env.validHash(nonce) { return Err(InvalidNonce); }
      var s, replayed := ReplayAll();
      if replayed.Err? { return Err(replayed.error); }
      if s.active != Some(grant) { return Err(StaleHolder); }
      if nonce in s.nonces { return Err(NonceReused); }
      assert Screened(env, journal, Claim(grant, nonce)) == Ok((s.View(), ConsumeNonce(grant, nonce)));
      var done := Append(s, ConsumeNonce(grant, nonce), fault);
      r := if done.Err? then Err(done.error) else Ok(s.View().Checkpoint());
    }

    method CommitResponseText(grant: EpochGrant, nonce: Digest, response: string, fault: Fault)
      returns (r: Result<CommitReceipt, Error>)
      modifies this`journal
      ensures var (done, j) := Record(env, old(journal), Commit(grant, nonce, response), fault);
              && journal == j
              && r == match done case Err(e) => Err(e)
                                 case Ok(s) => Ok(CommitReceipt(grant, nonce, env.textHash(response), s.Checkpoint()))
    {
      if !env.validHash(nonce) || response == "" || |response| > MAX_RESPONSE { return Err(InvalidNonce); }
      var s, replayed := ReplayAll();
      if replayed.Err? { return Err(replayed.error); }
      if s.active != Some(grant) || nonce in s.nonces { return Err(StaleHolder); }
      var responseHash := env.textHash(response);
      assert Screened(env, journal, Commit(grant, nonce, response)) == Ok((s.View(), CommitResponse(grant, nonce, responseHash, response)));
      var done := Append(s, CommitResponse(grant, nonce, responseHash, response), fault);
      r := if done.Err? then Err(done.error)
           else Ok(CommitReceipt(grant, nonce, responseHash, s.View().Checkpoint()));
    }

    method CommitResponseAnchored(grant: EpochGrant, nonce: Digest, response: string,
                                  external: A.DurableAnchor, swap: Fault, write: Fault)
      returns (r: Result<CommitReceipt, Error>)
      modifies this`journal, external`journal
      ensures var (done, j, a) := RecordAnchored(env, external.env, old(journal), old(external.journal),
                                                 Commit(grant, nonce, response), swap, write);
              && journal == j && external.journal == a
              && r == match done case Err(e) => Err(e)
                                 case Ok(s) => Ok(CommitReceipt(grant, nonce, env.textHash(response), s.Checkpoint()))
    {
      hide Replay, AppendAnchored, ValidId;
      if !env.validHash(nonce) || response == "" || |response| > MAX_RESPONSE { return Err(InvalidNonce); }
      var s, replayed := ReplayAll();
      if replayed.Err? { return Err(replayed.error); }
      if s.active != Some(grant) || nonce in s.nonces { return Err(StaleHolder); }
      var responseHash := env.textHash(response);
      assert Screened(env, journal, Commit(grant, nonce, response)) == Ok((s.View(), CommitResponse(grant, nonce, responseHash, response)));
      var done := AppendWithAnchor(s, CommitResponse(grant, nonce, responseHash, response), external, swap, write);
      r := if done.Err? then Err(done.error)
           else Ok(CommitReceipt(grant, nonce, responseHash, done.value.Checkpoint()));
    }

    method CheckFloor(floor: FencingCheckpoint) returns (r: Result<FencingCheckpoint, Error>)
      ensures r == VerifyFloor(env, journal, floor)
    {
      if !ValidCheckpoint(env.validHash, floor) { return Err(InvalidCheckpoint); }
      var s, replayed := ReplayAll();
      if replayed.Err? { return Err(replayed.error); }
      ReplayShape(env, journal);
      if floor.recordCount > s.count { return Err(BelowFloor); }
      var local := if floor.recordCount == 0 then GENESIS else s.prefix[floor.recordCount - 1];
      if local != floor { return Err(Diverged); }
      r := Ok(s.View().Checkpoint());
    }

    method CommittedResponseForHost(nonce: Digest, host: string) returns (r: Result<Option<string>, Error>)
      ensures r == ResponseForHost(env, journal, nonce, host)
    {
      if !env.validHash(nonce) || !ValidId(host) { return Err(InvalidNonce); }
      var s, replayed := ReplayAll();
      if replayed.Err? { return Err(replayed.error); }
      if nonce !in s.committedHost || s.committedHost[nonce] != host || nonce !in s.committed { return Ok(None); }
      r := Ok(Some(s.committed[nonce]));
    }
  }
}
