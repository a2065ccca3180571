// Whole runs of the two-log spend: any number of processes share one local store
// and one witness, spend and reconcile, and may die or lose a write at any point.
module SpendRuns {
  import opened Base
  import opened Chains
  import opened Consumption
  import W = Witness

  type Pid = nat

  // A receipt that a reconciling process has looked up, before it takes the lock.
  datatype Found = Found(q: ReviewRequest, receipt: W.WitnessReceipt)

  // How far the process that holds the local lock has come.
  datatype Phase =
    | Spending(q: ReviewRequest, expectedTip: Option<Digest>)
    | Recovering(found: Found)
    | Committed(record: SpendRecord)

  datatype Held = Held(pid: Pid, phase: Phase)

  // Both logs on disk, the looked-up receipts, the lock, and the authorizations
  // whose spend reached the witness but was cut off before its local record.
  datatype Sys = Sys(
    log: Log, journal: W.Journal, found: map<Pid, Found>, lock: Option<Held>, interrupted: set<string>)

  const START := Sys([], [], map[], None, {})

  datatype Event =
    | Begin(pid: Pid, q: ReviewRequest, expectedTip: Option<Digest>)
    | Look(pid: Pid, q: ReviewRequest)
    | Resume(pid: Pid)
    | Commit(pid: Pid, fault: Fault)
    | Write(pid: Pid, fault: Fault)
    | Die(pid: Pid)

  datatype World = World(env: Env, wenv: W.Env)

  // Store and witness are set up for the same case, and digests are collision free.
  ghost predicate Paired(w: World) {
    && Sound(w.env) && W.Sound(w.wenv) && w.env.validHash == w.wenv.validHash
    && w.wenv.config.namespace == w.env.marker.namespace && w.wenv.config.caseId == w.env.marker.caseId
    && w.wenv.config.rootKey == w.env.marker.rootKey
  }

  predicate Landed(fault: Fault) {
    fault == NoFault || fault == LateFailure
  }

  predicate Holds(s: Sys, pid: Pid) {
    s.lock.Some? && s.lock.value.pid == pid
  }

  // The witness call of a spend, under the local lock.
  function NextSpend(w: World, s: Sys, pid: Pid, q: ReviewRequest, expectedTip: Option<Digest>, fault: Fault): Sys {
    var (r, journal) := CommitWitness(w.env, w.wenv, s.log, s.journal, q, expectedTip, fault);
    match r
    case Ok(record) => s.(journal := journal, lock := Some(Held(pid, Committed(record))))
    case Err(_) =>
      s.(journal := journal, lock := None,
         interrupted := if journal != s.journal && Landed(fault) then s.interrupted + {q.decision.authorizationId}
                        else s.interrupted)
  }

  // One event; an event that is not enabled changes nothing. The unwitnessed spend
  // does not occur in these runs.
  function Next(w: World, s: Sys, e: Event): Sys {
    match e
    case Begin(pid, q, tip) =>
      if s.lock.None? then s.(lock := Some(Held(pid, Spending(q, tip)))) else s
    case Look(pid, q) =>
      (match FindReceipt(w.wenv, s.journal, q)
       case Ok(receipt) => s.(found := s.found[pid := Found(q, receipt)])
       case Err(_) => s)
    case Resume(pid) =>
      if s.lock.None? && pid in s.found then s.(lock := Some(Held(pid, Recovering(s.found[pid]))), found := s.found - {pid})
      else s
    case Commit(pid, fault) =>
      if !Holds(s, pid) then s
      else
        (match s.lock.value.phase
         case Spending(q, tip) => NextSpend(w, s, pid, q, tip, fault)
         case Recovering(found) =>
           (match Rebind(w.env, s.log, found.q, found.receipt)
            case Ok(record) => s.(lock := Some(Held(pid, Committed(record))))
            case Err(_) => s.(lock := None))
         case Committed(_) => s)
    case Write(pid, fault) =>
      if !Holds(s, pid) || !s.lock.value.phase.Committed? then s
      else
        var r := s.lock.value.phase.record;
        s.(log := WriteNext(s.log, r, fault), lock := None,
           interrupted := if Landed(fault) then s.interrupted - {r.authorizationId} else s.interrupted + {r.authorizationId})
    case Die(pid) =>
      if !Holds(s, pid) then s.(found := s.found - {pid})
      else if s.lock.value.phase.Committed? then
        s.(lock := None, interrupted := s.interrupted + {s.lock.value.phase.record.authorizationId})
      else s.(lock := None)
  }

  function Exec(w: World, s: Sys, events: seq<Event>): Sys
    decreases |events|
  {
    if events == [] then s else Next(w, Exec(w, s, events[..|events| - 1]), events[|events| - 1])
  }

  // ----- How the two logs relate

  // A local record and the witness entry it stands for.
  predicate Matches(env: Env, r: SpendRecord, e: W.Entry) {
    && r.authorizationId == e.request.authorizationId && r.nonce == e.request.nonce
    && r.registryEpoch == e.request.registryEpoch && r.signedReview == e.request.signedDecision
    && r.witnessReceipt == Some(env.receiptHash(e.receipt))
  }

  predicate BackedAt(env: Env, r: SpendRecord, j: W.Journal, k: nat) {
    k < |j| && j[k].Whole? && Matches(env, r, j[k].entry)
  }

  ghost predicate Backed(env: Env, r: SpendRecord, j: W.Journal) {
    exists k :: BackedAt(env, r, j, k)
  }

  ghost predicate AllBacked(env: Env, log: Log, j: W.Journal) {
    forall i :: 0 <= i < |log| ==> log[i].Whole? && Backed(env, log[i].entry, j)
  }

  predicate Recorded(log: Log, id: string) {
    exists i :: 0 <= i < |log| && log[i].Whole? && log[i].entry.authorizationId == id
  }

  predicate Witnessed(j: W.Journal, id: string) {
    exists i :: 0 <= i < |j| && j[i].Whole? && j[i].entry.request.authorizationId == id
  }

  // The witness entries without a local record are exactly the open spends.
  ghost predicate OpenAre(log: Log, j: W.Journal, open: set<string>) {
    forall id :: id in open <==> Witnessed(j, id) && !Recorded(log, id)
  }

  ghost predicate Consistent(w: World, log: Log, j: W.Journal, open: set<string>) {
    && Replay(w.env, log).Ok? && W.Replay(w.wenv, j).Ok?
    && AllBacked(w.env, log, j) && OpenAre(log, j, open)
  }

  predicate Issued(j: W.Journal, receipt: W.WitnessReceipt) {
    exists k :: 0 <= k < |j| && j[k].Whole? && j[k].entry.receipt == receipt
  }

  // The spend in flight: its witness entry is written, its record not yet.
  function InFlight(s: Sys): set<string> {
    if s.lock.Some? && s.lock.value.phase.Committed? then {s.lock.value.phase.record.authorizationId} else {}
  }

  ghost predicate LockFits(w: World, s: Sys) {
    s.lock.Some? ==>
      match s.lock.value.phase
      case Spending(_, _) => true
      case Recovering(found) => Issued(Complete(s.journal), found.receipt)
      case Committed(r) =>
        && Replay(w.env, s.log).Ok? && Apply(w.env, Replay(w.env, s.log).value, Whole(r)).Ok?
        && Backed(w.env, r, Complete(s.journal))
  }

  ghost predicate Inv(w: World, s: Sys) {
    && Consistent(w, Complete(s.log), Complete(s.journal), s.interrupted + InFlight(s))
    && LockFits(w, s)
    && forall pid :: pid in s.found ==> Issued(Complete(s.journal), s.found[pid].receipt)
  }

  // ----- One log grows

  lemma CompleteLog(w: World, log: Log, f: File<SpendRecord>)
    requires Replay(w.env, log).Ok?
    ensures Complete(log) == log && Complete(log + [f]) == if f.Torn? then log else log + [f]
  {
    if log != [] {
      assert log == log[..|log| - 1] + [log[|log| - 1]];
      ReplaySnoc(w.env, log[..|log| - 1], log[|log| - 1]);
    }
    assert (log + [f])[..|log|] == log;
  }

  lemma CompleteJournal(w: World, j: W.Journal, f: File<W.Entry>)
    requires W.Replay(w.wenv, j).Ok?
    ensures Complete(j) == j && Complete(j + [f]) == if f.Torn? then j else j + [f]
  {
    if j != [] {
      assert j == j[..|j| - 1] + [j[|j| - 1]];
      W.ReplaySnoc(w.wenv, j[..|j| - 1], j[|j| - 1]);
    }
    assert (j + [f])[..|j|] == j;
  }

  lemma BackedGrows(env: Env, r: SpendRecord, j: W.Journal, f: File<W.Entry>)
    requires Backed(env, r, j)
    ensures Backed(env, r, j + [f])
  {
    var k: nat :| BackedAt(env, r, j, k);
    assert BackedAt(env, r, j + [f], k);
  }

  lemma IssuedGrows(j: W.Journal, f: File<W.Entry>, receipt: W.WitnessReceipt)
    requires Issued(j, receipt)
    ensures Issued(j + [f], receipt)
  {
    var k: nat :| k < |j| && j[k].Whole? && j[k].entry.receipt == receipt;
    assert (j + [f])[k] == j[k];
  }

  lemma WitnessedSnoc(j: W.Journal, e: W.Entry, id: string)
    ensures Witnessed(j + [Whole(e)], id) <==> Witnessed(j, id) || e.request.authorizationId == id
  {
    var all := j + [Whole(e)];
    if Witnessed(j, id) {
      var i: nat :| i < |j| && j[i].Whole? && j[i].entry.request.authorizationId == id;
      assert all[i] == j[i];
    }
    assert all[|j|] == Whole(e);
  }

  lemma RecordedSnoc(log: Log, r: SpendRecord, id: string)
    ensures Recorded(log + [Whole(r)], id) <==> Recorded(log, id) || r.authorizationId == id
  {
    var all := log + [Whole(r)];
    if Recorded(log, id) {
      var i: nat :| i < |log| && log[i].Whole? && log[i].entry.authorizationId == id;
      assert all[i] == log[i];
    }
    assert all[|log|] == Whole(r);
  }

  // A recorded spend was witnessed.
  lemma RecordedWitnessed(w: World, log: Log, j: W.Journal, id: string)
    requires AllBacked(w.env, log, j) && Recorded(log, id)
    ensures Witnessed(j, id)
  {
    var i: nat :| i < |log| && log[i].Whole? && log[i].entry.authorizationId == id;
    var k: nat :| BackedAt(w.env, log[i].entry, j, k);
  }

  // A new witness entry opens one spend.
  lemma WitnessGrows(w: World, log: Log, j: W.Journal, open: set<string>, q: W.WitnessConsume)
    requires Consistent(w, log, j, open) && W.CheckConsume(w.wenv, j, q).Ok?
    ensures var e := W.CheckConsume(w.wenv, j, q).value;
            Consistent(w, log, j + [Whole(e)], open + {q.authorizationId})
  {
    var e := W.CheckConsume(w.wenv, j, q).value;
    W.ConsumeAppends(w.wenv, j, q);
    W.SpentAre(w.wenv, j, q.authorizationId, 0);
    forall i | 0 <= i < |log| ensures Backed(w.env, log[i].entry, j + [Whole(e)]) {
      BackedGrows(w.env, log[i].entry, j, Whole(e));
    }
    if Recorded(log, q.authorizationId) {
      RecordedWitnessed(w, log, j, q.authorizationId);
    }
    forall id ensures Witnessed(j + [Whole(e)], id) <==> Witnessed(j, id) || q.authorizationId == id {
      WitnessedSnoc(j, e, id);
    }
  }

  // A new local record closes one.
  lemma LogGrows(w: World, log: Log, j: W.Journal, open: set<string>, r: SpendRecord)
    requires Consistent(w, log, j, open)
    requires Apply(w.env, Replay(w.env, log).value, Whole(r)).Ok? && Backed(w.env, r, j)
    ensures Consistent(w, log + [Whole(r)], j, open - {r.authorizationId})
  {
    ReplaySnoc(w.env, log, Whole(r));
    forall id ensures Recorded(log + [Whole(r)], id) <==> Recorded(log, id) || r.authorizationId == id {
      RecordedSnoc(log, r, id);
    }
  }

  // A committed record is open until it is written.
  lemma CommittedIsOpen(w: World, log: Log, j: W.Journal, open: set<string>, r: SpendRecord)
    requires Consistent(w, log, j, open)
    requires Apply(w.env, Replay(w.env, log).value, Whole(r)).Ok? && Backed(w.env, r, j)
    ensures r.authorizationId in open
  {
    var k: nat :| BackedAt(w.env, r, j, k);
    SpentAre(w.env, log, r.authorizationId, r.nonce);
    assert Witnessed(j, r.authorizationId);
  }

  // ----- The invariant

  // The record a screened request and a bound, issued receipt give is backed.
  lemma BoundIsBacked(w: World, log: Log, j: W.Journal, q: ReviewRequest, receipt: W.WitnessReceipt)
    requires Paired(w) && W.Replay(w.wenv, j).Ok? && Issued(j, receipt)
    requires Screen(w.env, log, q).Ok? && Bound(w.env, Screen(w.env, log, q).value, receipt)
    ensures var r := WithReceipt(w.env, Screen(w.env, log, q).value, receipt);
            Backed(w.env, r, j) && Apply(w.env, Replay(w.env, log).value, Whole(r)).Ok?
  {
    var r := WithReceipt(w.env, Screen(w.env, log, q).value, receipt);
    var k: nat :| k < |j| && j[k].Whole? && j[k].entry.receipt == receipt;
    W.EntriesFacts(w.wenv, j, k, k);
    assert BackedAt(w.env, r, j, k);
    ScreenedAppends(w.env, log, q, Some(receipt));
  }

  lemma FoundIssued(w: World, j: W.Journal, q: ReviewRequest)
    requires FindReceipt(w.wenv, j, q).Ok?
    ensures W.Replay(w.wenv, j).Ok? && Issued(j, FindReceipt(w.wenv, j, q).value)
  {
    W.ReplayShape(w.wenv, j);
    var entries := W.Replay(w.wenv, j).value.entries;
    W.FindExact(entries, q.decision.authorizationId);
    var i: nat :| i < |entries| && entries[i].receipt == FindReceipt(w.wenv, j, q).value;
    assert j[i] == Whole(entries[i]);
  }

  lemma LookKeepsInv(w: World, s: Sys, pid: Pid, q: ReviewRequest)
    requires Inv(w, s)
    ensures Inv(w, Next(w, s, Look(pid, q)))
  {
    hide Consistent, Issued, Backed, Replay, Apply, W.Replay, FindReceipt;
    if FindReceipt(w.wenv, s.journal, q).Ok? {
      FoundIssued(w, s.journal, q);
      CompleteJournal(w, s.journal, Torn);
      var t := Next(w, s, Look(pid, q));
      assert t.interrupted + InFlight(t) == s.interrupted + InFlight(s);
    }
  }

  lemma AllIssuedGrow(found: map<Pid, Found>, j: W.Journal, f: File<W.Entry>)
    requires forall pid :: pid in found ==> Issued(j, found[pid].receipt)
    ensures forall pid :: pid in found ==> Issued(j + [f], found[pid].receipt)
  {
    forall pid | pid in found ensures Issued(j + [f], found[pid].receipt) {
      IssuedGrows(j, f, found[pid].receipt);
    }
  }

  // The witness call of a spend once every guard of both stores has passed: the
  // entry lands or not, and the process goes on only when it was told so.
  lemma SpendOutcome(w: World, s: Sys, pid: Pid, q: ReviewRequest, tip: Option<Digest>, fault: Fault)
    requires Paired(w) && Screen(w.env, s.log, q).Ok?
    requires W.CheckConsume(w.wenv, s.journal, Stamp(w.env, Screen(w.env, s.log, q).value, tip)).Ok?
    ensures var r := Screen(w.env, s.log, q).value;
            var e := W.CheckConsume(w.wenv, s.journal, Stamp(w.env, r, tip)).value;
            && Bound(w.env, r, e.receipt)
            && NextSpend(w, s, pid, q, tip, fault) ==
               s.(journal := WriteNext(s.journal, e, fault),
                  lock := if fault == NoFault then Some(Held(pid, Committed(WithReceipt(w.env, r, e.receipt)))) else None,
                  interrupted := if fault == LateFailure then s.interrupted + {r.authorizationId} else s.interrupted)
  {
    FreshReceiptBound(w.env, w.wenv, s.log, s.journal, q, tip, fault);
  }

  // A whole new entry on disk: the logs stay consistent with one more open spend.
  lemma EntryLands(w: World, s: Sys, q: W.WitnessConsume)
    requires Inv(w, s) && InFlight(s) == {} && Replay(w.env, s.log).Ok? && W.CheckConsume(w.wenv, s.journal, q).Ok?
    ensures var e := W.CheckConsume(w.wenv, s.journal, q).value;
            && Complete(s.log) == s.log && Complete(s.journal) == s.journal
            && Complete(s.journal + [Torn]) == s.journal && Complete(s.journal + [Whole(e)]) == s.journal + [Whole(e)]
            && Consistent(w, s.log, s.journal + [Whole(e)], s.interrupted + {q.authorizationId})
            && W.Replay(w.wenv, s.journal + [Whole(e)]).Ok? && Issued(s.journal + [Whole(e)], e.receipt)
            && forall pid :: pid in s.found ==> Issued(s.journal + [Whole(e)], s.found[pid].receipt)
  {
    hide Issued, Backed, Run, OpenAre, AllBacked;
    var e := W.CheckConsume(w.wenv, s.journal, q).value;
    CompleteJournal(w, s.journal, Torn);
    CompleteJournal(w, s.journal, Whole(e));
    CompleteLog(w, s.log, Torn);
    assert s.interrupted + InFlight(s) == s.interrupted;
    WitnessGrows(w, s.log, s.journal, s.interrupted, q);
    AllIssuedGrow(s.found, s.journal, Whole(e));
    EntryIssued(s.journal, e);
  }

  // The state after a witness write that met the given fault, put together.
  lemma CommitInv(w: World, s: Sys, pid: Pid, record: SpendRecord, e: W.Entry, fault: Fault)
    requires Inv(w, s) && InFlight(s) == {} && Complete(s.log) == s.log && Complete(s.journal) == s.journal
    requires Complete(s.journal + [Torn]) == s.journal && Complete(s.journal + [Whole(e)]) == s.journal + [Whole(e)]
    requires Consistent(w, s.log, s.journal + [Whole(e)], s.interrupted + {record.authorizationId})
    requires forall id :: id in s.found ==> Issued(s.journal + [Whole(e)], s.found[id].receipt)
    requires Replay(w.env, s.log).Ok?
    requires fault == NoFault ==>
               Apply(w.env, Replay(w.env, s.log).value, Whole(record)).Ok? && Backed(w.env, record, s.journal + [Whole(e)])
    ensures Inv(w, s.(journal := WriteNext(s.journal, e, fault),
                      lock := if fault == NoFault then Some(Held(pid, Committed(record))) else None,
                      interrupted := if fault == LateFailure then s.interrupted + {record.authorizationId} else s.interrupted))
  {
    hide Issued, Backed, Apply, Replay, Consistent, Complete;
    var t := s.(journal := WriteNext(s.journal, e, fault),
                lock := if fault == NoFault then Some(Held(pid, Committed(record))) else None,
                interrupted := if fault == LateFailure then s.interrupted + {record.authorizationId} else s.interrupted);
    assert t.interrupted + InFlight(t) == if Landed(fault) then s.interrupted + {record.authorizationId} else s.interrupted;
    assert s.interrupted + InFlight(s) == s.interrupted;
  }

  lemma SpendCommits(w: World, s: Sys, pid: Pid, q: ReviewRequest, tip: Option<Digest>, fault: Fault)
    requires Paired(w) && Inv(w, s) && s.lock == Some(Held(pid, Spending(q, tip))) && Screen(w.env, s.log, q).Ok?
    requires W.CheckConsume(w.wenv, s.journal, Stamp(w.env, Screen(w.env, s.log, q).value, tip)).Ok?
    ensures Inv(w, NextSpend(w, s, pid, q, tip, fault))
  {
    ScreenReads(w.env, s.log, q);
    hide Inv, Issued, Backed, Bound, NextSpend, Apply, Replay, W.Replay, Consistent, Screen, W.CheckConsume, Complete;
    SpendOutcome(w, s, pid, q, tip, fault);
    var r := Screen(w.env, s.log, q).value;
    var e := W.CheckConsume(w.wenv, s.journal, Stamp(w.env, r, tip)).value;
    EntryLands(w, s, Stamp(w.env, r, tip));
    if fault == NoFault {
      BoundIsBacked(w, s.log, s.journal + [Whole(e)], q, e.receipt);
    }
    CommitInv(w, s, pid, WithReceipt(w.env, r, e.receipt), e, fault);
  }

  lemma ScreenReads(env: Env, log: Log, q: ReviewRequest)
    requires Screen(env, log, q).Ok?
    ensures Replay(env, log).Ok?
  {
    hide Replay, ValidRecord;
  }

  lemma EntryIssued(j: W.Journal, e: W.Entry)
    ensures Issued(j + [Whole(e)], e.receipt)
  {
    assert (j + [Whole(e)])[|j|] == Whole(e);
  }

  lemma SpendKeepsInv(w: World, s: Sys, pid: Pid, q: ReviewRequest, tip: Option<Digest>, fault: Fault)
    requires Paired(w) && Inv(w, s) && s.lock == Some(Held(pid, Spending(q, tip)))
    ensures Inv(w, NextSpend(w, s, pid, q, tip, fault))
  {
    if Screen(w.env, s.log, q).Ok? && W.CheckConsume(w.wenv, s.journal, Stamp(w.env, Screen(w.env, s.log, q).value, tip)).Ok? {
      SpendCommits(w, s, pid, q, tip, fault);
    }
  }

  lemma RecoverKeepsInv(w: World, s: Sys, pid: Pid, found: Found, fault: Fault)
    requires Paired(w) && Inv(w, s) && s.lock == Some(Held(pid, Recovering(found)))
    ensures Inv(w, Next(w, s, Commit(pid, fault)))
  {
    var r := Rebind(w.env, s.log, found.q, found.receipt);
    if r.Ok? {
      CompleteLog(w, s.log, Torn);
      var j := Complete(s.journal);
      BoundIsBacked(w, s.log, j, found.q, found.receipt);
      CommittedIsOpen(w, s.log, j, s.interrupted, r.value);
      assert s.interrupted + {r.value.authorizationId} == s.interrupted;
    }
  }

  lemma WriteKeepsInv(w: World, s: Sys, pid: Pid, r: SpendRecord, fault: Fault)
    requires Inv(w, s) && s.lock == Some(Held(pid, Committed(r)))
    ensures Inv(w, Next(w, s, Write(pid, fault)))
  {
    hide Consistent, Replay, Apply, Backed, Issued;
    var open := s.interrupted + {r.authorizationId};
    CompleteLog(w, s.log, Torn);
    CompleteLog(w, s.log, Whole(r));
    LogGrows(w, s.log, Complete(s.journal), open, r);
    var t := Next(w, s, Write(pid, fault));
    assert t.interrupted + InFlight(t) == if Landed(fault) then open - {r.authorizationId} else open;
    assert open - {r.authorizationId} == s.interrupted - {r.authorizationId};
  }

  // Taking the lock, and dying, write nothing.
  lemma QuietKeepsInv(w: World, s: Sys, e: Event)
    requires Inv(w, s) && (e.Begin? || e.Resume? || e.Die?)
    ensures Inv(w, Next(w, s, e))
  {
    hide Consistent, Issued, Backed, Replay, Apply;
    var t := Next(w, s, e);
    assert t.interrupted + InFlight(t) == s.interrupted + InFlight(s);
  }

  lemma StepKeepsInv(w: World, s: Sys, e: Event)
    requires Paired(w) && Inv(w, s)
    ensures Inv(w, Next(w, s, e))
  {
    match e
    case Begin(_, _, _) => QuietKeepsInv(w, s, e);
    case Resume(_) => QuietKeepsInv(w, s, e);
    case Die(_) => QuietKeepsInv(w, s, e);
    case Look(pid, q) => LookKeepsInv(w, s, pid, q);
    case Commit(pid, fault) =>
      hide Inv;
      if Holds(s, pid) {
        match s.lock.value.phase
        case Spending(q, tip) => SpendKeepsInv(w, s, pid, q, tip, fault);
        case Recovering(found) => RecoverKeepsInv(w, s, pid, found, fault);
        case Committed(_) =>
      }
    case Write(pid, fault) =>
      hide Inv;
      if Holds(s, pid) && s.lock.value.phase.Committed? {
        WriteKeepsInv(w, s, pid, s.lock.value.phase.record, fault);
      }
  }

  lemma {:induction false} RunsKeepInv(w: World, s: Sys, events: seq<Event>)
    requires Paired(w) && Inv(w, s)
    ensures Inv(w, Exec(w, s, events))
    decreases |events|
  {
    if events != [] {
      RunsKeepInv(w, s, events[..|events| - 1]);
      StepKeepsInv(w, Exec(w, s, events[..|events| - 1]), events[|events| - 1]);
    }
  }

  // In every reachable state the invariant holds.
  lemma ReachableInv(w: World, events: seq<Event>)
    requires Paired(w)
    ensures Inv(w, Exec(w, START, events))
  {
    assert Replay(w.env, []) == Ok(BLANK) && W.Replay(w.wenv, []) == Ok(W.Blank(w.wenv));
    RunsKeepInv(w, START, events);
  }

  // ----- What every run promises

  // Every complete local record stands for exactly one witness entry, and no
  // entry for two records.
  lemma OneToOne(w: World, events: seq<Event>, i: nat)
    requires Paired(w)
    requires var s := Exec(w, START, events); i < |Complete(s.log)|
    ensures var log, j := Complete(Exec(w, START, events).log), Complete(Exec(w, START, events).journal);
            && log[i].Whole?
            && exists k :: BackedAt(w.env, log[i].entry, j, k)
                           && (forall l: nat :: BackedAt(w.env, log[i].entry, j, l) ==> l == k)
                           && (forall m :: 0 <= m < |log| && log[m].Whole? && BackedAt(w.env, log[m].entry, j, k) ==> m == i)
  {
    ReachableInv(w, events);
    var log, j := Complete(Exec(w, START, events).log), Complete(Exec(w, START, events).journal);
    var k: nat :| BackedAt(w.env, log[i].entry, j, k);
    forall l: nat | BackedAt(w.env, log[i].entry, j, l) ensures l == k {
      if l < k { W.EntriesFacts(w.wenv, j, l, k); } else if k < l { W.EntriesFacts(w.wenv, j, k, l); }
    }
    forall m | 0 <= m < |log| && log[m].Whole? && BackedAt(w.env, log[m].entry, j, k) ensures m == i {
      if m < i { NothingSpentTwice(w.env, log, m, i); } else if i < m { NothingSpentTwice(w.env, log, i, m); }
    }
  }

  // Between operations, the witness entries without a local record are exactly
  // the spends that were cut off after their witness entry landed.
  lemma GapsAreInterrupted(w: World, events: seq<Event>, id: string)
    requires Paired(w) && Exec(w, START, events).lock.None?
    ensures var s := Exec(w, START, events);
            id in s.interrupted <==> Witnessed(Complete(s.journal), id) && !Recorded(Complete(s.log), id)
  {
    ReachableInv(w, events);
    var s := Exec(w, START, events);
    assert s.interrupted + InFlight(s) == s.interrupted;
  }

  // The witness entry at k is for exactly this signed review.
  predicate SpentFor(env: Env, e: W.Entry, q: ReviewRequest) {
    && e.request.authorizationId == q.decision.authorizationId && e.request.nonce == q.decision.nonce
    && e.request.registryEpoch == q.registryEpoch && e.request.signedDecision == env.decisionHash(q.decision)
  }

  lemma ScreenedFields(env: Env, log: Log, q: ReviewRequest)
    requires Screen(env, log, q).Ok?
    ensures var r := Screen(env, log, q).value;
            && r.authorizationId == q.decision.authorizationId && r.nonce == q.decision.nonce
            && r.registryEpoch == q.registryEpoch && r.signedReview == env.decisionHash(q.decision)
  {
    hide Run, ValidRecord;
  }

  // Undisturbed, reconciliation succeeds exactly when the request passes the local
  // screen and the witness has spent exactly this signed review at this epoch.
  lemma ReconciledWhen(w: World, s: Sys, q: ReviewRequest)
    requires Paired(w) && W.Replay(w.wenv, s.journal).Ok?
    ensures Reconcile(w.env, w.wenv, s.log, s.journal, q, NoFault).0.Ok? <==>
            && Screen(w.env, s.log, q).Ok?
            && exists k :: 0 <= k < |s.journal| && s.journal[k].Whole? && SpentFor(w.env, s.journal[k].entry, q)
  {
    hide Screen, Run, W.Lookup, WithReceipt;
    if Screen(w.env, s.log, q).Ok? { ScreenedFields(w.env, s.log, q); }
    var j := s.journal;
    if Reconcile(w.env, w.wenv, s.log, j, q, NoFault).0.Ok? {
      FoundIssued(w, j, q);
      var k: nat :| k < |j| && j[k].Whole? && j[k].entry.receipt == FindReceipt(w.wenv, j, q).value;
      W.EntriesFacts(w.wenv, j, k, k);
      assert SpentFor(w.env, j[k].entry, q);
    }
    if k: nat :| k < |j| && j[k].Whole? && SpentFor(w.env, j[k].entry, q) {
      W.EntriesFacts(w.wenv, j, k, k);
      W.LookupExact(w.wenv, j, q.decision.authorizationId, k);
    }
  }

  // The parts of the local screen that do not depend on what was spent.
  predicate WellFormed(env: Env, q: ReviewRequest) {
    && q.rootKey == env.marker.rootKey && q.namespace == env.marker.namespace && q.caseId == env.marker.caseId
    && env.verifyReview(q) && q.registryEpoch != 0
    && ValidId(q.decision.reviewerKeyId) && ValidId(q.decision.authorizationId)
    && ValidId(q.decision.decisionId) && ValidId(q.decision.targetCommit)
    && env.validHash(q.decision.nonce) && env.validHash(q.decision.manifest)
  }

  // A gap can be closed by a well-formed request for it exactly when neither the
  // request's epoch nor its policy floor has fallen behind the local high-water mark.
  lemma GapClosable(w: World, s: Sys, q: ReviewRequest, k: nat)
    requires Paired(w) && Inv(w, s) && Replay(w.env, s.log).Ok? && W.Replay(w.wenv, s.journal).Ok?
    requires k < |s.journal| && s.journal[k].Whole? && SpentFor(w.env, s.journal[k].entry, q)
    requires !Recorded(s.log, q.decision.authorizationId)
    requires WellFormed(w.env, q) && |s.log| < U64_MAX
    ensures var high := Replay(w.env, s.log).value.epoch;
            Reconcile(w.env, w.wenv, s.log, s.journal, q, NoFault).0.Ok? <==>
            high <= q.minimumEpoch && high <= q.registryEpoch
  {
    hide Run, Reconcile, OpenAre, LockFits, Backed;
    ReconciledWhen(w, s, q);
    CompleteLog(w, s.log, Torn);
    CompleteJournal(w, s.journal, Torn);
    var d, log, j := q.decision, s.log, s.journal;
    SpentAre(w.env, log, d.authorizationId, d.nonce);
    if d.nonce in Replay(w.env, log).value.nonces {
      NonceGivesRecord(w, log, j, d.nonce, k);
    }
    hide Inv;
    ScreenPasses(w, log, q);
  }

  // A well-formed request for something not yet spent passes the local screen
  // exactly when it has not fallen behind the high-water mark.
  lemma ScreenPasses(w: World, log: Log, q: ReviewRequest)
    requires Paired(w) && Replay(w.env, log).Ok? && WellFormed(w.env, q) && |log| < U64_MAX
    requires q.decision.authorizationId !in Replay(w.env, log).value.ids
    requires q.decision.nonce !in Replay(w.env, log).value.nonces
    ensures Screen(w.env, log, q).Ok? <==>
            Replay(w.env, log).value.epoch <= q.minimumEpoch && Replay(w.env, log).value.epoch <= q.registryEpoch
  {
    hide Run;
    ReplayShape(w.env, log);
    TipValid(w.env, log);
  }

  lemma TipValid(env: Env, log: Log)
    requires Sound(env) && Replay(env, log).Ok?
    ensures Replay(env, log).value.tip.Some? ==> env.validHash(Replay(env, log).value.tip.value)
  {
    ReplayShape(env, log);
  }

  // A nonce spent locally was spent by the very authorization the witness has for it.
  lemma NonceGivesRecord(w: World, log: Log, j: W.Journal, nonce: Digest, k: nat)
    requires Replay(w.env, log).Ok? && W.Replay(w.wenv, j).Ok? && AllBacked(w.env, log, j)
    requires k < |j| && j[k].Whole? && j[k].entry.request.nonce == nonce && nonce in Replay(w.env, log).value.nonces
    ensures Recorded(log, j[k].entry.request.authorizationId)
  {
    SpentAre(w.env, log, "", nonce);
    var i: nat :| i < |log| && log[i].Whole? && log[i].entry.nonce == nonce;
    var l: nat :| BackedAt(w.env, log[i].entry, j, l);
    if l < k { W.EntriesFacts(w.wenv, j, l, k); } else if k < l { W.EntriesFacts(w.wenv, j, k, l); }
  }

  // Complete entries are never lost or changed.
  lemma {:induction false} LogsOnlyGrow(w: World, s: Sys, events: seq<Event>)
    requires Paired(w) && Inv(w, s)
    ensures Complete(s.log) <= Complete(Exec(w, s, events).log)
    ensures Complete(s.journal) <= Complete(Exec(w, s, events).journal)
    decreases |events|
  {
    if events != [] {
      var before := Exec(w, s, events[..|events| - 1]);
      LogsOnlyGrow(w, s, events[..|events| - 1]);
      RunsKeepInv(w, s, events[..|events| - 1]);
      StepGrows(w, before, events[|events| - 1]);
    }
  }

  lemma WriteGrows(w: World, s: Sys, pid: Pid, r: SpendRecord, fault: Fault)
    requires Inv(w, s) && s.lock == Some(Held(pid, Committed(r)))
    ensures Complete(s.log) <= Complete(Next(w, s, Write(pid, fault)).log)
    ensures Next(w, s, Write(pid, fault)).journal == s.journal
  {
    hide Consistent, Backed, Issued, Replay, Apply;
    CompleteLog(w, s.log, Torn);
    CompleteLog(w, s.log, Whole(r));
  }

  lemma SpendGrows(w: World, s: Sys, pid: Pid, q: ReviewRequest, tip: Option<Digest>, fault: Fault)
    requires Paired(w)
    ensures Complete(s.journal) <= Complete(NextSpend(w, s, pid, q, tip, fault).journal)
    ensures NextSpend(w, s, pid, q, tip, fault).log == s.log
  {
    if Screen(w.env, s.log, q).Ok? && W.CheckConsume(w.wenv, s.journal, Stamp(w.env, Screen(w.env, s.log, q).value, tip)).Ok? {
      var entry := W.CheckConsume(w.wenv, s.journal, Stamp(w.env, Screen(w.env, s.log, q).value, tip)).value;
      CompleteJournal(w, s.journal, Torn);
      CompleteJournal(w, s.journal, Whole(entry));
      SpendOutcome(w, s, pid, q, tip, fault);
    }
  }

  lemma StepGrows(w: World, s: Sys, e: Event)
    requires Paired(w) && Inv(w, s)
    ensures Complete(s.log) <= Complete(Next(w, s, e).log)
    ensures Complete(s.journal) <= Complete(Next(w, s, e).journal)
  {
    hide Inv, NextSpend, Complete;
    if e.Write? && Holds(s, e.pid) && s.lock.value.phase.Committed? {
      WriteGrows(w, s, e.pid, s.lock.value.phase.record, e.fault);
    } else if e.Commit? && Holds(s, e.pid) && s.lock.value.phase.Spending? {
      SpendGrows(w, s, e.pid, s.lock.value.phase.q, s.lock.value.phase.expectedTip, e.fault);
    }
  }

  // A later log cannot record an authorization witnessed at an epoch its earlier
  // part has already passed.
  lemma PassedStaysOpen(w: World, log: Log, later: Log, j: W.Journal, k: nat)
    requires Replay(w.env, log).Ok? && Replay(w.env, later).Ok? && log <= later
    requires W.Replay(w.wenv, j).Ok? && AllBacked(w.env, later, j) && k < |j| && j[k].Whole?
    requires j[k].entry.request.registryEpoch < Replay(w.env, log).value.epoch
    requires Recorded(later, j[k].entry.request.authorizationId)
    ensures Recorded(log, j[k].entry.request.authorizationId)
  {
    var id := j[k].entry.request.authorizationId;
    EpochIsLast(w.env, log);
    var i: nat :| i < |later| && later[i].Whole? && later[i].entry.authorizationId == id;
    var l: nat :| BackedAt(w.env, later[i].entry, j, l);
    if l < k { W.EntriesFacts(w.wenv, j, l, k); } else if k < l { W.EntriesFacts(w.wenv, j, k, l); }
    if i >= |log| {
      NothingSpentTwice(w.env, later, |log| - 1, i);
    }
  }

  // A gap whose epoch the local log has passed is never closed, whatever follows.
  lemma StrandedForGood(w: World, s: Sys, events: seq<Event>, k: nat)
    requires Paired(w) && Inv(w, s)
    requires k < |Complete(s.journal)| && Complete(s.journal)[k].Whole?
    requires var e := Complete(s.journal)[k].entry.request;
             !Recorded(Complete(s.log), e.authorizationId)
             && e.registryEpoch < Replay(w.env, Complete(s.log)).value.epoch
    ensures !Recorded(Complete(Exec(w, s, events).log), Complete(s.journal)[k].entry.request.authorizationId)
  {
    hide Exec, Complete, Replay, W.Replay, Recorded, AllBacked, OpenAre;
    var t := Exec(w, s, events);
    LogsOnlyGrow(w, s, events);
    RunsKeepInv(w, s, events);
    assert Complete(t.journal)[k] == Complete(s.journal)[k];
    if Recorded(Complete(t.log), Complete(s.journal)[k].entry.request.authorizationId) {
      PassedStaysOpen(w, Complete(s.log), Complete(t.log), Complete(t.journal), k);
    }
  }

  lemma EpochIsLast(env: Env, log: Log)
    requires Replay(env, log).Ok? && Replay(env, log).value.epoch > 0
    ensures log != [] && log[|log| - 1].Whole? && log[|log| - 1].entry.registryEpoch == Replay(env, log).value.epoch
  {
    assert log == log[..|log| - 1] + [log[|log| - 1]];
    ReplaySnoc(env, log[..|log| - 1], log[|log| - 1]);
  }

  // A first spend screens and is taken by a witness that has spent nothing.
  lemma FirstSpend(w: World, q: ReviewRequest)
    requires Paired(w) && WellFormed(w.env, q) && w.wenv.config.initialEpoch <= q.registryEpoch
    ensures Screen(w.env, [], q).Ok?
    ensures W.CheckConsume(w.wenv, [], Stamp(w.env, Screen(w.env, [], q).value, None)).Ok?
  {
    assert Replay(w.env, []) == Ok(BLANK) && W.Replay(w.wenv, []) == Ok(W.Blank(w.wenv));
  }

  // A spend whose process dies between the two writes.
  function CutOff(w: World, s: Sys, pid: Pid, q: ReviewRequest): Sys {
    Next(w, Next(w, Next(w, s, Begin(pid, q, None)), Commit(pid, NoFault)), Die(pid))
  }

  function Through(w: World, s: Sys, pid: Pid, q: ReviewRequest, tip: Option<Digest>): Sys {
    Next(w, Next(w, Next(w, s, Begin(pid, q, tip)), Commit(pid, NoFault)), Write(pid, NoFault))
  }

  lemma FirstCutOff(w: World, pid: Pid, q: ReviewRequest) returns (e: W.Entry)
    requires Paired(w) && WellFormed(w.env, q) && w.wenv.config.initialEpoch <= q.registryEpoch
    ensures CutOff(w, START, pid, q) == Sys([], [Whole(e)], map[], None, {q.decision.authorizationId})
    ensures W.Replay(w.wenv, [Whole(e)]).Ok? && SpentFor(w.env, e, q)
    ensures var t := W.Replay(w.wenv, [Whole(e)]).value;
            && t.tip == Some(e.receipt.tip) && t.epoch == q.registryEpoch && |t.entries| == 1
            && t.ids == {q.decision.authorizationId} && t.nonces == {q.decision.nonce}
            && w.env.validHash(e.receipt.tip)
  {
    FirstSpend(w, q);
    SpendOutcome(w, START, pid, q, None, NoFault);
    var stamp := Stamp(w.env, Screen(w.env, [], q).value, None);
    e := W.CheckConsume(w.wenv, [], stamp).value;
    assert [] + [Whole(e)] == [Whole(e)];
    W.ReplaySnoc(w.wenv, [], Whole(e));
  }

  // A well-formed review passes both stores when the local log is empty and the
  // witness has not spent it.
  lemma FreshAccepted(w: World, j: W.Journal, q: ReviewRequest)
    requires Paired(w) && WellFormed(w.env, q) && W.Replay(w.wenv, j).Ok?
    requires var t := W.Replay(w.wenv, j).value;
             && t.epoch <= q.registryEpoch && |t.entries| < U64_MAX
             && q.decision.authorizationId !in t.ids && q.decision.nonce !in t.nonces
             && (t.tip.Some? ==> w.env.validHash(t.tip.value))
    ensures Replay(w.env, []) == Ok(BLANK) && Screen(w.env, [], q).Ok?
    ensures W.CheckConsume(w.wenv, j, Stamp(w.env, Screen(w.env, [], q).value, W.Replay(w.wenv, j).value.tip)).Ok?
  {
  }

  // A spend that meets no fault writes its entry and its record.
  lemma ThroughWrites(w: World, s: Sys, pid: Pid, q: ReviewRequest, tip: Option<Digest>, r: SpendRecord, e: W.Entry)
    requires Paired(w) && s.lock.None? && Screen(w.env, s.log, q) == Ok(r)
    requires W.CheckConsume(w.wenv, s.journal, Stamp(w.env, r, tip)) == Ok(e)
    ensures Through(w, s, pid, q, tip) ==
            Sys(s.log + [Whole(WithReceipt(w.env, r, e.receipt))], s.journal + [Whole(e)], s.found, None,
                s.interrupted - {r.authorizationId})
  {
    SpendOutcome(w, s.(lock := Some(Held(pid, Spending(q, tip)))), pid, q, tip, NoFault);
    hide NextSpend, Screen, W.CheckConsume;
  }

  lemma SecondThrough(w: World, s: Sys, pid: Pid, q: ReviewRequest) returns (tip: Option<Digest>)
    requires Paired(w) && WellFormed(w.env, q) && s.log == [] && s.lock.None? && W.Replay(w.wenv, s.journal).Ok?
    requires var t := W.Replay(w.wenv, s.journal).value;
             && t.epoch <= q.registryEpoch && |t.entries| < U64_MAX
             && q.decision.authorizationId !in t.ids && q.decision.nonce !in t.nonces
             && (t.tip.Some? ==> w.env.validHash(t.tip.value))
    ensures var t := Through(w, s, pid, q, tip);
            && t.interrupted == s.interrupted - {q.decision.authorizationId}
            && Replay(w.env, t.log).Ok? && Replay(w.env, t.log).value.epoch == q.registryEpoch
  {
    hide Through, W.Apply, W.CheckConsume, Run;
    tip := W.Replay(w.wenv, s.journal).value.tip;
    FreshAccepted(w, s.journal, q);
    var r := Screen(w.env, [], q).value;
    var e := W.CheckConsume(w.wenv, s.journal, Stamp(w.env, r, tip)).value;
    ThroughWrites(w, s, pid, q, tip, r, e);
    ScreenedAppends(w.env, [], q, Some(e.receipt));
  }

  // Stranding does happen: of two reviews, the earlier is cut off between its two
  // writes and the later, at a newer registry epoch, goes through.
  lemma StrandingHappens(w: World, earlier: ReviewRequest, later: ReviewRequest, pid: Pid) returns (tip: Option<Digest>)
    requires Paired(w) && WellFormed(w.env, earlier) && WellFormed(w.env, later)
    requires w.wenv.config.initialEpoch <= earlier.registryEpoch < later.registryEpoch
    requires earlier.decision.authorizationId != later.decision.authorizationId
    requires earlier.decision.nonce != later.decision.nonce
    ensures var s := Through(w, CutOff(w, START, pid, earlier), pid, later, tip);
            && earlier.decision.authorizationId in s.interrupted
            && Reconcile(w.env, w.wenv, s.log, s.journal, earlier, NoFault).0.Err?
  {
    hide CutOff, Through;
    var e := FirstCutOff(w, pid, earlier);
    tip := SecondThrough(w, CutOff(w, START, pid, earlier), pid, later);
  }

  // The events of one undisturbed process are the store's own operations.
  lemma EventsAreSpend(w: World, s: Sys, pid: Pid, q: ReviewRequest, tip: Option<Digest>, swap: Fault, write: Fault)
    requires s.lock.None?
    ensures var t := Next(w, Next(w, Next(w, s, Begin(pid, q, tip)), Commit(pid, swap)), Write(pid, write));
            var (r, log, j) := SpendWitnessed(w.env, w.wenv, s.log, s.journal, q, tip, swap, write);
            t.log == log && t.journal == j && t.lock.None?
  {
    hide Screen, W.Consume, Bound, Answers;
  }

  lemma EventsAreReconcile(w: World, s: Sys, pid: Pid, q: ReviewRequest, fault: Fault)
    requires s.lock.None? && pid !in s.found
    ensures var t := Next(w, Next(w, Next(w, Next(w, s, Look(pid, q)), Resume(pid)), Commit(pid, NoFault)), Write(pid, fault));
            var (r, log) := Reconcile(w.env, w.wenv, s.log, s.journal, q, fault);
            t.log == log && t.journal == s.journal && t.lock.None?
  {
    hide FindReceipt, Screen, Bound, WithReceipt;
  }
}
