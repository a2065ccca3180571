// Whole runs of the anchored protocol: any number of processes share the
// coordinator journal under its lock, each step moves the anchor before it writes
// the record, and a process may die or a write may fail at any point.
module AnchoredRuns {
  import opened Base
  import opened Chains
  import opened Fencing
  import opened FencingLaws
  import opened Coordinator
  import A = Anchor

  type Pid = nat

  // How far the process that holds the coordinator lock has come.
  datatype Phase = Working(q: Request) | Swapped(p: Prepared)

  datatype Held = Held(pid: Pid, phase: Phase)

  // The two journals on disk, the lock, and the records whose operation has
  // returned success to its caller, oldest first.
  datatype Sys = Sys(journal: Journal, anchor: A.CasJournal, lock: Option<Held>, acks: seq<FencingEntry>)

  const START := Sys([], [], None, [])

  datatype Event =
    | Take(pid: Pid, q: Request)
    | Swap(pid: Pid, fault: Fault)
    | Write(pid: Pid, fault: Fault)
    | Die(pid: Pid)

  datatype World = World(env: Env, aenv: A.Env)

  // The anchor is provisioned for this coordinator, and digests are collision free.
  ghost predicate Paired(w: World) {
    && Sound(w.env)
    && w.aenv.scope == w.env.scope && w.aenv.validHash == w.env.validHash
  }

  // One event; an event that is not enabled (the lock is held by another process,
  // or the process is not at that point) changes nothing. Only the anchored
  // operations exist here, so a nonce claim without a response is never requested.
  function Next(w: World, s: Sys, e: Event): Sys {
    match e
    case Take(pid, q) =>
      if s.lock.None? && !q.Claim? then s.(lock := Some(Held(pid, Working(q)))) else s
    case Swap(pid, fault) =>
      if s.lock.None? || s.lock.value.pid != pid || s.lock.value.phase.Swapped? then s
      else
        (match Prepare(w.env, s.journal, s.lock.value.phase.q)
         case Err(_) => s.(lock := None)
         case Ok(p) =>
           var (moved, a) := A.Advance(w.aenv, s.anchor, w.env.scope, p.before.Checkpoint(), p.after.Checkpoint(), fault);
           s.(anchor := a, lock := if moved.Ok? then Some(Held(pid, Swapped(p))) else None))
    case Write(pid, fault) =>
      if s.lock.None? || s.lock.value.pid != pid || s.lock.value.phase.Working? then s
      else
        var entry := s.lock.value.phase.p.entry;
        s.(journal := WriteNext(s.journal, entry, fault), lock := None,
           acks := if fault == NoFault then s.acks + [entry] else s.acks)
    case Die(pid) =>
      if s.lock.Some? && s.lock.value.pid == pid then s.(lock := None) else s
  }

  function Exec(w: World, s: Sys, events: seq<Event>): Sys
    decreases |events|
  {
    if events == [] then s else Next(w, Exec(w, s, events[..|events| - 1]), events[|events| - 1])
  }

  // ----- Where the two journals can stand

  ghost predicate Readable(w: World, s: Sys) {
    Replay(w.env, s.journal).Ok? && A.Replay(w.aenv, s.anchor).Ok?
  }

  ghost predicate InSync(w: World, s: Sys) {
    && Readable(w, s)
    && A.Replay(w.aenv, s.anchor).value.value == Replay(w.env, s.journal).value.Checkpoint()
  }

  // The anchor stands at the checkpoint of one record that would be the next one.
  ghost predicate OneAhead(w: World, s: Sys, p: Prepared) {
    && Readable(w, s)
    && Replay(w.env, s.journal) == Ok(p.before)
    && Apply(w.env, p.before, Whole(p.entry)) == Ok(p.after)
    && A.Replay(w.aenv, s.anchor).value.value == p.after.Checkpoint()
  }

  ghost predicate AckOrder(j: Journal, acks: seq<FencingEntry>) {
    && (forall i :: 0 <= i < |acks| ==> 0 < acks[i].sequence <= |j| && j[acks[i].sequence - 1] == Whole(acks[i]))
    && (forall i, k :: 0 <= i < k < |acks| ==> acks[i].sequence < acks[k].sequence)
  }

  ghost predicate Inv(w: World, s: Sys) {
    && Replay(w.env, Complete(s.journal)).Ok? && A.Replay(w.aenv, Complete(s.anchor)).Ok?
    && (Readable(w, s) ==> InSync(w, s) || exists p :: OneAhead(w, s, p))
    && (s.lock.Some? && s.lock.value.phase.Swapped? ==> OneAhead(w, s, s.lock.value.phase.p))
    && AckOrder(Complete(s.journal), s.acks)
  }

  // ----- The anchor accepts everything the coordinator can project

  // One applied record, as the two checkpoints show it.
  lemma ProjectionShape(env: Env, p: Prepared)
    requires Apply(env, p.before, Whole(p.entry)) == Ok(p.after)
    ensures p.after.count == p.before.count + 1 && p.entry.sequence == p.after.count
    ensures p.after.tip == Some(env.fileHash(Whole(p.entry)))
    ensures if IsAcquire(Whole(p.entry)) then
              p.after.active == Some(p.entry.action.grant) && p.entry.action.grant.epoch == p.before.epoch + 1
              && p.after.nonces == p.before.nonces
            else
              p.after.active == p.before.active == Some(p.entry.action.grant)
              && |p.after.nonces| == |p.before.nonces| + 1
  {
    if !IsAcquire(Whole(p.entry)) {
      assert p.after.nonces == p.before.nonces + {p.entry.action.nonce};
    }
  }

  lemma ProjectionAccepted(w: World, j: Journal, p: Prepared)
    requires Paired(w)
    requires Replay(w.env, j) == Ok(p.before) && Apply(w.env, p.before, Whole(p.entry)) == Ok(p.after)
    ensures A.ValidateTransition(w.aenv.validHash, p.before.Checkpoint(), p.after.Checkpoint()).Ok?
  {
    ReplayShape(w.env, j);
    ReplaySnoc(w.env, j, Whole(p.entry));
    CheckpointsValid(w.env, j);
    CheckpointsValid(w.env, j + [Whole(p.entry)]);
    ProjectionShape(w.env, p);
    if j != [] {
      assert w.env.fileHash(j[|j| - 1]) != w.env.fileHash(Whole(p.entry));
    }
  }

  // With the two in step, the swap of any prepared record passes its guards.
  lemma SwapAccepted(w: World, s: Sys, q: Request)
    requires Paired(w) && InSync(w, s) && Prepare(w.env, s.journal, q).Ok?
    ensures var p := Prepare(w.env, s.journal, q).value;
            A.CheckSwap(w.aenv, s.anchor, w.env.scope, p.before.Checkpoint(), p.after.Checkpoint()).Ok?
  {
    PreparedExtends(w.env, s.journal, q);
    var p := Prepare(w.env, s.journal, q).value;
    ProjectionAccepted(w, s.journal, p);
    A.AnchorClimbs(w.aenv, s.anchor);
  }

  // With the anchor ahead, every swap is refused: the height already differs.
  lemma AheadRefuses(w: World, s: Sys, p: Prepared, q: Request)
    requires OneAhead(w, s, p) && Prepare(w.env, s.journal, q).Ok?
    ensures var n := Prepare(w.env, s.journal, q).value;
            A.CheckSwap(w.aenv, s.anchor, w.env.scope, n.before.Checkpoint(), n.after.Checkpoint()).Err?
  {
    PreparedExtends(w.env, s.journal, q);
  }

  // ----- The invariant

  lemma CompleteJournal(w: World, j: Journal, f: File<FencingEntry>)
    ensures Replay(w.env, j).Ok? ==> Complete(j) == j
    ensures Complete(j + [f]) == if f.Torn? then j else j + [f]
    ensures Replay(w.env, j + [Torn]).Err?
  {
    ReplaySnoc(w.env, j, Torn);
    if j != [] {
      assert j == j[..|j| - 1] + [j[|j| - 1]];
      ReplaySnoc(w.env, j[..|j| - 1], j[|j| - 1]);
    }
    assert (j + [f])[..|j|] == j;
  }

  lemma CompleteAnchor(w: World, j: A.CasJournal, f: File<A.CasEntry>)
    ensures A.Replay(w.aenv, j).Ok? ==> Complete(j) == j
    ensures Complete(j + [f]) == if f.Torn? then j else j + [f]
    ensures A.Replay(w.aenv, j + [Torn]).Err?
  {
    A.ReplaySnoc(w.aenv, j, Torn);
    if j != [] {
      assert j == j[..|j| - 1] + [j[|j| - 1]];
      A.ReplaySnoc(w.aenv, j[..|j| - 1], j[|j| - 1]);
    }
    assert (j + [f])[..|j|] == j;
  }

  // The swap when the two journals are in step: whatever happens to the write.
  lemma SwapInSync(w: World, s: Sys, pid: Pid, q: Request, fault: Fault)
    requires Paired(w) && Inv(w, s) && InSync(w, s)
    requires s.lock == Some(Held(pid, Working(q))) && Prepare(w.env, s.journal, q).Ok?
    ensures Inv(w, Next(w, s, Swap(pid, fault)))
  {
    var p := Prepare(w.env, s.journal, q).value;
    var t := Next(w, s, Swap(pid, fault));
    PreparedExtends(w.env, s.journal, q);
    ReplaySnoc(w.env, s.journal, Whole(p.entry));
    SwapAccepted(w, s, q);
    var entry := A.CheckSwap(w.aenv, s.anchor, w.env.scope, p.before.Checkpoint(), p.after.Checkpoint()).value;
    A.SwapMoves(w.aenv, s.anchor, w.env.scope, p.before.Checkpoint(), p.after.Checkpoint());
    CompleteAnchor(w, s.anchor, Torn);
    CompleteAnchor(w, s.anchor, Whole(entry));
    if t.anchor == s.anchor + [Whole(entry)] {
      assert OneAhead(w, t, p);
    }
  }

  lemma SwapKeepsInv(w: World, s: Sys, pid: Pid, fault: Fault)
    requires Paired(w) && Inv(w, s)
    ensures Inv(w, Next(w, s, Swap(pid, fault)))
  {
    var t := Next(w, s, Swap(pid, fault));
    if s.lock.Some? && s.lock.value.pid == pid && s.lock.value.phase.Working? {
      var q := s.lock.value.phase.q;
      if Prepare(w.env, s.journal, q).Ok? && InSync(w, s) {
        SwapInSync(w, s, pid, q, fault);
      } else if Prepare(w.env, s.journal, q).Ok? && Readable(w, s) {
        var held :| OneAhead(w, s, held);
        AheadRefuses(w, s, held, q);
        assert OneAhead(w, t, held);
      } else if Readable(w, s) && !InSync(w, s) {
        var held :| OneAhead(w, s, held);
        assert OneAhead(w, t, held);
      }
    }
  }

  lemma AckAppends(j: Journal, acks: seq<FencingEntry>, entry: FencingEntry)
    requires AckOrder(j, acks) && entry.sequence == |j| + 1
    ensures AckOrder(j + [Whole(entry)], acks) && AckOrder(j + [Whole(entry)], acks + [entry])
  {
    var j', acks' := j + [Whole(entry)], acks + [entry];
    forall i | 0 <= i < |acks'| ensures 0 < acks'[i].sequence <= |j'| && j'[acks'[i].sequence - 1] == Whole(acks'[i]) {
      if i < |acks| {
        assert acks'[i] == acks[i] && acks[i].sequence <= |j|;
      }
    }
    forall i | 0 <= i < |acks| ensures 0 < acks[i].sequence <= |j'| && j'[acks[i].sequence - 1] == Whole(acks[i]) {
      assert acks[i].sequence <= |j|;
    }
  }

  // The write of a prepared record that the anchor already stands at.
  lemma WriteAhead(w: World, s: Sys, pid: Pid, p: Prepared, fault: Fault)
    requires Inv(w, s) && s.lock == Some(Held(pid, Swapped(p)))
    ensures Inv(w, Next(w, s, Write(pid, fault)))
  {
    var t := Next(w, s, Write(pid, fault));
    var j' := s.journal + [Whole(p.entry)];
    ReplaySnoc(w.env, s.journal, Whole(p.entry));
    CompleteJournal(w, s.journal, Torn);
    CompleteJournal(w, s.journal, Whole(p.entry));
    match fault
    case NotWritten => assert OneAhead(w, t, p);
    case TornWrite => assert Complete(t.journal) == s.journal;
    case _ =>
      ReplayShape(w.env, s.journal);
      AckAppends(s.journal, s.acks, p.entry);
      assert InSync(w, t);
  }

  lemma WriteKeepsInv(w: World, s: Sys, pid: Pid, fault: Fault)
    requires Inv(w, s)
    ensures Inv(w, Next(w, s, Write(pid, fault)))
  {
    if s.lock.Some? && s.lock.value.pid == pid && s.lock.value.phase.Swapped? {
      WriteAhead(w, s, pid, s.lock.value.phase.p, fault);
    }
  }

  lemma NextKeepsInv(w: World, s: Sys, e: Event)
    requires Paired(w) && Inv(w, s)
    ensures Inv(w, Next(w, s, e))
  {
    match e
    case Swap(pid, fault) => SwapKeepsInv(w, s, pid, fault);
    case Write(pid, fault) => WriteKeepsInv(w, s, pid, fault);
    case _ =>
      var t := Next(w, s, e);
      if Readable(w, s) && !InSync(w, s) {
        var held :| OneAhead(w, s, held);
        assert OneAhead(w, t, held);
      }
  }

  lemma {:induction false} RunsKeepInv(w: World, events: seq<Event>)
    requires Paired(w)
    ensures Inv(w, Exec(w, START, events))
    decreases |events|
  {
    if events == [] {
      assert InSync(w, START);
    } else {
      RunsKeepInv(w, events[..|events| - 1]);
      NextKeepsInv(w, Exec(w, START, events[..|events| - 1]), events[|events| - 1]);
    }
  }

  // ----- Main results

  // The anchor's digest singles out the record it is ahead by.
  lemma OneAheadUnique(w: World, s: Sys, p: Prepared, q: Prepared)
    requires Paired(w) && OneAhead(w, s, p) && OneAhead(w, s, q)
    ensures p == q
  {
  }

  // In every run, while both journals can be read, the anchor stands either at the
  // coordinator's checkpoint or at that of exactly one record not yet in the journal.
  lemma AnchorNeverStrays(w: World, events: seq<Event>)
    requires Paired(w)
    ensures var s := Exec(w, START, events);
            Readable(w, s) ==> InSync(w, s) != exists p :: OneAhead(w, s, p)
    ensures forall p, q :: OneAhead(w, Exec(w, START, events), p) && OneAhead(w, Exec(w, START, events), q) ==> p == q
  {
    RunsKeepInv(w, events);
    var s := Exec(w, START, events);
    if Readable(w, s) {
      forall p | OneAhead(w, s, p) ensures !InSync(w, s) {
        assert p.after.Checkpoint().recordCount == p.before.Checkpoint().recordCount + 1;
      }
    }
    hide Paired, OneAhead, Exec;
    forall p, q | OneAhead(w, s, p) && OneAhead(w, s, q) ensures p == q {
      OneAheadUnique(w, s, p, q);
    }
  }

  // Out of step with nobody about to write: a record lost after the swap, or a torn file.
  ghost predicate Stuck(w: World, s: Sys) {
    && (s.lock.Some? ==> s.lock.value.phase.Working?)
    && (Replay(w.env, s.journal).Err? || A.Replay(w.aenv, s.anchor).Err? || exists p :: OneAhead(w, s, p))
  }

  lemma StuckStep(w: World, s: Sys, e: Event)
    requires Stuck(w, s)
    ensures var t := Next(w, s, e);
            Stuck(w, t) && t.journal == s.journal && t.anchor == s.anchor && t.acks == s.acks
  {
    var t := Next(w, s, e);
    if Readable(w, s) {
      var held :| OneAhead(w, s, held);
      if e.Swap? && s.lock.Some? && Prepare(w.env, s.journal, s.lock.value.phase.q).Ok? {
        AheadRefuses(w, s, held, s.lock.value.phase.q);
      }
      assert OneAhead(w, t, held);
    }
  }

  // Fail closed: once out of step, no anchored operation of any process ever
  // succeeds again and neither journal changes.
  lemma {:induction false} StuckForever(w: World, s: Sys, events: seq<Event>)
    requires Stuck(w, s)
    ensures var t := Exec(w, s, events);
            Stuck(w, t) && t.journal == s.journal && t.anchor == s.anchor && t.acks == s.acks
    decreases |events|
  {
    if events != [] {
      StuckForever(w, s, events[..|events| - 1]);
      StuckStep(w, Exec(w, s, events[..|events| - 1]), events[|events| - 1]);
    }
  }

  lemma AcksDistinct(env: Env, j: Journal, acks: seq<FencingEntry>, i: nat, k: nat)
    requires Replay(env, j).Ok? && AckOrder(j, acks) && i < k < |acks|
    ensures IsSpend(Whole(acks[i])) && IsSpend(Whole(acks[k])) ==> acks[i].action.nonce != acks[k].action.nonce
  {
    NoncesNeverRepeat(env, j);
    var m, n := acks[i].sequence - 1, acks[k].sequence - 1;
    assert j[m] == Whole(acks[i]) && j[n] == Whole(acks[k]) && m < n;
    assert NoncesDiffer(j, m, n);
  }

  // No nonce is ever committed twice: the acknowledged records of a run are
  // distinct journal records and spend distinct nonces.
  lemma NoNonceCommittedTwice(w: World, events: seq<Event>, i: nat, k: nat)
    requires Paired(w)
    requires i < k < |Exec(w, START, events).acks|
    ensures var acks := Exec(w, START, events).acks;
            IsSpend(Whole(acks[i])) && IsSpend(Whole(acks[k])) ==> acks[i].action.nonce != acks[k].action.nonce
  {
    RunsKeepInv(w, events);
    var s := Exec(w, START, events);
    AcksDistinct(w.env, Complete(s.journal), s.acks, i, k);
  }

  // Undisturbed, an admissible request goes through: the anchor never refuses a
  // process that holds the lock over journals in step.
  lemma UndisturbedSucceeds(w: World, s: Sys, pid: Pid, q: Request)
    requires Paired(w) && InSync(w, s) && s.lock.None? && !q.Claim?
    requires Prepare(w.env, s.journal, q).Ok?
    ensures var t := Next(w, Next(w, Next(w, s, Take(pid, q)), Swap(pid, NoFault)), Write(pid, NoFault));
            InSync(w, t) && t.lock.None? && t.acks == s.acks + [Prepare(w.env, s.journal, q).value.entry]
  {
    var p := Prepare(w.env, s.journal, q).value;
    PreparedExtends(w.env, s.journal, q);
    SwapAccepted(w, s, q);
    A.SwapMoves(w.aenv, s.anchor, w.env.scope, p.before.Checkpoint(), p.after.Checkpoint());
  }

  // The three events of one process are the anchored operation of the coordinator object.
  lemma EventsAreOperation(w: World, s: Sys, pid: Pid, q: Request, swap: Fault, write: Fault)
    requires s.lock.None? && !q.Claim?
    ensures var t := Next(w, Next(w, Next(w, s, Take(pid, q)), Swap(pid, swap)), Write(pid, write));
            var (r, j, a) := RecordAnchored(w.env, w.aenv, s.journal, s.anchor, q, swap, write);
            && t.journal == j && t.anchor == a && t.lock.None?
            && t.acks == if r.Ok? then s.acks + [Prepare(w.env, s.journal, q).value.entry] else s.acks
  {
    hide Screened, Project, A.Advance, WriteNext;
    var s1 := Next(w, s, Take(pid, q));
    assert s1 == s.(lock := Some(Held(pid, Working(q))));
    var s2 := Next(w, s1, Swap(pid, swap));
    if Prepare(w.env, s.journal, q).Ok? {
      var p := Prepare(w.env, s.journal, q).value;
      var (moved, a) := A.Advance(w.aenv, s.anchor, w.env.scope, p.before.Checkpoint(), p.after.Checkpoint(), swap);
      assert s2 == s.(anchor := a, lock := if moved.Ok? then Some(Held(pid, Swapped(p))) else None);
    } else {
      assert s2 == s.(lock := None);
    }
  }
}
