// What the coordinator writes down: exactly what was asked for, by whom it was
// asked for, so that whoever is told of success holds what it was told.
module Grants {
  import opened Base
  import opened Chains
  import opened Fencing
  import opened FencingLaws
  import opened Coordinator
  import A = Anchor
  import R = AnchoredRuns

  // The action is the one asked for, with every field the caller's own.
  predicate AskedFor(env: Env, q: Request, a: FencingAction) {
    match q
    case Acquire(expected, hostId) => a.AcquireEpoch? && a.grant.hostId == hostId && a.grant.epoch == expected + 1
    case Claim(grant, nonce) => a.ConsumeNonce? && a.grant == grant && a.nonce == nonce
    case Commit(grant, nonce, response) =>
      a.CommitResponse? && a.grant == grant && a.nonce == nonce && a.response == response
      && a.responseHash == env.textHash(response)
  }

  // The journal is the old one and a record of what was asked for, in its place.
  ghost predicate Records(env: Env, j: Journal, j': Journal, q: Request) {
    && |j'| == |j| + 1 && j'[..|j|] == j && j'[|j|].Whole?
    && var e := j'[|j|].entry;
       && e.format == FORMAT && e.sequence == |j| + 1 && e.previous == Tip(env.fileHash, None, j)
       && AskedFor(env, q, e.action)
  }

  // What a caller that was told of success can rely on.
  ghost predicate Granted(env: Env, j: Journal, q: Request) {
    match q
    case Acquire(expected, hostId) => LatestGrant(j, |j|, EpochGrant(hostId, expected + 1))
    case Claim(grant, nonce) => LatestGrant(j, |j|, grant) && Spent(j, nonce)
    case Commit(grant, nonce, response) =>
      && LatestGrant(j, |j|, grant) && Spent(j, nonce) && Committed(j, nonce, grant.hostId, response)
      && ResponseForHost(env, j, nonce, grant.hostId) == Ok(Some(response))
  }

  lemma PreparedAsks(env: Env, j: Journal, q: Request)
    requires Prepare(env, j, q).Ok?
    ensures var e := Prepare(env, j, q).value.entry;
            && e.format == FORMAT && e.sequence == |j| + 1 && e.previous == Tip(env.fileHash, None, j)
            && AskedFor(env, q, e.action)
  {
    hide Replay, Apply, ValidId;
    PreparedExtends(env, j, q);
    ReplayIffLawful(env, j);
  }

  // A record in the journal's next place, as a prepared request has it, grants it.
  lemma RecordGrants(env: Env, j: Journal, q: Request, j': Journal)
    requires Replay(env, j').Ok? && Records(env, j, j', q)
    ensures Granted(env, j', q)
  {
    hide Replay, ValidId, ResponseForHost, LatestGrant, LawfulJournal;
    var f := j'[|j|];
    assert j' == j + [f];
    LastHolder(env, j, f);
    SpentSnoc(j, f, if q.Acquire? then 0 else q.nonce);
    if q.Commit? {
      CommittedSnoc(j, f, q.nonce, q.grant.hostId, q.response);
      LastCommit(env, j', q.nonce);
      ReplayIffLawful(env, j');
      RecoveryIsOwnCommits(env, j', q.nonce, q.grant.hostId, q.response);
    }
  }

  // The last record is held by the latest grant.
  lemma LastHolder(env: Env, j: Journal, f: File<FencingEntry>)
    requires Replay(env, j + [f]).Ok?
    ensures f.Whole? && LatestGrant(j + [f], |j| + 1, f.entry.action.grant)
  {
    ReplayIffLawful(env, j + [f]);
    assert Lawful(env, j + [f], |j|);
    hide Replay, LawfulJournal, WellFormedAction;
    if !IsAcquire(f) {
      var p := j + [f];
      var k: nat :| LatestGrantAt(p, |j|, k, f.entry.action.grant);
      assert LatestGrantAt(p, |p|, k, f.entry.action.grant);
    } else {
      LatestGrantSnoc(j, f, f.entry.action.grant);
    }
  }

  lemma LastCommit(env: Env, j: Journal, nonce: Digest)
    requires Replay(env, j).Ok? && j != [] && j[|j| - 1].Whole? && j[|j| - 1].entry.action.CommitResponse?
    requires j[|j| - 1].entry.action.nonce == nonce
    ensures env.validHash(nonce) && ValidId(j[|j| - 1].entry.action.grant.hostId)
  {
    hide ValidId, Replay;
    ReplayIffLawful(env, j);
    assert Lawful(env, j, |j| - 1);
    var g := j[|j| - 1].entry.action.grant;
    var k: nat :| LatestGrantAt(j, |j| - 1, k, g);
    assert Lawful(env, j, k);
  }

  // Whatever happens to the write, a complete record that appears is the one asked
  // for; and a caller that is told of success holds what it asked for.
  lemma RecordsWhatWasAsked(env: Env, j: Journal, q: Request, fault: Fault)
    ensures var (r, j') := Record(env, j, q, fault);
            && (j' == j || j' == j + [Torn] || Records(env, j, j', q))
            && (r.Ok? ==> Records(env, j, j', q) && Granted(env, j', q))
  {
    hide Screened, Project, Granted, Replay, AskedFor, Apply;
    if Prepare(env, j, q).Ok? {
      PreparedAsks(env, j, q);
      PreparedExtends(env, j, q);
      if Record(env, j, q, fault).0.Ok? {
        RecordGrants(env, j, q, Record(env, j, q, fault).1);
      }
    }
  }

  // The same through the anchor, which then stands at the new checkpoint.
  lemma AnchoredRecordsWhatWasAsked(env: Env, aenv: A.Env, j: Journal, c: A.CasJournal, q: Request, swap: Fault, write: Fault)
    ensures var (r, j', c') := RecordAnchored(env, aenv, j, c, q, swap, write);
            && (j' == j || j' == j + [Torn] || Records(env, j, j', q))
            && (r.Ok? ==>
                  && Records(env, j, j', q) && Granted(env, j', q)
                  && A.Replay(aenv, c').Ok? && Replay(env, j').Ok?
                  && A.Replay(aenv, c').value.value == Replay(env, j').value.Checkpoint())
  {
    hide Screened, Project, Granted, Replay, A.Replay, A.Advance, AskedFor, Apply;
    if Prepare(env, j, q).Ok? {
      PreparedAsks(env, j, q);
      PreparedExtends(env, j, q);
      var p := Prepare(env, j, q).value;
      if RecordAnchored(env, aenv, j, c, q, swap, write).0.Ok? {
        Advanced(aenv, c, env.scope, p.before.Checkpoint(), p.after.Checkpoint(), swap);
        RecordGrants(env, j, q, j + [Whole(p.entry)]);
      }
    }
  }

  lemma Advanced(aenv: A.Env, c: A.CasJournal, scope: FencingScope, from: FencingCheckpoint, to: FencingCheckpoint, swap: Fault)
    requires A.Advance(aenv, c, scope, from, to, swap).0.Ok?
    ensures var c' := A.Advance(aenv, c, scope, from, to, swap).1;
            A.Replay(aenv, c').Ok? && A.Replay(aenv, c').value.value == to
  {
    A.SwapMoves(aenv, c, scope, from, to);
  }

  // ----- Over runs

  predicate Took(events: seq<R.Event>, q: Request) {
    exists i :: 0 <= i < |events| && events[i].Take? && events[i].q == q
  }

  // Some process asked for this record.
  ghost predicate Asked(env: Env, events: seq<R.Event>, e: FencingEntry) {
    exists q :: Took(events, q) && AskedFor(env, q, e.action)
  }

  ghost predicate AllAsked(w: R.World, s: R.Sys, events: seq<R.Event>) {
    && (forall i :: 0 <= i < |s.journal| && s.journal[i].Whole? ==> Asked(w.env, events, s.journal[i].entry))
    && (forall i :: 0 <= i < |s.acks| ==> Asked(w.env, events, s.acks[i]))
    && (s.lock.Some? && s.lock.value.phase.Working? ==> Took(events, s.lock.value.phase.q))
    && (s.lock.Some? && s.lock.value.phase.Swapped? ==> Asked(w.env, events, s.lock.value.phase.p.entry))
  }

  lemma TookMore(events: seq<R.Event>, e: R.Event, q: Request)
    requires Took(events, q) || (e.Take? && e.q == q)
    ensures Took(events + [e], q)
  {
    if Took(events, q) {
      var i :| 0 <= i < |events| && events[i].Take? && events[i].q == q;
      assert (events + [e])[i] == events[i];
    } else {
      assert (events + [e])[|events|] == e;
    }
  }

  lemma AskedMore(env: Env, events: seq<R.Event>, e: R.Event, entry: FencingEntry)
    requires Asked(env, events, entry)
    ensures Asked(env, events + [e], entry)
  {
    hide Took, AskedFor;
    var q :| Took(events, q) && AskedFor(env, q, entry.action);
    TookMore(events, e, q);
  }

  lemma StepKeepsAsked(w: R.World, s: R.Sys, events: seq<R.Event>, e: R.Event)
    requires AllAsked(w, s, events)
    ensures AllAsked(w, R.Next(w, s, e), events + [e])
  {
    hide Prepare, A.Advance, Took, AskedFor, Asked;
    var t := R.Next(w, s, e);
    forall x | Asked(w.env, events, x) ensures Asked(w.env, events + [e], x) {
      AskedMore(w.env, events, e, x);
    }
    forall q | Took(events, q) || (e.Take? && e.q == q) ensures Took(events + [e], q) {
      TookMore(events, e, q);
    }
    if e.Swap? && s.lock.Some? && s.lock.value.phase.Working? && Prepare(w.env, s.journal, s.lock.value.phase.q).Ok? {
      PreparedAsked(w.env, s.journal, s.lock.value.phase.q, events + [e]);
    }
  }

  lemma PreparedAsked(env: Env, j: Journal, q: Request, events: seq<R.Event>)
    requires Prepare(env, j, q).Ok? && Took(events, q)
    ensures Asked(env, events, Prepare(env, j, q).value.entry)
  {
    hide Prepare, AskedFor, Took;
    PreparedAsks(env, j, q);
  }

  // In every run, whatever fails: every complete record of the journal, and every
  // acknowledged one, is what some process asked for, field for field.
  lemma {:induction false} OnlyWhatWasAsked(w: R.World, events: seq<R.Event>)
    ensures AllAsked(w, R.Exec(w, R.START, events), events)
    decreases |events|
  {
    hide AllAsked, R.Next;
    if events == [] {
      assert AllAsked(w, R.START, []) by { NothingAsked(w); }
    } else {
      var n := |events| - 1;
      OnlyWhatWasAsked(w, events[..n]);
      StepKeepsAsked(w, R.Exec(w, R.START, events[..n]), events[..n], events[n]);
      assert events[..n] + [events[n]] == events;
    }
  }

  lemma NothingAsked(w: R.World)
    ensures AllAsked(w, R.START, [])
  {
  }
}
