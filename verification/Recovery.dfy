// Intake and rollback of galia2/recovery_audit.py: HEAD moved back to an ancestor
// under an authorization bound to the exact HEAD bytes that were observed.
module Recovery {
  import opened Base
  import opened Chains
  import opened Generations
  import A = Ledger

  datatype Intake = Intake(
    recoveryId: string, observedExists: bool, observedHash: Option<Digest>, affected: Option<string>)

  datatype RecoveryAuthorization = RecoveryAuthorization(
    authorizationId: string, recoveryId: string, target: string,
    expectedExists: bool, expectedHash: Option<Digest>, policy: string)

  datatype Failure =
    | BindingRefused | HeadChanged | TargetInvalid(cause: Error) | TargetNotEarlier | NotAncestor
    | AuditRefused | HeadWriteFailed | OutcomeNotRecorded

  // The place both halves live in: the generation store and the audit file.
  datatype Site = Site(disk: Disk, book: A.Book)

  datatype World = World(env: Env, audit: A.Env)

  // ----- Observation

  function HeadDigest(env: Env, d: Disk): Option<Digest> {
    match d.head case None => None case Some(raw) => Some(env.hash(raw))
  }

  // The HEAD a rollback starts from, when there is one that can be read.
  function CurrentHead(env: Env, d: Disk): Option<HeadPointer> {
    match d.head case None => None case Some(raw) => ParseHead(env, raw)
  }

  function Observe(env: Env, d: Disk, recoveryId: string, affected: Option<string>): Intake {
    Intake(recoveryId, d.head.Some?, HeadDigest(env, d), affected)
  }

  // ----- The ancestry walk

  function Walk(env: Env, generations: map<string, Dir>, commit: string, target: string, seen: set<string>): Result<(), Failure>
    decreases generations.Keys - seen
  {
    if commit in seen then Err(NotAncestor)
    else
      match Verify(env, generations, commit, None)
      case Err(e) => Err(TargetInvalid(e))
      case Ok(m) =>
        if m.parent == target then
          match Verify(env, generations, target, None)
          case Err(e) => Err(TargetInvalid(e))
          case Ok(_) => Ok(())
        else if m.parent !in generations then Err(NotAncestor)
        else Walk(env, generations, m.parent, target, seen + {commit})
  }

  // ----- Rollback

  predicate Bound(env: Env, intake: Intake, auth: RecoveryAuthorization) {
    && auth.recoveryId == intake.recoveryId && auth.policy == env.policy
    && auth.expectedExists == intake.observedExists && auth.expectedHash == intake.observedHash
  }

  // Everything checked before anything is written, and the HEAD to write.
  function CheckRollback(env: Env, d: Disk, intake: Intake, auth: RecoveryAuthorization): Result<HeadPointer, Failure> {
    if !Bound(env, intake, auth) then Err(BindingRefused)
    else if d.head.Some? != auth.expectedExists || HeadDigest(env, d) != auth.expectedHash then Err(HeadChanged)
    else
      match Verify(env, d.generations, auth.target, None)
      case Err(e) => Err(TargetInvalid(e))
      case Ok(m) =>
        var to := HeadPointer(m.commitId, m.seqNo, ManifestHash(env, m), env.hash(d.generations[auth.target][PromotionFile]));
        match CurrentHead(env, d)
        case None => Ok(to)
        case Some(h) =>
          if m.seqNo >= h.seqNo then Err(TargetNotEarlier)
          else if m.commitId == h.commitId then Ok(to)
          else match Walk(env, d.generations, h.commitId, m.commitId, {}) case Err(f) => Err(f) case Ok(_) => Ok(to)
  }

  datatype HeadFault = HeadKept | HeadMoved | HeadClean

  datatype Faults = Faults(attempt: A.LineFault, head: HeadFault, cause: string, receiptKept: bool, outcome: A.LineFault)

  // The names and times drawn for the two audit events.
  datatype Stamps = Stamps(attemptId: string, attemptAt: int, outcomeId: string, outcomeAt: int)

  function Refs(auth: RecoveryAuthorization, intake: Intake): seq<string> {
    [auth.target] + if intake.affected.Some? && intake.affected.value != "" then [intake.affected.value] else []
  }

  function AttemptEvent(w: World, book: A.Book, auth: RecoveryAuthorization, intake: Intake, t: Stamps, f: A.LineFault)
    : (Result<A.AuditEvent, A.Error>, A.Book)
  {
    A.Append(w.audit, book, t.attemptId, t.attemptAt, A.RollbackAttempted, Refs(auth, intake),
             "authorization=" + auth.authorizationId, f)
  }

  // The attempt is recorded first; only then is HEAD replaced; the outcome follows.
  function Rollback(w: World, s: Site, intake: Intake, auth: RecoveryAuthorization, t: Stamps, receiptId: string, f: Faults)
    : (Result<HeadPointer, Failure>, Site)
  {
    match CheckRollback(w.env, s.disk, intake, auth)
    case Err(e) => (Err(e), s)
    case Ok(to) =>
      var (attempted, book) := AttemptEvent(w, s.book, auth, intake, t, f.attempt);
      if attempted.Err? then (Err(AuditRefused), Site(s.disk, book))
      else
        var disk := if f.head == HeadKept then s.disk else s.disk.(head := Some(w.env.encodeHead(to)));
        if f.head != HeadClean then
          var (_, failed) := A.Append(w.audit, book, t.outcomeId, t.outcomeAt, A.RollbackFailed, [auth.target],
                                      f.cause, f.outcome);
          (Err(HeadWriteFailed), Site(disk, failed))
        else if !f.receiptKept then (Err(OutcomeNotRecorded), Site(disk, book))
        else
          var (noted, done) := A.Append(w.audit, book, t.outcomeId, t.outcomeAt, A.RollbackSucceeded, [to.commitId, receiptId],
                                        "authorization=" + auth.authorizationId + ";creates_authority=false", f.outcome);
          (if noted.Ok? then Ok(to) else Err(OutcomeNotRecorded), Site(disk, done))
  }

  class RecoveryManager {
    const store: GenerationStore
    const audit: A.AuditLedger

    constructor (store: GenerationStore, audit: A.AuditLedger)
      ensures this.store == store && this.audit == audit
    {
      this.store, this.audit := store, audit;
    }

    function Surroundings(): World {
      World(store.env, audit.env)
    }

    function Contents(): Site
      reads store, audit
    {
      Site(store.Contents(), audit.Contents())
    }

    // Looks at HEAD and notes the intake; the store is never written.
    method OpenIntake(recoveryId: string, affected: Option<string>, eventId: string, now: int, details: string, fault: A.LineFault)
      returns (r: Result<Intake, Failure>)
      modifies audit
      ensures var seen := Intake(recoveryId, store.head.Some?,
                                 if store.head.Some? then Some(store.env.hash(store.head.value)) else None, affected);
              var named := match CurrentHead(store.env, store.Contents()) case None => [] case Some(h) => [h.commitId];
              var refs := (if affected.Some? && affected.value != "" then [affected.value] else []) + named;
              var (noted, book) := A.Append(audit.env, old(audit.Contents()), eventId, now, A.RecoveryIntake, refs, details, fault);
              && audit.Contents() == book
              && r == if noted.Ok? then Ok(seen) else Err(AuditRefused)
    {
      var head := store.head;
      var seen := if head.Some? then Intake(recoveryId, true, Some(store.env.hash(head.value)), affected)
                  else Intake(recoveryId, false, None, affected);
      var current := if head.Some? then ParseHead(store.env, head.value) else None;
      var refs := if affected.Some? && affected.value != "" then [affected.value] else [];
      refs := refs + if current.Some? then [current.value.commitId] else [];
      var noted := audit.AppendEvent(eventId, now, A.RecoveryIntake, refs, details, fault);
      r := if noted.Ok? then Ok(seen) else Err(AuditRefused);
    }

    method VerifyIsAncestor(current: HeadPointer, target: string) returns (r: Result<(), Failure>)
      ensures r == Walk(store.env, store.generations, current.commitId, target, {})
    {
      var seen: set<string> := {};
      var commit := current.commitId;
      while commit !in seen
        invariant Walk(store.env, store.generations, commit, target, seen) ==
                  Walk(store.env, store.generations, current.commitId, target, {})
        decreases store.generations.Keys - seen
      {
        ghost var before := seen;
        seen := seen + {commit};
        var manifest := store.VerifyGeneration(commit, None);
        if manifest.Err? { return Err(TargetInvalid(manifest.error)); }
        if manifest.value.parent == target {
          var end := store.VerifyGeneration(target, None);
          return if end.Err? then Err(TargetInvalid(end.error)) else Ok(());
        }
        commit := manifest.value.parent;
        if commit !in store.generations { return Err(NotAncestor); }
      }
      r := Err(NotAncestor);
    }

    method RollBack(intake: Intake, auth: RecoveryAuthorization, t: Stamps, receiptId: string, f: Faults)
      returns (r: Result<HeadPointer, Failure>)
      modifies store`head, audit
      ensures (r, Contents()) == Rollback(Surroundings(), old(Contents()), intake, auth, t, receiptId, f)
    {
      hide Walk, ParseHead, VerifyDir, A.Append, Refs;
      var env := store.env;
      if !Bound(env, intake, auth) { return Err(BindingRefused); }
      var digest := if store.head.Some? then Some(env.hash(store.head.value)) else None;
      if store.head.Some? != auth.expectedExists || digest != auth.expectedHash { return Err(HeadChanged); }
      var target := store.VerifyGeneration(auth.target, None);
      if target.Err? { return Err(TargetInvalid(target.error)); }
      VerifiedFiles(env, store.generations, auth.target, None);
      var m := target.value;
      var to := HeadPointer(m.commitId, m.seqNo, ManifestHash(env, m), env.hash(store.generations[auth.target][PromotionFile]));
      var current := if store.head.Some? then ParseHead(env, store.head.value) else None;
      if current.Some? {
        if m.seqNo >= current.value.seqNo { return Err(TargetNotEarlier); }
        if m.commitId != current.value.commitId {
          var walked := VerifyIsAncestor(current.value, m.commitId);
          if walked.Err? { return Err(walked.error); }
        }
      }
      assert CheckRollback(env, store.Contents(), intake, auth) == Ok(to);
      var attempted := audit.AppendEvent(t.attemptId, t.attemptAt, A.RollbackAttempted, Refs(auth, intake),
                                         "authorization=" + auth.authorizationId, f.attempt);
      if attempted.Err? { return Err(AuditRefused); }
      if f.head != HeadKept { store.head := Some(env.encodeHead(to)); }
      if f.head != HeadClean {
        var _ := audit.AppendEvent(t.outcomeId, t.outcomeAt, A.RollbackFailed, [auth.target], f.cause, f.outcome);
        return Err(HeadWriteFailed);
      }
      if !f.receiptKept { return Err(OutcomeNotRecorded); }
      var noted := audit.AppendEvent(t.outcomeId, t.outcomeAt, A.RollbackSucceeded, [to.commitId, receiptId],
                                     "authorization=" + auth.authorizationId + ";creates_authority=false", f.outcome);
      r := if noted.Ok? then Ok(to) else Err(OutcomeNotRecorded);
    }
  }
}
