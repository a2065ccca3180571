// What a rollback promises, in terms of the authorization, the store and the audit
// file alone: when it goes through, where HEAD then points, and what it leaves on
// record.
module RollbackTerms {
  import opened Base
  import opened Chains
  import opened Generations
  import opened Recovery
  import opened GenerationTree
  import opened PublicationTerms
  import R = GenerationRuns
  import A = Ledger

  // The authorization is for this recovery, under this store's policy, and for HEAD
  // exactly as it was observed and still is.
  predicate AuthorizedHere(env: Env, d: Disk, intake: Intake, auth: RecoveryAuthorization) {
    && auth.recoveryId == intake.recoveryId && auth.policy == env.policy
    && auth.expectedExists == intake.observedExists && auth.expectedExists == d.head.Some?
    && auth.expectedHash == intake.observedHash
    && auth.expectedHash == if d.head.Some? then Some(env.hash(d.head.value)) else None
  }

  // The target is a generation the store holds, above HEAD's in the tree if HEAD can
  // be read.
  ghost predicate TargetTerms(env: Env, d: Disk, target: string) {
    && (exists m :: Held(env, d.generations, target, None, m))
    && (d.head.Some? && ParseHead(env, d.head.value).Some? ==> ProperAncestor(env, d.generations, target, HeadCommit(env, d)))
  }

  // In the tree, a rollback passes its checks exactly then.
  lemma CheckedIff(env: Env, o: Origin, d: Disk, intake: Intake, auth: RecoveryAuthorization)
    requires Tree(env, o, d.generations) && (CurrentHead(env, d).Some? ==> HeadSound(env, d))
    ensures CheckRollback(env, d, intake, auth).Ok? <==> AuthorizedHere(env, d, intake, auth) && TargetTerms(env, d, auth.target)
  {
    hide Rooted, Verify, Walk, ProperAncestor, Held, ParseHead;
    if AuthorizedHere(env, d, intake, auth) {
      if CurrentHead(env, d).Some? {
        hide HeadSound;
        RollbackExact(env, o, d, intake, auth);
        HeldGenerations(env, o, d.generations, auth.target);
      } else {
        R.WithoutHeadAnyTarget(env, d, intake, auth);
        HeldIff(env, d.generations, auth.target);
      }
    } else if CheckRollback(env, d, intake, auth).Ok? {
      R.RollbackBound(env, d, intake, auth);
    }
  }

  lemma HeldIff(env: Env, g: Store, id: string)
    ensures Verify(env, g, id, None).Ok? <==> exists m :: Held(env, g, id, None, m)
  {
    hide Verify, Held;
    if Verify(env, g, id, None).Ok? {
      VerifiedIff(env, g, id, None, Verify(env, g, id, None).value);
    }
    if m :| Held(env, g, id, None, m) {
      VerifiedIff(env, g, id, None, m);
    }
  }

  // In the tree every generation is held.
  lemma HeldGenerations(env: Env, o: Origin, g: Store, id: string)
    requires Tree(env, o, g)
    ensures id in g <==> exists m :: Held(env, g, id, None, m)
  {
    hide VerifyDir, Held, Rooted;
    HeldIff(env, g, id);
    RootedAt(env, o, g, id);
  }

  // Where HEAD is moved to: the target, by its number and its two digests.
  predicate PointsAt(env: Env, g: Store, to: HeadPointer, target: string, m: Manifest) {
    && target in g && PromotionFile in g[target]
    && to.commitId == target && to.seqNo == m.seqNo
    && to.manifestHash == env.hash(env.encodeManifest(m)) && to.promotionHash == env.hash(g[target][PromotionFile])
  }

  lemma CheckedPoints(env: Env, d: Disk, intake: Intake, auth: RecoveryAuthorization)
    requires CheckRollback(env, d, intake, auth).Ok?
    ensures exists m :: Held(env, d.generations, auth.target, None, m)
                        && PointsAt(env, d.generations, CheckRollback(env, d, intake, auth).value, auth.target, m)
  {
    hide Verify, Walk, Held, CheckRollback;
    R.RollbackTarget(env, d, intake, auth);
    var m := ManifestAt(env, d.generations, auth.target);
    VerifiedIff(env, d.generations, auth.target, None, m);
    assert PointsAt(env, d.generations, CheckRollback(env, d, intake, auth).value, auth.target, m);
  }

  lemma NotBlank(prefix: string, rest: string)
    requires prefix != "" && !IsSpace(prefix[0])
    ensures Required(prefix + rest)
  {
    assert (prefix + rest)[0] == prefix[0];
  }

  // The audit file can be read and ends with its newline, or is empty.
  ghost predicate Readable(w: World, book: A.Book) {
    (forall i :: 0 <= i < |book.lines| ==> A.LawfulLine(w.audit, book.lines, i)) && (book.ended || book.lines == [])
  }

  predicate Undisturbed(f: Faults) {
    f.attempt == A.Clean && f.head == HeadClean && f.receiptKept && f.outcome == A.Clean
  }

  predicate Named(w: World, t: Stamps) {
    Required(t.attemptId) && Required(t.outcomeId) && Required(w.audit.actor) && Required(w.audit.policy)
  }

  function AttemptRefs(intake: Intake, auth: RecoveryAuthorization): seq<string> {
    if intake.affected.Some? && intake.affected.value != "" then [auth.target, intake.affected.value] else [auth.target]
  }

  // The two events a successful rollback leaves, one after the other.
  predicate Recorded(w: World, before: A.Book, after: A.Book, intake: Intake, auth: RecoveryAuthorization, t: Stamps, receiptId: string) {
    var n := |before.lines|;
    && |after.lines| == n + 2 && after.lines[..n] == before.lines && after.lines[n].Whole? && after.lines[n + 1].Whole?
    && after.ended
    && A.EventIs(w.audit, after.lines[n].entry, before.lines, t.attemptId, t.attemptAt, A.RollbackAttempted,
                 AttemptRefs(intake, auth), "authorization=" + auth.authorizationId)
    && A.EventIs(w.audit, after.lines[n + 1].entry, after.lines[..n + 1], t.outcomeId, t.outcomeAt, A.RollbackSucceeded,
                 [auth.target, receiptId], "authorization=" + auth.authorizationId + ";creates_authority=false")
  }

  // An attempt on a readable file that meets no fault leaves a readable file.
  lemma AttemptIff(w: World, book: A.Book, auth: RecoveryAuthorization, intake: Intake, t: Stamps, f: A.LineFault)
    requires A.Sound(w.audit)
    ensures var (r, after) := AttemptEvent(w, book, auth, intake, t, f); var lines := book.lines;
            && (r.Ok? <==>
                && f == A.Clean && (forall i :: 0 <= i < |lines| ==> A.LawfulLine(w.audit, lines, i))
                && Required(t.attemptId) && Required(w.audit.actor) && Required(w.audit.policy))
            && (r.Ok? && (book.ended || lines == []) ==>
                  && after == A.Book(lines + [Whole(r.value)], true) && Readable(w, after)
                  && A.EventIs(w.audit, r.value, lines, t.attemptId, t.attemptAt, A.RollbackAttempted,
                               AttemptRefs(intake, auth), "authorization=" + auth.authorizationId))
            && (r.Ok? ==> after.ended && after.lines != [])
            && (r.Ok? && !(book.ended || lines == []) ==> !Readable(w, after))
  {
    hide A.Append, A.EventIs, A.LawfulLine, Required;
    NotBlank("authorization=", auth.authorizationId);
    var details := "authorization=" + auth.authorizationId;
    assert Refs(auth, intake) == AttemptRefs(intake, auth);
    A.AppendExact(w.audit, book, t.attemptId, t.attemptAt, A.RollbackAttempted, Refs(auth, intake), details, f);
    if AttemptEvent(w, book, auth, intake, t, f).0.Ok? {
      A.AppendedIff(w.audit, book, t.attemptId, t.attemptAt, A.RollbackAttempted, Refs(auth, intake), details);
      A.ReadIffLawful(w.audit, AttemptEvent(w, book, auth, intake, t, f).1.lines);
      AttemptStays(w, book, auth, intake, t, f);
    }
  }

  lemma AttemptStays(w: World, book: A.Book, auth: RecoveryAuthorization, intake: Intake, t: Stamps, f: A.LineFault)
    requires AttemptEvent(w, book, auth, intake, t, f).0.Ok?
    ensures AttemptEvent(w, book, auth, intake, t, f).1.lines != []
  {
    hide A.ReadEvents, A.ValidEvent;
  }

  // A rollback reports success exactly when it is authorized here for a generation up
  // the tree from HEAD, the audit file can take both events, and nothing fails; and
  // then HEAD names the target and both events are on record.
  lemma RolledBackIff(w: World, o: Origin, s: Site, intake: Intake, auth: RecoveryAuthorization, t: Stamps, receiptId: string, f: Faults)
    requires A.Sound(w.audit) && Tree(w.env, o, s.disk.generations) && (CurrentHead(w.env, s.disk).Some? ==> HeadSound(w.env, s.disk))
    ensures var (r, s') := Rollback(w, s, intake, auth, t, receiptId, f);
            && (r.Ok? <==>
                && AuthorizedHere(w.env, s.disk, intake, auth) && TargetTerms(w.env, s.disk, auth.target)
                && Readable(w, s.book) && Named(w, t) && Undisturbed(f))
            && (r.Ok? ==>
                  && (exists m :: Held(w.env, s.disk.generations, auth.target, None, m)
                                  && PointsAt(w.env, s.disk.generations, r.value, auth.target, m))
                  && s'.disk == s.disk.(head := Some(w.env.encodeHead(r.value)))
                  && Recorded(w, s.book, s'.book, intake, auth, t, receiptId))
  {
    hide CheckRollback, AttemptEvent, A.Append, A.EventIs, A.LawfulLine, Required, Tree, HeadSound, TargetTerms, AuthorizedHere, Held,
         PointsAt, ParseHead;
    CheckedIff(w.env, o, s.disk, intake, auth);
    if CheckRollback(w.env, s.disk, intake, auth).Ok? {
      CheckedPoints(w.env, s.disk, intake, auth);
      var to := CheckRollback(w.env, s.disk, intake, auth).value;
      var (attempted, book) := AttemptEvent(w, s.book, auth, intake, t, f.attempt);
      AttemptIff(w, s.book, auth, intake, t, f.attempt);
      if attempted.Ok? {
        R.RollbackTarget(w.env, s.disk, intake, auth);
        SuccessIff(w, book, auth, t, receiptId, f.outcome);
        assert (s.book.lines + [Whole(attempted.value)])[..|s.book.lines|] == s.book.lines;
      }
    }
  }

  lemma SuccessIff(w: World, book: A.Book, auth: RecoveryAuthorization, t: Stamps, receiptId: string, f: A.LineFault)
    requires A.Sound(w.audit) && book.lines != []
    ensures var details := "authorization=" + auth.authorizationId + ";creates_authority=false";
            var (r, after) := A.Append(w.audit, book, t.outcomeId, t.outcomeAt, A.RollbackSucceeded, [auth.target, receiptId], details, f);
            && (r.Ok? <==>
                && f == A.Clean && (forall i :: 0 <= i < |book.lines| ==> A.LawfulLine(w.audit, book.lines, i))
                && Required(t.outcomeId) && Required(w.audit.actor) && Required(w.audit.policy))
            && (r.Ok? && book.ended ==>
                  && after == A.Book(book.lines + [Whole(r.value)], true)
                  && A.EventIs(w.audit, r.value, book.lines, t.outcomeId, t.outcomeAt, A.RollbackSucceeded,
                               [auth.target, receiptId], details))
  {
    hide A.Append, A.EventIs, A.LawfulLine, Required;
    var details := "authorization=" + auth.authorizationId + ";creates_authority=false";
    NotBlank("authorization=", auth.authorizationId + ";creates_authority=false");
    assert details == "authorization=" + (auth.authorizationId + ";creates_authority=false");
    A.AppendExact(w.audit, book, t.outcomeId, t.outcomeAt, A.RollbackSucceeded, [auth.target, receiptId], details, f);
  }

  // A rollback whose HEAD write fails says so in the audit file, when that can be
  // written: HEAD is then the old one, or the new one if only the report was lost.
  lemma FailureRecorded(w: World, s: Site, intake: Intake, auth: RecoveryAuthorization, t: Stamps, receiptId: string, f: Faults)
    requires A.Sound(w.audit) && Readable(w, s.book) && CheckRollback(w.env, s.disk, intake, auth).Ok?
    requires f.attempt == A.Clean && Named(w, t) && f.head != HeadClean
    ensures var (r, s') := Rollback(w, s, intake, auth, t, receiptId, f); var n := |s.book.lines|;
            && r == Err(HeadWriteFailed)
            && s'.disk == (if f.head == HeadKept then s.disk
                           else s.disk.(head := Some(w.env.encodeHead(CheckRollback(w.env, s.disk, intake, auth).value))))
            && (f.outcome == A.Clean && Required(f.cause) ==>
                  && |s'.book.lines| == n + 2 && s'.book.lines[n + 1].Whole?
                  && A.EventIs(w.audit, s'.book.lines[n + 1].entry, s'.book.lines[..n + 1], t.outcomeId, t.outcomeAt,
                               A.RollbackFailed, [auth.target], f.cause))
  {
    hide CheckRollback, AttemptEvent, A.Append, A.EventIs, A.LawfulLine, Required;
    var (attempted, book) := AttemptEvent(w, s.book, auth, intake, t, f.attempt);
    AttemptIff(w, s.book, auth, intake, t, f.attempt);
    A.AppendExact(w.audit, book, t.outcomeId, t.outcomeAt, A.RollbackFailed, [auth.target], f.cause, f.outcome);
    if f.outcome == A.Clean && Required(f.cause) {
      var after := Rollback(w, s, intake, auth, t, receiptId, f).1.book;
      assert after.lines[..|s.book.lines| + 1] == book.lines;
    }
  }

  // An authorization drawn up for an intake passes exactly while HEAD is byte for byte
  // what the intake saw, for a generation up the tree from it.
  lemma BoundToIntake(env: Env, o: Origin, d: Disk, d': Disk, recoveryId: string, affected: Option<string>, auth: RecoveryAuthorization)
    requires Generations.Sound(env) && Tree(env, o, d'.generations) && (CurrentHead(env, d').Some? ==> HeadSound(env, d'))
    requires var intake := Observe(env, d, recoveryId, affected);
             && auth.recoveryId == recoveryId && auth.policy == env.policy
             && auth.expectedExists == intake.observedExists && auth.expectedHash == intake.observedHash
    ensures CheckRollback(env, d', Observe(env, d, recoveryId, affected), auth).Ok? <==>
            d'.head == d.head && TargetTerms(env, d', auth.target)
  {
    hide CheckRollback, Tree, HeadSound, TargetTerms;
    CheckedIff(env, o, d', Observe(env, d, recoveryId, affected), auth);
  }
}
