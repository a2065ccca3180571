// Where the guarantees of the generation store end: what a stopped publication
// costs, and what happens once the bootstrap's parent id is itself published.
module GenerationLimits {
  import opened Base
  import opened Chains
  import opened Generations
  import opened Recovery
  import opened GenerationTree
  import opened GenerationRuns
  import A = Ledger

  // ----- A publication that was stopped

  // The staged directory holds a promotion envelope and was never materialised.
  predicate Burnt(d: Disk, id: string) {
    id in d.staging && PromotionFile in d.staging[id] && id !in d.generations
  }

  // An identifier that can be neither staged nor published any more.
  predicate Spent(d: Disk, id: string) {
    id in d.generations || Burnt(d, id)
  }

  lemma PublishKeepsSpent(env: Env, d: Disk, m: Manifest, ev: Evidence, now: int, fault: PublishFault, id: string)
    requires Spent(d, id)
    ensures var d' := Publish(env, d, m, ev, now, fault).1; Spent(d', id) && (Burnt(d, id) ==> Burnt(d', id))
  {
    hide CheckPublish, Envelope, HeadFor;
    if CheckPublish(env, d, m, ev, now).Ok? {
      PublishFacts(env, d, m, ev, now);
    }
  }

  lemma StepKeepsSpent(w: World, s: Site, e: Event, id: string)
    requires Spent(s.disk, id)
    ensures Spent(Next(w, s, e).disk, id)
    ensures Burnt(s.disk, id) ==> Burnt(Next(w, s, e).disk, id)
  {
    hide Rollback, Publish, A.Append, CheckRollback, StagedDir, ValidManifest, PayloadsMatch;
    match e
    case StageOne(_, _, _) =>
    case PublishOne(m, ev, now, fault) => PublishKeepsSpent(w.env, s.disk, m, ev, now, fault, id);
    case NoteIntake(_, _, _, _, _) =>
    case RollBackTo(intake, auth, t, receiptId, f) => RollbackDisk(w, s, intake, auth, t, receiptId, f);
  }

  lemma SpentRefused(env: Env, d: Disk, m: Manifest, payloads: map<string, Bytes>, ev: Evidence, now: int)
    requires Spent(d, m.commitId)
    ensures CheckStage(env, d, m, payloads).Err? && CheckPublish(env, d, m, ev, now).Err?
  {
    hide Verify, ParseHead, CandidateIntact;
    if m.commitId in d.staging && CandidateIntact(env, d.staging[m.commitId], m) {
      IntactIsBare(env, d.staging[m.commitId], m);
    }
  }

  // A candidate that passes its check holds no envelope yet.
  lemma IntactIsBare(env: Env, dir: Dir, m: Manifest)
    requires CandidateIntact(env, dir, m)
    ensures PromotionFile !in dir
  {
    assert PromotionFile !in dir.Keys;
  }

  // Where a publication that passed its checks stops decides what becomes of its
  // identifier: at any stop but the very first it is spent.
  lemma StopSpends(env: Env, d: Disk, m: Manifest, ev: Evidence, now: int, fault: PublishFault)
    requires CheckPublish(env, d, m, ev, now).Ok?
    ensures var d' := Publish(env, d, m, ev, now, fault).1;
            && (fault == EnvelopeNotWritten ==> d' == d)
            && (fault != EnvelopeNotWritten ==> Spent(d', m.commitId))
            && (fault.EnvelopeTorn? || fault == NotMaterialised ==> Burnt(d', m.commitId))
  {
    hide CheckPublish;
    PublishFacts(env, d, m, ev, now);
  }

  // The exact condition: a stopped publication can be tried again, with whatever
  // evidence, if and only if it stopped before its envelope file was created.
  lemma RetryIff(env: Env, d: Disk, m: Manifest, ev: Evidence, now: int, fault: PublishFault)
    requires CheckPublish(env, d, m, ev, now).Ok?
    ensures (exists ev', now' :: CheckPublish(env, Publish(env, d, m, ev, now, fault).1, m, ev', now').Ok?)
            <==> fault == EnvelopeNotWritten
  {
    hide CheckPublish, Publish, Spent;
    StopSpends(env, d, m, ev, now, fault);
    var d' := Publish(env, d, m, ev, now, fault).1;
    if fault == EnvelopeNotWritten {
      assert CheckPublish(env, d', m, ev, now).Ok?;
    } else {
      forall ev', now' ensures CheckPublish(env, d', m, ev', now').Err? {
        SpentRefused(env, d', m, map[], ev', now');
      }
    }
  }

  // What is spent stays spent: over every run from a publication stopped at or
  // after its envelope, its identifier is never staged and never published again.
  lemma {:induction false} SpentForGood(w: World, s: Site, events: seq<Event>, id: string,
                                        m: Manifest, payloads: map<string, Bytes>, ev: Evidence, now: int)
    requires Spent(s.disk, id) && m.commitId == id
    ensures Spent(Exec(w, s, events).disk, id) && (Burnt(s.disk, id) ==> Burnt(Exec(w, s, events).disk, id))
    ensures CheckStage(w.env, Exec(w, s, events).disk, m, payloads).Err?
    ensures CheckPublish(w.env, Exec(w, s, events).disk, m, ev, now).Err?
    decreases |events|
  {
    hide Next, Spent, Burnt;
    if events != [] {
      SpentForGood(w, s, events[..|events| - 1], id, m, payloads, ev, now);
      StepKeepsSpent(w, Exec(w, s, events[..|events| - 1]), events[|events| - 1], id);
    }
    SpentRefused(w.env, Exec(w, s, events).disk, m, payloads, ev, now);
  }

  // HEAD can be read, and descends from no generation called x.
  ghost predicate Avoids(env: Env, d: Disk, x: string) {
    d.head.Some? && ParseHead(env, d.head.value).Some? && !Descends(env, d.generations, HeadCommit(env, d), x)
  }

  // Everything up from HEAD is a generation, or the bootstrap's parent id.
  lemma OutsideAvoided(env: Env, o: Origin, d: Disk, x: string)
    requires Grown(env, o, d) && x !in d.generations && x != o.parent
    ensures Avoids(env, d, x)
  {
    hide Rooted, HeadSound, Up, ParseHead;
    HeadNumber(env, d);
    if n: nat :| Up(env, d.generations, HeadCommit(env, d), n) == Some(x) {
      UpInside(env, o, d.generations, HeadCommit(env, d), n);
    }
  }

  lemma UpInside(env: Env, o: Origin, g: Store, id: string, n: nat)
    requires Rooted(env, o, g) && id in g && Up(env, g, id, n).Some?
    ensures Up(env, g, id, n).value in g || Up(env, g, id, n).value == o.parent
  {
    hide Up, VerifyDir, Rooted;
    if n == 0 {
      UpStep(env, g, id, 0);
    } else {
      UpStep(env, g, id, n - 1);
      ParentInside(env, o, g, Up(env, g, id, n - 1).value);
    }
  }

  // A generation numbered above HEAD's is not among HEAD's ancestors.
  lemma HigherAvoided(env: Env, o: Origin, d: Disk, x: string)
    requires Inv(env, o, d) && x in d.generations && Verify(env, d.generations, x, None).Ok?
    requires d.head.Some? && ParseHead(env, d.head.value).Some?
    requires ManifestAt(env, d.generations, x).seqNo > ParseHead(env, d.head.value).value.seqNo
    ensures Left(env, d, x)
  {
    hide Tree, HeadSound, Up, ParseHead, Verify;
    HeadNumber(env, d);
    if n: nat :| Up(env, d.generations, HeadCommit(env, d), n) == Some(x) {
      UpNumbers(env, o, d.generations, HeadCommit(env, d), n);
    }
  }

  // A publication stopped between its directory and HEAD leaves an orphan: a
  // verified generation that HEAD does not descend from.
  lemma OrphanLeft(env: Env, o: Origin, d: Disk, m: Manifest, ev: Evidence, now: int)
    requires Generations.Sound(env) && Inv(env, o, d) && CheckPublish(env, d, m, ev, now).Ok? && m.commitId != o.parent
    ensures Left(env, Publish(env, d, m, ev, now, HeadNotWritten).1, m.commitId)
  {
    hide Rooted, HeadSound, Left, VerifyDir, CheckPublish, ParseHead, ValidManifest, ValidPromotion, CandidateIntact;
    PublishFacts(env, d, m, ev, now);
    PublishExtends(env, o, d, m, ev, now);
    PublishKeeps(env, o, d, m, ev, now, HeadNotWritten);
    var p := CheckPublish(env, d, m, ev, now).value;
    var d' := Publish(env, d, m, ev, now, HeadNotWritten).1;
    Unpinned(env, m.commitId, d'.generations[m.commitId], (ManifestHash(env, m), env.hash(env.encodePromotion(p))));
    HigherAvoided(env, o, d', m.commitId);
  }

  // No commit whose publication was stopped with its envelope file created and HEAD
  // not replaced is ever named by HEAD, nor is any descendant of it.
  lemma StoppedNeverNamed(w: World, o: Origin, s: Site, m: Manifest, ev: Evidence, now: int, fault: PublishFault, events: seq<Event>)
    requires Generations.Sound(w.env) && Inv(w.env, o, s.disk)
    requires CheckPublish(w.env, s.disk, m, ev, now).Ok?
    requires fault.EnvelopeTorn? || fault == NotMaterialised || fault == HeadNotWritten
    requires fault == HeadNotWritten ==> OriginSpared(w, o, Next(w, s, PublishOne(m, ev, now, fault)), events)
    ensures var d := Exec(w, Next(w, s, PublishOne(m, ev, now, fault)), events).disk;
            && d.head.Some? && ParseHead(w.env, d.head.value).Some? && HeadCommit(w.env, d) != m.commitId
            && (m.commitId != o.parent ==> Avoids(w.env, d, m.commitId))
  {
    hide Exec, Publish, CheckPublish, Rooted, HeadSound, Descends, Spent, ParseHead;
    var s1 := Next(w, s, PublishOne(m, ev, now, fault));
    StepKeeps(w, o, s, PublishOne(m, ev, now, fault));
    RunsKeep(w, o, s1, events);
    var d := Exec(w, s1, events).disk;
    HeadNumber(w.env, d);
    StopSpends(w.env, s.disk, m, ev, now, fault);
    if fault == HeadNotWritten {
      RunsGrow(w, s1, events);
      OrphanLands(w.env, s.disk, m, ev, now);
      OrphanLeft(w.env, o, s.disk, m, ev, now);
      RunsKeepLeft(w, o, s1, events, m.commitId);
      LeftIsNotHead(w.env, d, m.commitId);
    } else {
      SpentForGood(w, s1, events, m.commitId, m, map[], ev, now);
      if m.commitId != o.parent {
        OutsideAvoided(w.env, o, d, m.commitId);
      }
    }
  }

  lemma OrphanLands(env: Env, d: Disk, m: Manifest, ev: Evidence, now: int)
    requires CheckPublish(env, d, m, ev, now).Ok?
    ensures m.commitId in Publish(env, d, m, ev, now, HeadNotWritten).1.generations
  {
    hide CheckPublish;
    PublishFacts(env, d, m, ev, now);
  }

  lemma LeftIsNotHead(env: Env, d: Disk, x: string)
    requires Left(env, d, x)
    ensures HeadCommit(env, d) != x
  {
    hide Up, ParseHead;
    UpStep(env, d.generations, HeadCommit(env, d), 0);
  }

  // ----- The premise on the bootstrap's parent id

  // One generation on its way from staging to HEAD.
  datatype Line = Line(m: Manifest, payloads: map<string, Bytes>, ev: Evidence, now: int)

  function Lands(w: World, s: Site, l: Line): Site {
    Next(w, Next(w, s, StageOne(l.m, l.payloads, NoFault)), PublishOne(l.m, l.ev, l.now, NoPublishFault))
  }

  // Everything staging and publication ask of a generation other than its place.
  predicate Ready(env: Env, l: Line) {
    && ValidManifest(env, l.m) && PayloadsMatch(env, l.m, l.payloads) && l.m.policy == env.policy
    && Bindings(env, l.m, l.ev) && ValidPromotion(env, Envelope(env, l.m, l.ev, l.now))
  }

  predicate Unused(d: Disk, id: string) {
    id !in d.staging && id !in d.generations
  }

  lemma StagedThenPublished(env: Env, d: Disk, l: Line)
    requires HeadSound(env, d) && Ready(env, l) && Unused(d, l.m.commitId)
    requires var h := ParseHead(env, d.head.value).value; l.m.parent == h.commitId && l.m.seqNo == h.seqNo + 1
    ensures var d1 := Stage(env, d, l.m, l.payloads, NoFault).1;
            && d1 == d.(staging := d.staging[l.m.commitId := StagedDir(env, l.m, l.payloads)])
            && CheckPublish(env, d1, l.m, l.ev, l.now) == Ok(Envelope(env, l.m, l.ev, l.now))
  {
    hide ValidManifest, ValidPromotion, Bindings, VerifyDir, CandidateIntact, ParseHead, PayloadsMatch, StagedDir;
    StagedIntact(env, l.m, l.payloads);
  }

  lemma PublishedNamed(env: Env, d: Disk, m: Manifest, ev: Evidence, now: int)
    requires Generations.Sound(env) && CheckPublish(env, d, m, ev, now).Ok?
    ensures var d' := Publish(env, d, m, ev, now, NoPublishFault).1; var id := m.commitId;
            && d'.generations.Keys == d.generations.Keys + {id} && Grows(d.generations, d'.generations)
            && d'.staging == d.staging - {id} && Verify(env, d'.generations, id, None) == Ok(m)
            && HeadSound(env, d') && ParseHead(env, d'.head.value).value.commitId == id
            && ParseHead(env, d'.head.value).value.seqNo == m.seqNo
  {
    hide CheckPublish, ParseHead, HeadSound, CandidateIntact, ValidPromotion, VerifyDir, ValidManifest;
    PublishFacts(env, d, m, ev, now);
    var p := CheckPublish(env, d, m, ev, now).value;
    var done := d.staging[m.commitId][PromotionFile := env.encodePromotion(p)];
    MaterialisedVerifies(env, d.staging[m.commitId], m, p);
    Unpinned(env, m.commitId, done, (ManifestHash(env, m), env.hash(env.encodePromotion(p))));
    ManifestNamed(env, m);
    NewHeadSound(env, Publish(env, d, m, ev, now, NoPublishFault).1, HeadFor(env, m, p));
  }

  // A ready child of HEAD's generation under an unused id lands: HEAD names it.
  lemma LineLands(w: World, s: Site, l: Line)
    requires Generations.Sound(w.env) && HeadSound(w.env, s.disk) && Ready(w.env, l) && Unused(s.disk, l.m.commitId)
    requires var h := ParseHead(w.env, s.disk.head.value).value; l.m.parent == h.commitId && l.m.seqNo == h.seqNo + 1
    ensures var d' := Lands(w, s, l).disk; var id := l.m.commitId;
            && Lands(w, s, l).book == s.book && d'.staging == s.disk.staging
            && d'.generations.Keys == s.disk.generations.Keys + {id} && Grows(s.disk.generations, d'.generations)
            && Verify(w.env, d'.generations, id, None) == Ok(l.m)
            && HeadSound(w.env, d') && ParseHead(w.env, d'.head.value).value.commitId == id
            && ParseHead(w.env, d'.head.value).value.seqNo == l.m.seqNo
  {
    hide HeadSound, Ready, Stage, Publish, CheckPublish, ParseHead, Verify, StagedDir, Envelope;
    StagedThenPublished(w.env, s.disk, l);
    var d1 := Stage(w.env, s.disk, l.m, l.payloads, NoFault).1;
    PublishedNamed(w.env, d1, l.m, l.ev, l.now);
    assert d1.staging - {l.m.commitId} == s.disk.staging;
  }

  // What a bound authorization has to meet with HEAD at h.
  predicate Observed(env: Env, d: Disk, intake: Intake, auth: RecoveryAuthorization, target: string) {
    && Recovery.Bound(env, intake, auth) && auth.target == target
    && auth.expectedExists && auth.expectedHash == HeadDigest(env, d)
  }

  // HEAD names this generation, by its number.
  ghost predicate HeadAt(env: Env, d: Disk, id: string, n: nat) {
    && HeadSound(env, d) && d.head.Some? && ParseHead(env, d.head.value).Some?
    && ParseHead(env, d.head.value).value.commitId == id && ParseHead(env, d.head.value).value.seqNo == n
  }

  lemma LandsKeeps(w: World, o: Origin, s: Site, l: Line)
    requires Generations.Sound(w.env) && Grown(w.env, o, s.disk)
    ensures Grown(w.env, o, Lands(w, s, l).disk)
  {
    hide Next, Grown;
    StepKeeps(w, o, s, StageOne(l.m, l.payloads, NoFault));
    StepKeeps(w, o, Next(w, s, StageOne(l.m, l.payloads, NoFault)), PublishOne(l.m, l.ev, l.now, NoPublishFault));
  }

  // What a generation and its parent are, wherever they stand.
  lemma ParentSound(env: Env, o: Origin, d: Disk, id: string, n: nat)
    requires Grown(env, o, d) && HeadAt(env, d, id, n) && id != o.bootstrap
    ensures var g := d.generations;
            && Verify(env, g, id, None).Ok? && ManifestAt(env, g, id).seqNo == n
            && var up := ManifestAt(env, g, id).parent;
            && up in g && Verify(env, g, up, None).Ok? && ManifestAt(env, g, up).seqNo + 1 == n
            && ManifestFile in g[up] && g[up][ManifestFile] == env.encodeManifest(ManifestAt(env, g, up))
  {
    hide VerifyDir, Rooted, ParseHead;
    HeadNumber(env, d);
    RootedAt(env, o, d.generations, id);
    var up := ManifestAt(env, d.generations, id).parent;
    RootedAt(env, o, d.generations, up);
    VerifiedFiles(env, d.generations, up, None);
  }

  // A rollback from a generation to its parent goes through.
  lemma BackToParent(w: World, o: Origin, s: Site, back: Event, id: string, n: nat)
    requires Generations.Sound(w.env) && Grown(w.env, o, s.disk) && HeadAt(w.env, s.disk, id, n) && id != o.bootstrap
    requires back.RollBackTo? && Verify(w.env, s.disk.generations, id, None).Ok?
    requires Observed(w.env, s.disk, back.intake, back.auth, ManifestAt(w.env, s.disk.generations, id).parent)
    requires AttemptEvent(w, s.book, back.auth, back.intake, back.t, back.faults.attempt).0.Ok? && back.faults.head != HeadKept
    ensures var d' := Next(w, s, back).disk;
            && d'.generations == s.disk.generations && d'.staging == s.disk.staging
            && n > 0 && HeadAt(w.env, d', back.auth.target, n - 1)
  {
    hide VerifyDir, HeadSound, ParseHead, CheckRollback, A.Append, AttemptEvent, Rooted;
    ParentSound(w.env, o, s.disk, id, n);
    assert Walk(w.env, s.disk.generations, id, back.auth.target, {}).Ok?;
    RollbackChecks(w.env, s.disk, back.intake, back.auth);
    CanonicalHeadSound(w.env, s.disk, back.intake, back.auth);
  }

  // Three generations: one under the bootstrap's parent id, as a child of HEAD's
  // generation, and a line of two beside it.
  predicate Family(env: Env, o: Origin, d: Disk, at: string, n: nat, again: Line, child: Line, grandchild: Line) {
    && Ready(env, again) && Ready(env, child) && Ready(env, grandchild)
    && again.m.commitId == o.parent
    && again.m.parent == at && child.m.parent == at && grandchild.m.parent == child.m.commitId
    && again.m.seqNo == n + 1 && child.m.seqNo == n + 1 && grandchild.m.seqNo == n + 2
    && Unused(d, again.m.commitId) && Unused(d, child.m.commitId) && Unused(d, grandchild.m.commitId)
    && child.m.commitId !in {again.m.commitId, grandchild.m.commitId} && grandchild.m.commitId != again.m.commitId
  }

  // The premise on the origin is needed, wherever the bootstrap's parent id is
  // published. Let it be staged and published under any generation HEAD names, HEAD
  // be rolled back off it, and two generations of another line land there: HEAD can
  // then be rolled back to the generation it was rolled back off before.
  lemma StagedOriginConfuses(w: World, o: Origin, s: Site, at: string, n: nat, again: Line, back: Event, child: Line, grandchild: Line,
                             intake: Intake, auth: RecoveryAuthorization)
    requires Generations.Sound(w.env) && Inv(w.env, o, s.disk) && HeadAt(w.env, s.disk, at, n)
    requires Family(w.env, o, s.disk, at, n, again, child, grandchild)
    requires back.RollBackTo? && Observed(w.env, Lands(w, s, again).disk, back.intake, back.auth, at)
    requires AttemptEvent(w, Lands(w, s, again).book, back.auth, back.intake, back.t, back.faults.attempt).0.Ok?
    requires back.faults.head != HeadKept
    requires Observed(w.env, Lands(w, Lands(w, Next(w, Lands(w, s, again), back), child), grandchild).disk, intake, auth, o.parent)
    ensures var s1 := Lands(w, s, again); var s2 := Next(w, s1, back); var s4 := Lands(w, Lands(w, s2, child), grandchild);
            && HeadAt(w.env, s1.disk, o.parent, n + 1) && HeadAt(w.env, s2.disk, at, n)
            && CheckRollback(w.env, s4.disk, intake, auth).Ok?
  {
    hide HeadSound, ParseHead, CheckRollback, Lands, Next, Ready, AttemptEvent, VerifyDir, Rooted;
    var s1 := Lands(w, s, again);
    LineLands(w, s, again);
    LandsKeeps(w, o, s, again);
    HeadReads(w.env, s1.disk);
    RootedAt(w.env, o, s.disk.generations, o.bootstrap);
    BackToParent(w, o, s1, back, o.parent, n + 1);
    StepKeeps(w, o, s1, back);
    LinePasses(w, o, Next(w, s1, back), at, n, again.m, child, grandchild, intake, auth);
  }

  // The second half of that run.
  lemma LinePasses(w: World, o: Origin, s: Site, at: string, n: nat, again: Manifest, child: Line, grandchild: Line,
                   intake: Intake, auth: RecoveryAuthorization)
    requires Generations.Sound(w.env) && Grown(w.env, o, s.disk) && HeadAt(w.env, s.disk, at, n)
    requires o.parent in s.disk.generations && Verify(w.env, s.disk.generations, o.parent, None) == Ok(again) && again.seqNo == n + 1
    requires Ready(w.env, child) && child.m.parent == at && child.m.seqNo == n + 1 && Unused(s.disk, child.m.commitId)
    requires Ready(w.env, grandchild) && grandchild.m.parent == child.m.commitId && grandchild.m.seqNo == n + 2
    requires Unused(s.disk, grandchild.m.commitId) && child.m.commitId != grandchild.m.commitId
    requires Observed(w.env, Lands(w, Lands(w, s, child), grandchild).disk, intake, auth, o.parent)
    ensures CheckRollback(w.env, Lands(w, Lands(w, s, child), grandchild).disk, intake, auth).Ok?
  {
    hide VerifyDir, HeadSound, ParseHead, CheckRollback, Lands, Ready, Rooted;
    var s1 := Lands(w, s, child);
    LineLands(w, s, child);
    LandsKeeps(w, o, s, child);
    LineLands(w, s1, grandchild);
    LandsKeeps(w, o, s1, grandchild);
    RollbackToOrigin(w.env, o, Lands(w, s1, grandchild).disk, intake, auth);
  }

  // And for good: over every run from a store that holds the bootstrap's parent id as
  // a generation, an authorization for it bound to HEAD passes exactly when that
  // generation is numbered below HEAD's, on its line or not.
  lemma OriginAlwaysReturns(w: World, o: Origin, s: Site, events: seq<Event>, intake: Intake, auth: RecoveryAuthorization)
    requires Generations.Sound(w.env) && Grown(w.env, o, s.disk) && o.parent in s.disk.generations
    requires Observed(w.env, Exec(w, s, events).disk, intake, auth, o.parent)
    ensures Verify(w.env, s.disk.generations, o.parent, None).Ok?
    ensures var d := Exec(w, s, events).disk;
            && d.head.Some? && ParseHead(w.env, d.head.value).Some?
            && (CheckRollback(w.env, d, intake, auth).Ok? <==>
                ManifestAt(w.env, s.disk.generations, o.parent).seqNo < ParseHead(w.env, d.head.value).value.seqNo)
  {
    hide Exec, CheckRollback, HeadSound, VerifyDir, ParseHead, Rooted;
    RunsKeep(w, o, s, events);
    RunsGrow(w, s, events);
    RootedAt(w.env, o, s.disk.generations, o.parent);
    RollbackToOrigin(w.env, o, Exec(w, s, events).disk, intake, auth);
  }

  lemma HeadReads(env: Env, d: Disk)
    requires HeadSound(env, d)
    ensures d.head.Some? && ParseHead(env, d.head.value).Some?
  {
  }
}
