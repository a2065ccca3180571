// Whole runs of the generation store and its recovery boundary: staging,
// publication, intake and rollback, with a failure at any write.
module GenerationRuns {
  import opened Base
  import opened Chains
  import opened Generations
  import opened Recovery
  import opened GenerationTree
  import A = Ledger

  datatype Event =
    | StageOne(m: Manifest, payloads: map<string, Bytes>, fault: Fault)
    | PublishOne(m: Manifest, ev: Evidence, now: int, publishFault: PublishFault)
    | NoteIntake(eventId: string, at: int, refs: seq<string>, details: string, lineFault: A.LineFault)
    | RollBackTo(intake: Intake, auth: RecoveryAuthorization, t: Stamps, receiptId: string, faults: Faults)

  function Next(w: World, s: Site, e: Event): Site {
    match e
    case StageOne(m, payloads, fault) => s.(disk := Stage(w.env, s.disk, m, payloads, fault).1)
    case PublishOne(m, ev, now, fault) => s.(disk := Publish(w.env, s.disk, m, ev, now, fault).1)
    case NoteIntake(id, at, refs, details, fault) =>
      s.(book := A.Append(w.audit, s.book, id, at, A.RecoveryIntake, refs, details, fault).1)
    case RollBackTo(intake, auth, t, receiptId, f) => Rollback(w, s, intake, auth, t, receiptId, f).1
  }

  function Exec(w: World, s: Site, events: seq<Event>): Site
    decreases |events|
  {
    if events == [] then s else Next(w, Exec(w, s, events[..|events| - 1]), events[|events| - 1])
  }

  // The bootstrap's parent id is still no generation when the run is over: it was
  // never materialised.
  predicate OriginSpared(w: World, o: Origin, s: Site, events: seq<Event>) {
    o.parent !in Exec(w, s, events).disk.generations
  }

  // ----- One step

  lemma StageKeeps(env: Env, o: Origin, d: Disk, m: Manifest, payloads: map<string, Bytes>, fault: Fault)
    requires Grown(env, o, d)
    ensures var d' := Stage(env, d, m, payloads, fault).1;
            Grown(env, o, d') && d'.generations == d.generations && d'.head == d.head
  {
    hide Rooted, HeadSound, CheckStage;
    var d' := Stage(env, d, m, payloads, fault).1;
    if d' != d {
      HeadElsewhere(env, d, d');
    }
  }

  // Whether HEAD is sound depends on HEAD and the generation it names only.
  lemma HeadElsewhere(env: Env, d: Disk, d': Disk)
    requires HeadSound(env, d) && d'.head == d.head && Grows(d.generations, d'.generations)
    ensures HeadSound(env, d')
  {
    hide VerifyDir, ParseHead;
  }

  // What a publication has checked by the time it writes.
  lemma PublishFacts(env: Env, d: Disk, m: Manifest, ev: Evidence, now: int)
    requires CheckPublish(env, d, m, ev, now).Ok?
    ensures d.head.Some? && ParseHead(env, d.head.value).Some?
    ensures var h := ParseHead(env, d.head.value).value; var p := CheckPublish(env, d, m, ev, now).value;
            && h.commitId == m.parent && m.seqNo == h.seqNo + 1
            && ValidManifest(env, m) && ValidPromotion(env, p) && p == Envelope(env, m, ev, now)
            && m.commitId in d.staging && m.commitId !in d.generations && CandidateIntact(env, d.staging[m.commitId], m)
  {
    hide Verify, ValidManifest, ValidPromotion, Bindings, CandidateIntact;
  }

  // The generation a publication materialises verifies, and has grown from the
  // generation HEAD names.
  lemma PublishExtends(env: Env, o: Origin, d: Disk, m: Manifest, ev: Evidence, now: int)
    requires Generations.Sound(env) && Grown(env, o, d) && CheckPublish(env, d, m, ev, now).Ok?
    ensures var p := CheckPublish(env, d, m, ev, now).value;
            m.commitId in d.staging && m.commitId !in d.generations
            && var g' := d.generations[m.commitId := d.staging[m.commitId][PromotionFile := env.encodePromotion(p)]];
            && Rooted(env, o, g')
            && Verify(env, g', m.commitId, Some((ManifestHash(env, m), env.hash(env.encodePromotion(p))))) == Ok(m)
  {
    PublishFacts(env, d, m, ev, now);
    var p := CheckPublish(env, d, m, ev, now).value;
    var dir := d.staging[m.commitId];
    var done := dir[PromotionFile := env.encodePromotion(p)];
    hide CheckPublish, Rooted, ParseHead;
    HeadNumber(env, d);
    MaterialisedVerifies(env, dir, m, p);
    Unpinned(env, m.commitId, done, (ManifestHash(env, m), env.hash(env.encodePromotion(p))));
    hide HeadSound, VerifyDir, CandidateIntact;
    RootedGrows(env, o, d.generations, m.commitId, done);
  }

  lemma Unpinned(env: Env, id: string, dir: Dir, pins: (Digest, Digest))
    requires VerifyDir(env, id, dir, Some(pins)).Ok?
    ensures VerifyDir(env, id, dir, None) == VerifyDir(env, id, dir, Some(pins))
    ensures ManifestFile in dir && PromotionFile in dir && (env.hash(dir[ManifestFile]), env.hash(dir[PromotionFile])) == pins
  {
  }

  lemma NewHeadSound(env: Env, d: Disk, h: HeadPointer)
    requires Generations.Sound(env) && ValidHead(env, h) && d.head == Some(env.encodeHead(h))
    requires Verify(env, d.generations, h.commitId, Some((h.manifestHash, h.promotionHash))).Ok?
    requires Verify(env, d.generations, h.commitId, Some((h.manifestHash, h.promotionHash))).value.seqNo == h.seqNo
    ensures HeadSound(env, d) && ParseHead(env, d.head.value) == Some(h)
  {
    hide Verify;
  }

  lemma PublishKeeps(env: Env, o: Origin, d: Disk, m: Manifest, ev: Evidence, now: int, fault: PublishFault)
    requires Generations.Sound(env) && Grown(env, o, d)
    ensures Grown(env, o, Publish(env, d, m, ev, now, fault).1)
  {
    hide Rooted, HeadSound, Verify, CheckPublish, ValidManifest, ValidPromotion, CandidateIntact;
    if CheckPublish(env, d, m, ev, now).Ok? {
      PublishFacts(env, d, m, ev, now);
      PublishExtends(env, o, d, m, ev, now);
      var p := CheckPublish(env, d, m, ev, now).value;
      var d' := WritePublication(env, d, m, p, fault);
      if d'.head == d.head {
        HeadElsewhere(env, d, d');
      } else {
        ManifestNamed(env, m);
        NewHeadSound(env, d', HeadFor(env, m, p));
      }
    }
  }

  lemma ManifestNamed(env: Env, m: Manifest)
    requires ValidManifest(env, m)
    ensures Required(m.commitId) && m.seqNo >= 1
  {
  }

  // The target of a rollback that passes its checks, and the HEAD it is given.
  lemma RollbackTarget(env: Env, d: Disk, intake: Intake, auth: RecoveryAuthorization)
    requires CheckRollback(env, d, intake, auth).Ok?
    ensures Verify(env, d.generations, auth.target, None).Ok? && auth.target in d.generations
    ensures PromotionFile in d.generations[auth.target] && ManifestFile in d.generations[auth.target]
    ensures var m := ManifestAt(env, d.generations, auth.target); var to := CheckRollback(env, d, intake, auth).value;
            && to == HeadPointer(m.commitId, m.seqNo, ManifestHash(env, m), env.hash(d.generations[auth.target][PromotionFile]))
            && m.commitId == auth.target && ValidManifest(env, m)
            && (CurrentHead(env, d).Some? ==> m.seqNo < CurrentHead(env, d).value.seqNo)
  {
    hide Walk, ValidManifest;
  }

  // The HEAD a rollback writes names its target under the true digests exactly
  // when the target's manifest file is the canonical encoding of its manifest.
  lemma RolledBackVerifies(env: Env, d: Disk, intake: Intake, auth: RecoveryAuthorization)
    requires Generations.Sound(env) && CheckRollback(env, d, intake, auth).Ok?
    ensures ManifestFile in d.generations[auth.target]
    ensures var to := CheckRollback(env, d, intake, auth).value; var m := ManifestAt(env, d.generations, auth.target);
            Verify(env, d.generations, to.commitId, Some((to.manifestHash, to.promotionHash))) ==
            if d.generations[auth.target][ManifestFile] == env.encodeManifest(m) then Ok(m) else Err(HashMismatch)
  {
    RollbackTarget(env, d, intake, auth);
    hide CheckRollback, PayloadsIntact, ReadManifest, ReadPromotion;
  }

  lemma HeadValid(env: Env, m: Manifest, h: HeadPointer)
    requires Generations.Sound(env) && ValidManifest(env, m)
    requires h.commitId == m.commitId && h.seqNo == m.seqNo && h.manifestHash == ManifestHash(env, m)
    requires exists b :: h.promotionHash == env.hash(b)
    ensures ValidHead(env, h)
  {
  }

  lemma RollbackDisk(w: World, s: Site, intake: Intake, auth: RecoveryAuthorization, t: Stamps, receiptId: string, f: Faults)
    ensures var d' := Rollback(w, s, intake, auth, t, receiptId, f).1.disk;
            d' == s.disk || (CheckRollback(w.env, s.disk, intake, auth).Ok?
                             && d' == s.disk.(head := Some(w.env.encodeHead(CheckRollback(w.env, s.disk, intake, auth).value))))
  {
    hide CheckRollback, A.Append;
  }

  // Replacing HEAD by the one a rollback has checked.
  lemma CanonicalHeadSound(env: Env, d: Disk, intake: Intake, auth: RecoveryAuthorization)
    requires Generations.Sound(env) && CheckRollback(env, d, intake, auth).Ok? && Verify(env, d.generations, auth.target, None).Ok?
    requires ManifestFile in d.generations[auth.target]
             && d.generations[auth.target][ManifestFile] == env.encodeManifest(ManifestAt(env, d.generations, auth.target))
    ensures var to := CheckRollback(env, d, intake, auth).value; var d' := d.(head := Some(env.encodeHead(to)));
            && HeadSound(env, d') && ParseHead(env, d'.head.value) == Some(to) && to.commitId == auth.target
            && to.seqNo == ManifestAt(env, d.generations, auth.target).seqNo
  {
    hide VerifyDir, Walk, ParseHead, ValidHead, ValidManifest;
    RollbackTarget(env, d, intake, auth);
    RolledBackVerifies(env, d, intake, auth);
    var to := CheckRollback(env, d, intake, auth).value;
    HeadValid(env, ManifestAt(env, d.generations, auth.target), to);
    hide CheckRollback;
    NewHeadSound(env, d.(head := Some(env.encodeHead(to))), to);
  }

  lemma MovedHeadSound(env: Env, o: Origin, d: Disk, intake: Intake, auth: RecoveryAuthorization)
    requires Generations.Sound(env) && Rooted(env, o, d.generations) && CheckRollback(env, d, intake, auth).Ok?
    ensures var to := CheckRollback(env, d, intake, auth).value; var d' := d.(head := Some(env.encodeHead(to)));
            HeadSound(env, d') && ParseHead(env, d'.head.value) == Some(to) && to.commitId == auth.target
  {
    hide VerifyDir, ParseHead, CheckRollback, HeadSound, Rooted;
    RollbackTarget(env, d, intake, auth);
    RootedAt(env, o, d.generations, auth.target);
    CanonicalHeadSound(env, d, intake, auth);
  }

  lemma StepKeeps(w: World, o: Origin, s: Site, e: Event)
    requires Generations.Sound(w.env) && Grown(w.env, o, s.disk)
    ensures Grown(w.env, o, Next(w, s, e).disk)
  {
    hide Rooted, HeadSound, Rollback, Publish, Stage, CheckRollback;
    match e
    case StageOne(m, payloads, fault) => StageKeeps(w.env, o, s.disk, m, payloads, fault);
    case PublishOne(m, ev, now, fault) => PublishKeeps(w.env, o, s.disk, m, ev, now, fault);
    case NoteIntake(_, _, _, _, _) =>
    case RollBackTo(intake, auth, t, receiptId, f) =>
      RollbackDisk(w, s, intake, auth, t, receiptId, f);
      if CheckRollback(w.env, s.disk, intake, auth).Ok? {
        MovedHeadSound(w.env, o, s.disk, intake, auth);
      }
  }

  // A sound HEAD over generations grown from the bootstrap survives every run:
  // whatever fails, HEAD can be read and names a generation that verifies, and every
  // generation has its parent; and they form the tree exactly as long as the
  // bootstrap's parent id has not been materialised.
  lemma {:induction false} RunsKeep(w: World, o: Origin, s: Site, events: seq<Event>)
    requires Generations.Sound(w.env) && Grown(w.env, o, s.disk)
    ensures Grown(w.env, o, Exec(w, s, events).disk)
    ensures Inv(w.env, o, Exec(w, s, events).disk) <==> OriginSpared(w, o, s, events)
    decreases |events|
  {
    hide Rooted, HeadSound, Next;
    if events != [] {
      RunsKeep(w, o, s, events[..|events| - 1]);
      StepKeeps(w, o, Exec(w, s, events[..|events| - 1]), events[|events| - 1]);
    }
  }

  // ----- Materialised generations never change

  lemma PublishGrows(env: Env, d: Disk, m: Manifest, ev: Evidence, now: int, fault: PublishFault)
    ensures Grows(d.generations, Publish(env, d, m, ev, now, fault).1.generations)
    ensures forall id :: id in Publish(env, d, m, ev, now, fault).1.generations && id !in d.generations ==>
              id == m.commitId && d.head.Some? && ParseHead(env, d.head.value).Some? && HeadCommit(env, d) == m.parent
    ensures Publish(env, d, m, ev, now, fault).1.head != d.head ==>
              CheckPublish(env, d, m, ev, now).Ok? && m.commitId !in d.generations
              && Publish(env, d, m, ev, now, fault).1.head ==
                 Some(env.encodeHead(HeadFor(env, m, CheckPublish(env, d, m, ev, now).value)))
  {
    hide CheckPublish, ParseHead;
    if CheckPublish(env, d, m, ev, now).Ok? {
      PublishFacts(env, d, m, ev, now);
    }
  }

  // No step changes or removes a materialised generation; a generation appears
  // only by publication, as a child of the generation HEAD named at that moment.
  lemma StepGrows(w: World, s: Site, e: Event)
    ensures Grows(s.disk.generations, Next(w, s, e).disk.generations)
    ensures forall id :: id in Next(w, s, e).disk.generations && id !in s.disk.generations ==>
              e.PublishOne? && id == e.m.commitId && s.disk.head.Some? && ParseHead(w.env, s.disk.head.value).Some?
              && HeadCommit(w.env, s.disk) == e.m.parent
  {
    hide Publish, CheckStage, CheckRollback, Rollback, ParseHead;
    match e
    case PublishOne(m, ev, now, fault) => PublishGrows(w.env, s.disk, m, ev, now, fault);
    case RollBackTo(intake, auth, t, receiptId, f) => RollbackDisk(w, s, intake, auth, t, receiptId, f);
    case _ =>
  }

  lemma {:induction false} RunsGrow(w: World, s: Site, events: seq<Event>)
    ensures Grows(s.disk.generations, Exec(w, s, events).disk.generations)
    decreases |events|
  {
    hide Next;
    if events != [] {
      RunsGrow(w, s, events[..|events| - 1]);
      StepGrows(w, Exec(w, s, events[..|events| - 1]), events[|events| - 1]);
    }
  }

  // ----- A generation that was rolled back from is left for good

  // x is a generation, and HEAD names neither it nor a descendant of it.
  ghost predicate Left(env: Env, d: Disk, x: string) {
    && x in d.generations && d.head.Some? && ParseHead(env, d.head.value).Some?
    && !Descends(env, d.generations, HeadCommit(env, d), x)
  }

  lemma DescendsStable(env: Env, o: Origin, g: Store, g': Store, id: string, x: string)
    requires Tree(env, o, g) && Grows(g, g') && o.parent !in g' && id in g
    ensures Descends(env, g', id, x) <==> Descends(env, g, id, x)
  {
    hide Up, Tree, Grows;
    forall n: nat ensures Up(env, g', id, n) == Up(env, g, id, n) {
      UpStable(env, o, g, g', id, n);
    }
  }

  lemma ChildDescends(env: Env, g: Store, child: string, x: string)
    requires Parent(env, g, child).Some? && child != x && Descends(env, g, child, x)
    ensures Descends(env, g, Parent(env, g, child).value, x)
  {
    hide Up, Parent;
    var n: nat :| Up(env, g, child, n) == Some(x);
    UpStep(env, g, child, 0);
    assert n > 0;
    UpShift(env, g, child, n - 1);
  }

  lemma AncestorDescends(env: Env, g: Store, from: string, to: string, x: string)
    requires ProperAncestor(env, g, to, from) && Descends(env, g, to, x)
    ensures Descends(env, g, from, x)
  {
    hide Up;
    var n: nat :| n >= 1 && Up(env, g, from, n) == Some(to);
    var k: nat :| Up(env, g, to, k) == Some(x);
    UpAdd(env, g, from, n, k);
  }

  lemma PublishKeepsLeft(env: Env, o: Origin, d: Disk, m: Manifest, ev: Evidence, now: int, fault: PublishFault, x: string)
    requires Generations.Sound(env) && Inv(env, o, d) && Left(env, d, x)
    requires o.parent !in Publish(env, d, m, ev, now, fault).1.generations
    ensures Left(env, Publish(env, d, m, ev, now, fault).1, x)
  {
    hide Rooted, HeadSound, Publish, Descends, CheckPublish, ParseHead, Verify;
    var d' := Publish(env, d, m, ev, now, fault).1;
    PublishKeeps(env, o, d, m, ev, now, fault);
    PublishGrows(env, d, m, ev, now, fault);
    HeadNumber(env, d);
    DescendsStable(env, o, d.generations, d'.generations, HeadCommit(env, d), x);
    if d'.head != d.head {
      PublishFacts(env, d, m, ev, now);
      NewHeadNamed(env, d, m, ev, now, fault);
      if Descends(env, d'.generations, m.commitId, x) {
        ChildDescends(env, d'.generations, m.commitId, x);
      }
    }
  }

  // After a publication that reached HEAD, HEAD names the new child.
  lemma NewHeadNamed(env: Env, d: Disk, m: Manifest, ev: Evidence, now: int, fault: PublishFault)
    requires Generations.Sound(env) && CheckPublish(env, d, m, ev, now).Ok?
    requires Publish(env, d, m, ev, now, fault).1.head != d.head
    ensures var d' := Publish(env, d, m, ev, now, fault).1;
            && d'.head.Some? && ParseHead(env, d'.head.value).Some? && HeadCommit(env, d') == m.commitId
            && Parent(env, d'.generations, m.commitId) == Some(m.parent)
  {
    hide Verify, CheckPublish, ValidManifest, ValidPromotion, CandidateIntact, ParseHead;
    PublishFacts(env, d, m, ev, now);
    var p := CheckPublish(env, d, m, ev, now).value;
    ManifestNamed(env, m);
    HeadRoundTrip(env, HeadFor(env, m, p));
    var done := d.staging[m.commitId][PromotionFile := env.encodePromotion(p)];
    MaterialisedVerifies(env, d.staging[m.commitId], m, p);
    Unpinned(env, m.commitId, done, (ManifestHash(env, m), env.hash(env.encodePromotion(p))));
    ParentOfNew(env, d.generations, m, done);
  }

  lemma HeadRoundTrip(env: Env, h: HeadPointer)
    requires Generations.Sound(env) && ValidHead(env, h)
    ensures ParseHead(env, env.encodeHead(h)) == Some(h)
  {
  }

  lemma ParentOfNew(env: Env, g: Store, m: Manifest, done: Dir)
    requires VerifyDir(env, m.commitId, done, None) == Ok(m) && Required(m.commitId)
    ensures Parent(env, g[m.commitId := done], m.commitId) == Some(m.parent)
  {
    hide VerifyDir;
  }

  // A rollback that changes HEAD moves it to a proper ancestor.
  lemma RollbackMoves(w: World, o: Origin, s: Site, intake: Intake, auth: RecoveryAuthorization, t: Stamps, receiptId: string, f: Faults)
    requires Generations.Sound(w.env) && Grown(w.env, o, s.disk)
    requires Rollback(w, s, intake, auth, t, receiptId, f).1.disk.head != s.disk.head
    ensures var d' := Rollback(w, s, intake, auth, t, receiptId, f).1.disk;
            && d'.generations == s.disk.generations
            && d'.head.Some? && ParseHead(w.env, d'.head.value).Some? && HeadCommit(w.env, d') == auth.target
            && auth.target in s.disk.generations
            && ProperAncestor(w.env, s.disk.generations, auth.target, HeadCommit(w.env, s.disk))
  {
    hide Rooted, HeadSound, Rollback, CheckRollback, ParseHead, ProperAncestor;
    RollbackDisk(w, s, intake, auth, t, receiptId, f);
    HeadNumber(w.env, s.disk);
    MovedHeadSound(w.env, o, s.disk, intake, auth);
    RollbackAscends(w.env, o, s.disk, intake, auth);
  }

  // A rollback got as far as HEAD, whether or not it then reported success.
  predicate Moved(w: World, s: Site, rollback: Event)
    requires rollback.RollBackTo?
  {
    || Rollback(w, s, rollback.intake, rollback.auth, rollback.t, rollback.receiptId, rollback.faults).0.Ok?
    || Next(w, s, rollback).disk.head != s.disk.head
  }

  lemma RollbackPassed(w: World, s: Site, intake: Intake, auth: RecoveryAuthorization, t: Stamps, receiptId: string, f: Faults)
    requires Rollback(w, s, intake, auth, t, receiptId, f).0.Ok?
    ensures CheckRollback(w.env, s.disk, intake, auth).Ok?
    ensures Rollback(w, s, intake, auth, t, receiptId, f).1.disk ==
            s.disk.(head := Some(w.env.encodeHead(CheckRollback(w.env, s.disk, intake, auth).value)))
  {
    hide CheckRollback, A.Append;
  }

  // A rollback that reports success has changed HEAD: its target is numbered lower.
  lemma SuccessMoves(w: World, o: Origin, s: Site, rollback: Event)
    requires Generations.Sound(w.env) && Grown(w.env, o, s.disk) && rollback.RollBackTo?
    ensures Moved(w, s, rollback) <==> Next(w, s, rollback).disk.head != s.disk.head
  {
    hide Rooted, HeadSound, Rollback, CheckRollback, ParseHead;
    var intake, auth := rollback.intake, rollback.auth;
    if Rollback(w, s, intake, auth, rollback.t, rollback.receiptId, rollback.faults).0.Ok? {
      RollbackPassed(w, s, intake, auth, rollback.t, rollback.receiptId, rollback.faults);
      RollbackTarget(w.env, s.disk, intake, auth);
      MovedHeadSound(w.env, o, s.disk, intake, auth);
      HeadNumber(w.env, s.disk);
    }
  }

  lemma RollbackBound(env: Env, d: Disk, intake: Intake, auth: RecoveryAuthorization)
    requires CheckRollback(env, d, intake, auth).Ok?
    ensures Recovery.Bound(env, intake, auth) && auth.expectedExists == d.head.Some? && auth.expectedHash == HeadDigest(env, d)
  {
  }

  lemma StepKeepsLeft(w: World, o: Origin, s: Site, e: Event, x: string)
    requires Generations.Sound(w.env) && Inv(w.env, o, s.disk) && Left(w.env, s.disk, x)
    requires o.parent !in Next(w, s, e).disk.generations
    ensures Left(w.env, Next(w, s, e).disk, x)
  {
    hide Rooted, HeadSound, Rollback, Publish, CheckStage, Descends, ProperAncestor, ParseHead;
    match e
    case StageOne(_, _, _) =>
    case PublishOne(m, ev, now, fault) => PublishKeepsLeft(w.env, o, s.disk, m, ev, now, fault, x);
    case NoteIntake(_, _, _, _, _) =>
    case RollBackTo(intake, auth, t, receiptId, f) =>
      RollbackDisk(w, s, intake, auth, t, receiptId, f);
      if Next(w, s, e).disk.head != s.disk.head {
        RollbackMoves(w, o, s, intake, auth, t, receiptId, f);
        if Descends(w.env, s.disk.generations, auth.target, x) {
          AncestorDescends(w.env, s.disk.generations, HeadCommit(w.env, s.disk), auth.target, x);
        }
      }
  }

  lemma SparedBefore(w: World, o: Origin, s: Site, events: seq<Event>)
    requires events != [] && OriginSpared(w, o, s, events)
    ensures OriginSpared(w, o, s, events[..|events| - 1])
  {
    hide Next;
    StepGrows(w, Exec(w, s, events[..|events| - 1]), events[|events| - 1]);
  }

  lemma {:induction false} RunsKeepLeft(w: World, o: Origin, s: Site, events: seq<Event>, x: string)
    requires Generations.Sound(w.env) && Inv(w.env, o, s.disk) && OriginSpared(w, o, s, events) && Left(w.env, s.disk, x)
    ensures Left(w.env, Exec(w, s, events).disk, x)
    decreases |events|
  {
    hide Rooted, HeadSound, Next, Left;
    if events != [] {
      SparedBefore(w, o, s, events);
      RunsKeepLeft(w, o, s, events[..|events| - 1], x);
      RunsKeep(w, o, s, events[..|events| - 1]);
      StepKeepsLeft(w, o, Exec(w, s, events[..|events| - 1]), events[|events| - 1], x);
    }
  }

  // Once a rollback has moved HEAD off a generation, HEAD never again names that
  // generation or any descendant of it, although no list of used authorizations
  // is kept: as long as the bootstrap's parent id is never materialised.
  lemma NeverReturns(w: World, o: Origin, s: Site, rollback: Event, events: seq<Event>)
    requires Generations.Sound(w.env) && Inv(w.env, o, s.disk)
    requires rollback.RollBackTo? && Moved(w, s, rollback) && OriginSpared(w, o, Next(w, s, rollback), events)
    ensures s.disk.head.Some? && ParseHead(w.env, s.disk.head.value).Some?
    ensures Left(w.env, Exec(w, Next(w, s, rollback), events).disk, HeadCommit(w.env, s.disk))
  {
    hide Rooted, HeadSound, Rollback, Descends, ProperAncestor, ParseHead, Moved;
    HeadNumber(w.env, s.disk);
    SuccessMoves(w, o, s, rollback);
    var x := HeadCommit(w.env, s.disk);
    RollbackMoves(w, o, s, rollback.intake, rollback.auth, rollback.t, rollback.receiptId, rollback.faults);
    AncestorsDiffer(w.env, o, s.disk.generations, x, rollback.auth.target);
    StepKeeps(w, o, s, rollback);
    RunsKeepLeft(w, o, Next(w, s, rollback), events, x);
  }

  lemma LeftChanged(env: Env, d: Disk, d': Disk)
    requires d.head.Some? && ParseHead(env, d.head.value).Some? && Left(env, d', HeadCommit(env, d))
    ensures d'.head != d.head
  {
    assert Up(env, d'.generations, HeadCommit(env, d), 0) == Some(HeadCommit(env, d));
  }

  // So at most one rollback ever passes for one observed value of HEAD: any later
  // authorization bound to the same digest is refused.
  lemma OneRollbackPerObservation(w: World, o: Origin, s: Site, rollback: Event, events: seq<Event>,
                                  intake: Intake, auth: RecoveryAuthorization)
    requires Generations.Sound(w.env) && Inv(w.env, o, s.disk)
    requires rollback.RollBackTo? && Moved(w, s, rollback) && OriginSpared(w, o, Next(w, s, rollback), events)
    requires auth.expectedHash == rollback.auth.expectedHash
    ensures CheckRollback(w.env, Exec(w, Next(w, s, rollback), events).disk, intake, auth).Err?
  {
    hide Rooted, HeadSound, Exec, Next, Left, ParseHead, Moved;
    NeverReturns(w, o, s, rollback, events);
    SuccessMoves(w, o, s, rollback);
    var d' := Exec(w, Next(w, s, rollback), events).disk;
    LeftChanged(w.env, s.disk, d');
    RollbackObserved(w, s, rollback);
    if CheckRollback(w.env, d', intake, auth).Ok? {
      RollbackBound(w.env, d', intake, auth);
    }
  }

  lemma RollbackObserved(w: World, s: Site, rollback: Event)
    requires rollback.RollBackTo? && Next(w, s, rollback).disk.head != s.disk.head
    ensures rollback.auth.expectedHash == HeadDigest(w.env, s.disk)
  {
    hide CheckRollback, Rollback;
    RollbackDisk(w, s, rollback.intake, rollback.auth, rollback.t, rollback.receiptId, rollback.faults);
    RollbackBound(w.env, s.disk, rollback.intake, rollback.auth);
  }

  // The premise of a readable HEAD is needed: with HEAD lost or unreadable, an
  // authorization bound to that observation passes for any generation that
  // verifies, one that was rolled back from included.
  lemma WithoutHeadAnyTarget(env: Env, d: Disk, intake: Intake, auth: RecoveryAuthorization)
    requires CurrentHead(env, d).None? && Recovery.Bound(env, intake, auth)
    requires auth.expectedExists == d.head.Some? && auth.expectedHash == HeadDigest(env, d)
    ensures CheckRollback(env, d, intake, auth).Ok? <==> Verify(env, d.generations, auth.target, None).Ok?
  {
    hide Verify;
  }

  // ----- The audit trail of a rollback

  // The file after is the file before, a complete record of an attempt on the
  // target, and possibly more.
  predicate RecordsAttempt(before: A.Book, after: A.Book, target: string) {
    var n := |before.lines|;
    && n < |after.lines| && after.lines[..n] == before.lines && after.lines[n].Whole?
    && after.lines[n].entry.payload.kind == A.RollbackAttempted
    && after.lines[n].entry.payload.refs != [] && after.lines[n].entry.payload.refs[0] == target
  }

  lemma AttemptWritten(w: World, book: A.Book, auth: RecoveryAuthorization, intake: Intake, t: Stamps, f: A.LineFault)
    requires book.ended || book.lines == []
    requires AttemptEvent(w, book, auth, intake, t, f).0.Ok?
    ensures var after := AttemptEvent(w, book, auth, intake, t, f).1;
            after.ended && RecordsAttempt(book, after, auth.target)
  {
    hide A.ReadEvents, A.ValidEvent;
  }

  lemma AppendKeeps(w: World, book: A.Book, id: string, at: int, kind: A.EventType, refs: seq<string>, details: string, f: A.LineFault)
    requires book.ended
    ensures var after := A.Append(w.audit, book, id, at, kind, refs, details, f).1;
            |book.lines| <= |after.lines| && after.lines[..|book.lines|] == book.lines
  {
    hide A.ReadEvents, A.ValidEvent;
  }

  lemma RecordsMore(before: A.Book, middle: A.Book, after: A.Book, target: string)
    requires RecordsAttempt(before, middle, target)
    requires |middle.lines| <= |after.lines| && after.lines[..|middle.lines|] == middle.lines
    ensures RecordsAttempt(before, after, target)
  {
    var n := |before.lines|;
    assert after.lines[n] == after.lines[..|middle.lines|][n];
    assert after.lines[..n] == after.lines[..|middle.lines|][..n];
  }

  // When the audit file's last line was ended, a rollback that touches HEAD has
  // left a complete record of the attempt in the file first.
  lemma AttemptRecorded(w: World, s: Site, intake: Intake, auth: RecoveryAuthorization, t: Stamps, receiptId: string, f: Faults)
    requires s.book.ended || s.book.lines == []
    requires Rollback(w, s, intake, auth, t, receiptId, f).1.disk.head != s.disk.head
    ensures RecordsAttempt(s.book, Rollback(w, s, intake, auth, t, receiptId, f).1.book, auth.target)
  {
    hide CheckRollback, A.Append, RecordsAttempt, AttemptEvent;
    var (attempted, book) := AttemptEvent(w, s.book, auth, intake, t, f.attempt);
    AttemptWritten(w, s.book, auth, intake, t, f.attempt);
    var to := CheckRollback(w.env, s.disk, intake, auth).value;
    AppendKeeps(w, book, t.outcomeId, t.outcomeAt, A.RollbackFailed, [auth.target], f.cause, f.outcome);
    var note := "authorization=" + auth.authorizationId + ";creates_authority=false";
    AppendKeeps(w, book, t.outcomeId, t.outcomeAt, A.RollbackSucceeded, [to.commitId, receiptId], note, f.outcome);
    var after := Rollback(w, s, intake, auth, t, receiptId, f).1.book;
    if after != book {
      RecordsMore(s.book, book, after, auth.target);
    }
  }
}
