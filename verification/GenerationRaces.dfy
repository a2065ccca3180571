// Interleaved operations on one generation store, which takes no lock: every
// operation checks first, and then changes one directory entry at a time.
module GenerationRaces {
  import opened Base
  import opened Chains
  import opened Generations
  import opened Recovery
  import opened GenerationTree
  import R = GenerationRuns

  // What is left of a publication after its checks: the envelope, the directory, HEAD.
  datatype Phase = Checked | Enveloped | Materialised

  // An operation past its checks. It remembers the HEAD bytes it checked against,
  // and never looks at them again. One that dies simply takes no further step.
  datatype Op =
    | Staging(m: Manifest, dir: Dir)
    | Publishing(m: Manifest, p: Promotion, seen: Option<Bytes>, phase: Phase)
    | Returning(to: HeadPointer, seen: Option<Bytes>)
    | Finished

  datatype Desk = Desk(disk: Disk, ops: seq<Op>)

  datatype Event =
    | BeginStage(m: Manifest, payloads: map<string, Bytes>)
    | BeginPublish(m: Manifest, ev: Evidence, now: int)
    | BeginRollback(intake: Intake, auth: RecoveryAuthorization)
    | Advance(i: nat)
    | Tear(i: nat, partial: Bytes)

  // The staged directory an envelope goes into; a missing one is made.
  function Source(d: Disk, id: string): Dir {
    if id in d.staging then d.staging[id] else map[]
  }

  // The envelope is created exclusively: one that is there is an error.
  function WriteEnvelope(d: Disk, id: string, bytes: Bytes): Option<Disk> {
    var src := Source(d, id);
    if PromotionFile in src then None else Some(d.(staging := d.staging[id := src[PromotionFile := bytes]]))
  }

  // The next change of an operation, made on the disk as it is by then. Renaming a
  // directory onto one that exists is an error.
  function Work(env: Env, d: Disk, op: Op): (Disk, Op) {
    match op
    case Staging(m, dir) =>
      (if m.commitId in d.staging then d else d.(staging := d.staging[m.commitId := dir]), Finished)
    case Publishing(m, p, seen, Checked) =>
      (match WriteEnvelope(d, m.commitId, env.encodePromotion(p))
       case None => (d, Finished)
       case Some(d') => (d', Publishing(m, p, seen, Enveloped)))
    case Publishing(m, p, seen, Enveloped) =>
      if m.commitId !in d.staging || m.commitId in d.generations then (d, Finished)
      else (d.(staging := d.staging - {m.commitId}, generations := d.generations[m.commitId := d.staging[m.commitId]]),
            Publishing(m, p, seen, Materialised))
    case Publishing(m, p, seen, Materialised) => (d.(head := Some(env.encodeHead(HeadFor(env, m, p)))), Finished)
    case Returning(to, seen) => (d.(head := Some(env.encodeHead(to))), Finished)
    case Finished => (d, Finished)
  }

  // A write of the envelope that is cut short.
  function Torn(d: Disk, op: Op, partial: Bytes): Disk {
    if op.Publishing? && op.phase == Checked && WriteEnvelope(d, op.m.commitId, partial).Some?
    then WriteEnvelope(d, op.m.commitId, partial).value else d
  }

  function Next(env: Env, w: Desk, e: Event): Desk {
    match e
    case BeginStage(m, payloads) =>
      (match CheckStage(env, w.disk, m, payloads)
       case Err(_) => w
       case Ok(dir) => w.(ops := w.ops + [Staging(m, dir)]))
    case BeginPublish(m, ev, now) =>
      (match CheckPublish(env, w.disk, m, ev, now)
       case Err(_) => w
       case Ok(p) => w.(ops := w.ops + [Publishing(m, p, w.disk.head, Checked)]))
    case BeginRollback(intake, auth) =>
      (match CheckRollback(env, w.disk, intake, auth)
       case Err(_) => w
       case Ok(to) => w.(ops := w.ops + [Returning(to, w.disk.head)]))
    case Advance(i) =>
      if i >= |w.ops| then w
      else var (d, op) := Work(env, w.disk, w.ops[i]); Desk(d, w.ops[i := op])
    case Tear(i, partial) =>
      if i >= |w.ops| then w else Desk(Torn(w.disk, w.ops[i], partial), w.ops[i := Finished])
  }

  function Exec(env: Env, w: Desk, events: seq<Event>): Desk
    decreases |events|
  {
    if events == [] then w else Next(env, Exec(env, w, events[..|events| - 1]), events[|events| - 1])
  }

  // The bootstrap's parent id is still no generation when the run is over.
  predicate OriginSpared(env: Env, o: Origin, w: Desk, events: seq<Event>) {
    o.parent !in Exec(env, w, events).disk.generations
  }

  // ----- An operation that nothing comes between

  function Alone(env: Env, w: Desk, n: nat): Desk {
    if n == 0 then w else Next(env, Alone(env, w, n - 1), Advance(0))
  }

  // A staging and a rollback with nothing between check and write do what the store
  // object does: the directory appears under its name, HEAD is replaced.
  lemma UndisturbedStage(env: Env, d: Disk, m: Manifest, payloads: map<string, Bytes>)
    ensures Alone(env, Next(env, Desk(d, []), BeginStage(m, payloads)), 1).disk == Stage(env, d, m, payloads, NoFault).1
  {
    hide ValidManifest, PayloadsMatch, StagedDir;
    AloneSteps(env, Next(env, Desk(d, []), BeginStage(m, payloads)));
    if CheckStage(env, d, m, payloads).Ok? {
      var dir := CheckStage(env, d, m, payloads).value;
      assert Next(env, Desk(d, []), BeginStage(m, payloads)) == Desk(d, [Staging(m, dir)]);
    }
  }

  lemma UndisturbedRollback(env: Env, d: Disk, intake: Intake, auth: RecoveryAuthorization)
    ensures var r := CheckRollback(env, d, intake, auth);
            Alone(env, Next(env, Desk(d, []), BeginRollback(intake, auth)), 1).disk ==
            if r.Ok? then d.(head := Some(env.encodeHead(r.value))) else d
  {
    hide CheckRollback;
    AloneSteps(env, Next(env, Desk(d, []), BeginRollback(intake, auth)));
    if CheckRollback(env, d, intake, auth).Ok? {
      assert Next(env, Desk(d, []), BeginRollback(intake, auth)) == Desk(d, [Returning(CheckRollback(env, d, intake, auth).value, d.head)]);
    }
  }

  // Steps of one publication with nothing between them are the publication of the
  // store object, stopped where they stop.
  lemma UndisturbedPublish(env: Env, d: Disk, m: Manifest, ev: Evidence, now: int, fault: PublishFault)
    requires CheckPublish(env, d, m, ev, now).Ok?
    ensures var w := Next(env, Desk(d, []), BeginPublish(m, ev, now));
            Publish(env, d, m, ev, now, fault).1 ==
            match fault
            case EnvelopeNotWritten => w.disk
            case EnvelopeTorn(partial) => Next(env, w, Tear(0, partial)).disk
            case NotMaterialised => Alone(env, w, 1).disk
            case HeadNotWritten => Alone(env, w, 2).disk
            case _ => Alone(env, w, 3).disk
  {
    hide CheckPublish, Work, Torn, ValidManifest, ValidPromotion, CandidateIntact, Envelope, HeadFor;
    R.PublishFacts(env, d, m, ev, now);
    var p := CheckPublish(env, d, m, ev, now).value;
    var w := Next(env, Desk(d, []), BeginPublish(m, ev, now));
    assert w == Desk(d, [Publishing(m, p, d.head, Checked)]);
    if fault.EnvelopeTorn? {
      PublicationSteps(env, d, m, p, fault.partial);
    } else {
      PublicationSteps(env, d, m, p, []);
      AloneSteps(env, w);
    }
  }

  lemma AloneSteps(env: Env, w: Desk)
    ensures var w1 := Next(env, w, Advance(0)); var w2 := Next(env, w1, Advance(0));
            Alone(env, w, 1) == w1 && Alone(env, w, 2) == w2 && Alone(env, w, 3) == Next(env, w2, Advance(0))
  {
    hide Next;
    assert Alone(env, w, 1) == Next(env, Alone(env, w, 0), Advance(0));
    assert Alone(env, w, 2) == Next(env, Alone(env, w, 1), Advance(0));
  }

  // What the disk is after each step, in the words of the store object.
  lemma PublicationSteps(env: Env, d: Disk, m: Manifest, p: Promotion, partial: Bytes)
    requires m.commitId in d.staging && m.commitId !in d.generations && CandidateIntact(env, d.staging[m.commitId], m)
    ensures var d1 := WritePublication(env, d, m, p, NotMaterialised);
            var d2 := WritePublication(env, d, m, p, HeadNotWritten);
            && Torn(d, Publishing(m, p, d.head, Checked), partial) == WritePublication(env, d, m, p, EnvelopeTorn(partial))
            && Work(env, d, Publishing(m, p, d.head, Checked)) == (d1, Publishing(m, p, d.head, Enveloped))
            && Work(env, d1, Publishing(m, p, d.head, Enveloped)) == (d2, Publishing(m, p, d.head, Materialised))
            && Work(env, d2, Publishing(m, p, d.head, Materialised)) == (WritePublication(env, d, m, p, NoPublishFault), Finished)
  {
    hide HeadFor;
    assert PromotionFile !in d.staging[m.commitId].Keys;
    var done := d.staging[m.commitId][PromotionFile := env.encodePromotion(p)];
    assert d.staging[m.commitId := done] - {m.commitId} == d.staging - {m.commitId};
  }

  // ----- What every interleaving keeps

  predicate Reads(env: Env, seen: Option<Bytes>) {
    seen.Some? && ParseHead(env, seen.value).Some?
  }

  // The generation a HEAD named when it was checked.
  function Named(env: Env, seen: Option<Bytes>): string
    requires Reads(env, seen)
  {
    ParseHead(env, seen.value).value.commitId
  }

  // A candidate with this envelope beside it verifies.
  ghost predicate Done(env: Env, dir: Dir, m: Manifest, p: Promotion) {
    && VerifyDir(env, m.commitId, dir, Some((ManifestHash(env, m), env.hash(env.encodePromotion(p))))) == Ok(m)
    && ManifestFile in dir && dir[ManifestFile] == env.encodeManifest(m) && PromotionFile in dir
  }

  // The place of a publication in the tree, as it was checked.
  ghost predicate Placed(env: Env, g: Store, m: Manifest, p: Promotion, seen: Option<Bytes>) {
    && ValidManifest(env, m) && ValidPromotion(env, p)
    && p.commitId == m.commitId && p.manifestHash == ManifestHash(env, m)
    && p.caseId == m.caseId && p.decisionId == m.decisionId
    && Reads(env, seen) && Named(env, seen) == m.parent
    && m.parent in g && Verify(env, g, m.parent, None).Ok? && ManifestAt(env, g, m.parent).seqNo + 1 == m.seqNo
  }

  // Where its files are by now; they can be elsewhere only once a generation of
  // that name exists, and then it will get no further.
  ghost predicate Staged(env: Env, d: Disk, m: Manifest, p: Promotion, phase: Phase) {
    match phase
    case Checked =>
      m.commitId in d.generations
      || (m.commitId in d.staging
          && (PromotionFile in d.staging[m.commitId] || CandidateIntact(env, d.staging[m.commitId], m)))
    case Enveloped =>
      m.commitId in d.generations || (m.commitId in d.staging && Done(env, d.staging[m.commitId], m, p))
    case Materialised => m.commitId in d.generations && Done(env, d.generations[m.commitId], m, p)
  }

  // A HEAD that names a generation truly, and an ancestor of the one it replaces.
  ghost predicate Back(env: Env, g: Store, to: HeadPointer, seen: Option<Bytes>) {
    && ValidHead(env, to)
    && Verify(env, g, to.commitId, Some((to.manifestHash, to.promotionHash))).Ok?
    && Verify(env, g, to.commitId, Some((to.manifestHash, to.promotionHash))).value.seqNo == to.seqNo
    && Reads(env, seen) && Named(env, seen) in g && ProperAncestor(env, g, to.commitId, Named(env, seen))
  }

  ghost predicate OpSound(env: Env, d: Disk, op: Op) {
    match op
    case Staging(_, _) => true
    case Publishing(m, p, seen, phase) => Placed(env, d.generations, m, p, seen) && Staged(env, d, m, p, phase)
    case Returning(to, seen) => Back(env, d.generations, to, seen)
    case Finished => true
  }

  ghost predicate RaceInv(env: Env, o: Origin, w: Desk) {
    Grown(env, o, w.disk) && forall i :: 0 <= i < |w.ops| ==> OpSound(env, w.disk, w.ops[i])
  }

  // No step of anyone else spoils a staged directory: outside the generations,
  // entries stay, and gain at most an envelope.
  ghost predicate Forward(d: Disk, d': Disk) {
    && Grows(d.generations, d'.generations)
    && forall id :: id in d.staging && id !in d'.generations ==>
         && id in d'.staging
         && (d'.staging[id] == d.staging[id] || (PromotionFile !in d.staging[id] && PromotionFile in d'.staging[id]))
  }

  lemma StepForward(env: Env, w: Desk, e: Event)
    ensures Forward(w.disk, Next(env, w, e).disk)
  {
    hide CheckStage, CheckPublish, CheckRollback, Work, Torn, Forward;
    ForwardSame(w.disk);
    if (e.Advance? || e.Tear?) && e.i < |w.ops| {
      WorkForward(env, w.disk, w.ops[e.i]);
      if e.Tear? { TornForward(w.disk, w.ops[e.i], e.partial); }
    }
  }

  lemma ForwardSame(d: Disk)
    ensures Forward(d, d)
  {
  }

  lemma WorkForward(env: Env, d: Disk, op: Op)
    ensures Forward(d, Work(env, d, op).0)
  {
    hide HeadFor;
  }

  lemma TornForward(d: Disk, op: Op, partial: Bytes)
    ensures Forward(d, Torn(d, op, partial))
  {
  }

  lemma OpStays(env: Env, d: Disk, d': Disk, op: Op)
    requires Forward(d, d') && OpSound(env, d, op)
    ensures OpSound(env, d', op)
  {
    hide VerifyDir, ParseHead, ValidManifest, ValidPromotion, CandidateIntact, ProperAncestor, Named, Reads;
    if op.Returning? {
      AncestorGrows(env, d.generations, d'.generations, op.to.commitId, Named(env, op.seen));
    }
  }

  lemma PublishBegins(env: Env, o: Origin, d: Disk, m: Manifest, ev: Evidence, now: int)
    requires Grown(env, o, d) && CheckPublish(env, d, m, ev, now).Ok?
    ensures OpSound(env, d, Publishing(m, CheckPublish(env, d, m, ev, now).value, d.head, Checked))
  {
    hide CheckPublish, ParseHead, ValidManifest, ValidPromotion, CandidateIntact, Tree, VerifyDir;
    R.PublishFacts(env, d, m, ev, now);
    HeadNumber(env, d);
  }

  lemma RollbackBegins(env: Env, o: Origin, d: Disk, intake: Intake, auth: RecoveryAuthorization)
    requires Generations.Sound(env) && Grown(env, o, d) && CheckRollback(env, d, intake, auth).Ok?
    ensures OpSound(env, d, Returning(CheckRollback(env, d, intake, auth).value, d.head))
    ensures CheckRollback(env, d, intake, auth).value.commitId == auth.target
  {
    hide CheckRollback, ParseHead, Rooted, VerifyDir, ProperAncestor, ValidHead, ValidManifest;
    var to := CheckRollback(env, d, intake, auth).value;
    R.RollbackTarget(env, d, intake, auth);
    R.RolledBackVerifies(env, d, intake, auth);
    HeadNumber(env, d);
    RollbackAscends(env, o, d, intake, auth);
    RootedAt(env, o, d.generations, auth.target);
    R.HeadValid(env, ManifestAt(env, d.generations, auth.target), to);
  }

  // The envelope that is written makes a staged candidate one that verifies.
  lemma EnvelopeDone(env: Env, d: Disk, m: Manifest, p: Promotion, seen: Option<Bytes>)
    requires Generations.Sound(env) && OpSound(env, d, Publishing(m, p, seen, Checked))
    requires WriteEnvelope(d, m.commitId, env.encodePromotion(p)).Some?
    ensures Staged(env, WriteEnvelope(d, m.commitId, env.encodePromotion(p)).value, m, p, Enveloped)
  {
    hide ParseHead, ValidManifest, ValidPromotion, VerifyDir, Verify;
    if m.commitId !in d.generations {
      MaterialisedVerifies(env, d.staging[m.commitId], m, p);
    }
  }

  // The directory that is renamed becomes a generation grown from its parent.
  lemma Materialises(env: Env, o: Origin, d: Disk, m: Manifest, p: Promotion, seen: Option<Bytes>)
    requires Grown(env, o, d) && OpSound(env, d, Publishing(m, p, seen, Enveloped))
    requires m.commitId !in d.generations
    ensures m.commitId in d.staging && Rooted(env, o, d.generations[m.commitId := d.staging[m.commitId]])
  {
    var dir := d.staging[m.commitId];
    R.Unpinned(env, m.commitId, dir, (ManifestHash(env, m), env.hash(env.encodePromotion(p))));
    R.ManifestNamed(env, m);
    hide VerifyDir, ValidManifest, ValidPromotion, ParseHead, HeadSound;
    RootedGrows(env, o, d.generations, m.commitId, dir);
  }

  lemma NewHeadTrue(env: Env, d: Disk, m: Manifest, p: Promotion, seen: Option<Bytes>)
    requires Generations.Sound(env) && OpSound(env, d, Publishing(m, p, seen, Materialised))
    ensures var d' := d.(head := Some(env.encodeHead(HeadFor(env, m, p))));
            HeadSound(env, d') && ParseHead(env, d'.head.value) == Some(HeadFor(env, m, p))
    ensures Parent(env, d.generations, m.commitId) == Some(m.parent) && m.commitId in d.generations
  {
    R.ManifestNamed(env, m);
    R.Unpinned(env, m.commitId, d.generations[m.commitId], (ManifestHash(env, m), env.hash(env.encodePromotion(p))));
    hide VerifyDir, ValidManifest, ValidPromotion, ParseHead, HeadSound;
    R.NewHeadSound(env, d.(head := Some(env.encodeHead(HeadFor(env, m, p)))), HeadFor(env, m, p));
  }

  // One step of one operation keeps the tree and a sound HEAD, and leaves the
  // operation itself sound.
  lemma WorkKeeps(env: Env, o: Origin, d: Disk, op: Op)
    requires Generations.Sound(env) && Grown(env, o, d) && OpSound(env, d, op)
    ensures var (d', op') := Work(env, d, op); Grown(env, o, d') && OpSound(env, d', op')
  {
    hide Rooted, HeadSound, Placed, Staged, Back, Done, HeadFor, ParseHead;
    var (d', op') := Work(env, d, op);
    StepForward(env, Desk(d, [op]), Advance(0));
    match op
    case Staging(m, dir) => R.HeadElsewhere(env, d, d');
    case Publishing(m, p, seen, phase) => PublishingKeeps(env, o, d, m, p, seen, phase);
    case Returning(to, seen) =>
      BackSound(env, d, to, seen);
    case Finished =>
  }

  lemma BackSound(env: Env, d: Disk, to: HeadPointer, seen: Option<Bytes>)
    requires Generations.Sound(env) && Back(env, d.generations, to, seen)
    ensures var d' := d.(head := Some(env.encodeHead(to)));
            HeadSound(env, d') && ParseHead(env, d'.head.value) == Some(to)
    ensures to.commitId in d.generations
  {
    hide VerifyDir, ParseHead, HeadSound;
    R.NewHeadSound(env, d.(head := Some(env.encodeHead(to))), to);
  }

  lemma PublishingKeeps(env: Env, o: Origin, d: Disk, m: Manifest, p: Promotion, seen: Option<Bytes>, phase: Phase)
    requires Generations.Sound(env) && Grown(env, o, d) && OpSound(env, d, Publishing(m, p, seen, phase))
    ensures var (d', op') := Work(env, d, Publishing(m, p, seen, phase)); Grown(env, o, d') && OpSound(env, d', op')
  {
    hide Rooted, HeadSound, Done, HeadFor, ParseHead, CandidateIntact, VerifyDir, ValidManifest, ValidPromotion;
    var (d', op') := Work(env, d, Publishing(m, p, seen, phase));
    StepForward(env, Desk(d, [Publishing(m, p, seen, phase)]), Advance(0));
    match phase
    case Checked =>
      if op' != Finished {
        EnvelopeDone(env, d, m, p, seen);
        R.HeadElsewhere(env, d, d');
      }
    case Enveloped =>
      if op' != Finished {
        Materialises(env, o, d, m, p, seen);
        R.HeadElsewhere(env, d, d');
      }
    case Materialised => NewHeadTrue(env, d, m, p, seen);
  }

  lemma StepKeeps(env: Env, o: Origin, w: Desk, e: Event)
    requires Generations.Sound(env) && RaceInv(env, o, w)
    ensures RaceInv(env, o, Next(env, w, e))
  {
    hide Rooted, HeadSound, OpSound, CheckStage, CheckPublish, CheckRollback, Work, Torn;
    var w' := Next(env, w, e);
    StepForward(env, w, e);
    match e
    case BeginStage(m, payloads) =>
      if CheckStage(env, w.disk, m, payloads).Ok? {
        StagingSound(env, w.disk, m, CheckStage(env, w.disk, m, payloads).value);
      }
    case BeginPublish(m, ev, now) =>
      if CheckPublish(env, w.disk, m, ev, now).Ok? { PublishBegins(env, o, w.disk, m, ev, now); }
    case BeginRollback(intake, auth) =>
      if CheckRollback(env, w.disk, intake, auth).Ok? { RollbackBegins(env, o, w.disk, intake, auth); }
    case Advance(i) =>
      if i < |w.ops| {
        WorkKeeps(env, o, w.disk, w.ops[i]);
        OthersStay(env, o, w, w', i);
      }
    case Tear(i, partial) =>
      if i < |w.ops| {
        TornKeeps(env, o, w.disk, w.ops[i], partial);
        OthersStay(env, o, w, w', i);
      }
  }

  lemma StagingSound(env: Env, d: Disk, m: Manifest, dir: Dir)
    ensures OpSound(env, d, Staging(m, dir))
  {
  }

  lemma OthersStay(env: Env, o: Origin, w: Desk, w': Desk, i: nat)
    requires RaceInv(env, o, w) && Forward(w.disk, w'.disk)
    requires |w'.ops| == |w.ops| && forall k :: 0 <= k < |w.ops| && k != i ==> w'.ops[k] == w.ops[k]
    ensures forall k :: 0 <= k < |w.ops| && k != i ==> OpSound(env, w'.disk, w'.ops[k])
  {
    hide Rooted, HeadSound, OpSound, Forward;
    forall k | 0 <= k < |w.ops| && k != i ensures OpSound(env, w'.disk, w'.ops[k]) {
      OpStays(env, w.disk, w'.disk, w.ops[k]);
    }
  }

  lemma TornKeeps(env: Env, o: Origin, d: Disk, op: Op, partial: Bytes)
    requires Grown(env, o, d) && OpSound(env, d, op)
    ensures Grown(env, o, Torn(d, op, partial)) && OpSound(env, Torn(d, op, partial), Finished)
  {
    hide Rooted, HeadSound, ParseHead, Verify, Staged, ValidManifest, ValidPromotion;
    R.HeadElsewhere(env, d, Torn(d, op, partial));
  }

  // Over every interleaving of stages, publications and rollbacks, any of which may
  // die anywhere or tear its envelope: HEAD can be read and names a generation that
  // verifies, every generation has its parent, and none ever changes; and they form
  // the tree exactly as long as the bootstrap's parent id is not materialised.
  lemma {:induction false} RacesKeep(env: Env, o: Origin, w: Desk, events: seq<Event>)
    requires Generations.Sound(env) && RaceInv(env, o, w)
    ensures RaceInv(env, o, Exec(env, w, events))
    ensures Inv(env, o, Exec(env, w, events).disk) <==> OriginSpared(env, o, w, events)
    ensures Grows(w.disk.generations, Exec(env, w, events).disk.generations)
    decreases |events|
  {
    hide Rooted, HeadSound, OpSound, Next;
    if events != [] {
      var n := |events| - 1;
      RacesKeep(env, o, w, events[..n]);
      StepKeeps(env, o, Exec(env, w, events[..n]), events[n]);
      StepForward(env, Exec(env, w, events[..n]), events[n]);
    }
  }

  // ----- Nothing names a generation before its own publication writes HEAD

  predicate Pending(op: Op) {
    op.Publishing? && op.phase == Materialised
  }

  // Neither HEAD nor a manifest nor an operation in progress points at it.
  ghost predicate Unnamed(env: Env, w: Desk, id: string) {
    && Reads(env, w.disk.head) && Named(env, w.disk.head) != id
    && (forall y :: y in w.disk.generations ==> Parent(env, w.disk.generations, y) != Some(id))
    && forall i :: 0 <= i < |w.ops| ==> PointsElsewhere(w.ops[i], id)
  }

  predicate PointsElsewhere(op: Op, id: string) {
    (op.Publishing? ==> op.m.parent != id) && (op.Returning? ==> op.to.commitId != id)
  }

  ghost predicate PendingUnnamed(env: Env, w: Desk) {
    && (forall i :: 0 <= i < |w.ops| && Pending(w.ops[i]) ==> Unnamed(env, w, w.ops[i].m.commitId))
    && forall i, k :: 0 <= i < k < |w.ops| && Pending(w.ops[i]) && Pending(w.ops[k]) ==> w.ops[i].m.commitId != w.ops[k].m.commitId
  }

  // What has a descendant has a child.
  lemma HasChild(env: Env, g: Store, x: string, from: string)
    requires ProperAncestor(env, g, x, from)
    ensures exists y :: y in g && Parent(env, g, y) == Some(x)
  {
    hide Up, VerifyDir;
    var n: nat :| n >= 1 && Up(env, g, from, n) == Some(x);
    UpStep(env, g, from, n - 1);
  }

  lemma ParentsStay(env: Env, g: Store, g': Store)
    requires Grows(g, g')
    ensures forall y :: y in g ==> Parent(env, g', y) == Parent(env, g, y)
  {
    hide VerifyDir;
  }

  // A generation that has just appeared is named by nothing.
  lemma NewUnnamed(env: Env, o: Origin, w: Desk, id: string)
    requires RaceInv(env, o, w) && id !in w.disk.generations && id != o.parent
    ensures Unnamed(env, w, id)
  {
    hide Rooted, Parent, VerifyDir, ParseHead;
    HeadNumber(env, w.disk);
    forall y | y in w.disk.generations ensures Parent(env, w.disk.generations, y) != Some(id) {
      ParentInside(env, o, w.disk.generations, y);
    }
    forall i | 0 <= i < |w.ops| ensures PointsElsewhere(w.ops[i], id) {
      assert OpSound(env, w.disk, w.ops[i]);
    }
  }

  lemma BeginUnnamed(env: Env, o: Origin, w: Desk, op: Op, id: string)
    requires RaceInv(env, o, w) && OpSound(env, w.disk, op) && Unnamed(env, w, id)
    requires op.Publishing? || op.Returning? ==> op.seen == w.disk.head
    ensures Unnamed(env, w.(ops := w.ops + [op]), id)
  {
    hide Rooted, Parent, VerifyDir, ParseHead, ProperAncestor;
    if op.Returning? && op.to.commitId == id {
      HasChild(env, w.disk.generations, id, Named(env, w.disk.head));
    }
  }

  // What one step of operation i may do to what points at id.
  lemma WorkUnnamed(env: Env, o: Origin, w: Desk, i: nat, id: string)
    requires Generations.Sound(env) && RaceInv(env, o, w) && i < |w.ops| && Unnamed(env, w, id)
    requires Pending(w.ops[i]) ==> w.ops[i].m.commitId != id
    ensures Unnamed(env, Next(env, w, Advance(i)), id)
  {
    hide Rooted, HeadSound, Parent, ParseHead, OpSound;
    var (d', op') := Work(env, w.disk, w.ops[i]);
    assert OpSound(env, w.disk, w.ops[i]) && PointsElsewhere(w.ops[i], id);
    WorkKeeps(env, o, w.disk, w.ops[i]);
    WorkNames(env, o, w.disk, w.ops[i], id);
    StepForward(env, Desk(w.disk, [w.ops[i]]), Advance(0));
    ParentsStay(env, w.disk.generations, d'.generations);
    hide Work;
  }

  // The HEAD a step writes, and the generation it adds, point where its operation does.
  lemma WorkNames(env: Env, o: Origin, d: Disk, op: Op, id: string)
    requires Generations.Sound(env) && Grown(env, o, d) && OpSound(env, d, op) && PointsElsewhere(op, id)
    requires Pending(op) ==> op.m.commitId != id
    ensures var (d', op') := Work(env, d, op);
            && PointsElsewhere(op', id)
            && (d'.head != d.head ==> Reads(env, d'.head) && Named(env, d'.head) != id)
            && (forall y :: y in d'.generations && y !in d.generations ==> Parent(env, d'.generations, y) != Some(id))
  {
    hide Rooted, HeadSound, ParseHead, Parent;
    if Pending(op) {
      NewHeadTrue(env, d, op.m, op.p, op.seen);
    } else if op.Returning? {
      BackSound(env, d, op.to, op.seen);
    } else if op.Publishing? && op.phase == Enveloped {
      WorkKeeps(env, o, d, op);
      var (d', op') := Work(env, d, op);
      if op' != Finished { ChildOf(env, d', op'.m, op'.p, op'.seen); }
    }
  }

  lemma ChildOf(env: Env, d: Disk, m: Manifest, p: Promotion, seen: Option<Bytes>)
    requires OpSound(env, d, Publishing(m, p, seen, Materialised))
    ensures Parent(env, d.generations, m.commitId) == Some(m.parent)
  {
    R.ManifestNamed(env, m);
    R.Unpinned(env, m.commitId, d.generations[m.commitId], (ManifestHash(env, m), env.hash(env.encodePromotion(p))));
    hide VerifyDir, ValidManifest, ValidPromotion, ParseHead;
  }

  // An operation that comes to have its directory materialised had none before.
  lemma PendingIsNew(env: Env, d: Disk, op: Op)
    requires OpSound(env, d, op) && Pending(Work(env, d, op).1)
    ensures op.Publishing? && op.phase == Enveloped && Work(env, d, op).1.m == op.m
    ensures op.m.commitId !in d.generations && op.m.commitId in Work(env, d, op).0.generations
  {
    hide VerifyDir, ValidManifest, ValidPromotion, ParseHead;
  }

  lemma StepUnnamed(env: Env, o: Origin, w: Desk, e: Event)
    requires Generations.Sound(env) && RaceInv(env, o, w) && PendingUnnamed(env, w)
    requires o.parent !in Next(env, w, e).disk.generations
    ensures PendingUnnamed(env, Next(env, w, e))
  {
    hide Unnamed, OpSound, Grown, CheckStage, CheckPublish, CheckRollback, Work, Torn;
    match e
    case BeginStage(m, payloads) =>
      if CheckStage(env, w.disk, m, payloads).Ok? {
        StagingSound(env, w.disk, m, CheckStage(env, w.disk, m, payloads).value);
        BegunUnnamed(env, o, w, Staging(m, CheckStage(env, w.disk, m, payloads).value));
      }
    case BeginPublish(m, ev, now) =>
      if CheckPublish(env, w.disk, m, ev, now).Ok? {
        PublishBegins(env, o, w.disk, m, ev, now);
        BegunUnnamed(env, o, w, Publishing(m, CheckPublish(env, w.disk, m, ev, now).value, w.disk.head, Checked));
      }
    case BeginRollback(intake, auth) =>
      if CheckRollback(env, w.disk, intake, auth).Ok? {
        RollbackBegins(env, o, w.disk, intake, auth);
        BegunUnnamed(env, o, w, Returning(CheckRollback(env, w.disk, intake, auth).value, w.disk.head));
      }
    case Advance(i) => if i < |w.ops| { AdvanceUnnamed(env, o, w, i); }
    case Tear(i, partial) => if i < |w.ops| { TearUnnamed(env, w, i, partial); }
  }

  lemma BegunUnnamed(env: Env, o: Origin, w: Desk, op: Op)
    requires RaceInv(env, o, w) && OpSound(env, w.disk, op) && PendingUnnamed(env, w) && !Pending(op)
    requires op.Publishing? || op.Returning? ==> op.seen == w.disk.head
    ensures PendingUnnamed(env, w.(ops := w.ops + [op]))
  {
    hide Unnamed, OpSound, RaceInv;
    var w' := w.(ops := w.ops + [op]);
    forall i | 0 <= i < |w'.ops| && Pending(w'.ops[i]) ensures Unnamed(env, w', w'.ops[i].m.commitId) {
      assert w'.ops[i] == w.ops[i];
      BeginUnnamed(env, o, w, op, w.ops[i].m.commitId);
    }
  }

  lemma AdvanceUnnamed(env: Env, o: Origin, w: Desk, i: nat)
    requires Generations.Sound(env) && RaceInv(env, o, w) && i < |w.ops| && PendingUnnamed(env, w)
    requires o.parent !in Next(env, w, Advance(i)).disk.generations
    ensures PendingUnnamed(env, Next(env, w, Advance(i)))
  {
    hide Unnamed, Grown, OpSound, Work;
    var w' := Next(env, w, Advance(i));
    var op, op' := w.ops[i], w'.ops[i];
    assert OpSound(env, w.disk, op);
    if Pending(op') {
      PendingIsNew(env, w.disk, op);
      NewUnnamed(env, o, w, op.m.commitId);
      WorkUnnamed(env, o, w, i, op.m.commitId);
    }
    forall k | 0 <= k < |w.ops| && k != i && Pending(w.ops[k]) ensures Unnamed(env, w', w.ops[k].m.commitId) {
      WorkUnnamed(env, o, w, i, w.ops[k].m.commitId);
    }
    forall k | 0 <= k < |w.ops| && k != i && Pending(w.ops[k]) && Pending(op')
      ensures w.ops[k].m.commitId != op'.m.commitId
    {
      assert OpSound(env, w.disk, w.ops[k]);
      PendingMaterialised(env, w.disk, w.ops[k]);
    }
  }

  lemma PendingMaterialised(env: Env, d: Disk, op: Op)
    requires OpSound(env, d, op) && Pending(op)
    ensures op.m.commitId in d.generations
  {
    hide Done, Placed;
  }

  lemma TearUnnamed(env: Env, w: Desk, i: nat, partial: Bytes)
    requires i < |w.ops| && PendingUnnamed(env, w)
    ensures PendingUnnamed(env, Next(env, w, Tear(i, partial)))
  {
    hide Parent, ParseHead;
    var w' := Next(env, w, Tear(i, partial));
    forall k | 0 <= k < |w'.ops| && Pending(w'.ops[k]) ensures Unnamed(env, w', w'.ops[k].m.commitId) {
      assert k != i && w'.ops[k] == w.ops[k];
    }
  }

  lemma SparedBefore(env: Env, o: Origin, w: Desk, events: seq<Event>)
    requires events != [] && OriginSpared(env, o, w, events)
    ensures OriginSpared(env, o, w, events[..|events| - 1])
  {
    hide Next;
    StepForward(env, Exec(env, w, events[..|events| - 1]), events[|events| - 1]);
  }

  // In every interleaving, a materialised generation whose own publication has yet
  // to write HEAD is named by nothing else.
  lemma {:induction false} RacesKeepUnnamed(env: Env, o: Origin, w: Desk, events: seq<Event>)
    requires Generations.Sound(env) && RaceInv(env, o, w) && OriginSpared(env, o, w, events) && PendingUnnamed(env, w)
    ensures PendingUnnamed(env, Exec(env, w, events))
    decreases |events|
  {
    hide RaceInv, Next, PendingUnnamed;
    if events != [] {
      var n := |events| - 1;
      SparedBefore(env, o, w, events);
      RacesKeepUnnamed(env, o, w, events[..n]);
      RacesKeep(env, o, w, events[..n]);
      StepUnnamed(env, o, Exec(env, w, events[..n]), events[n]);
    }
  }

  // ----- A generation that was rolled back from

  // HEAD does not descend from x, and no publication of x itself is about to write it.
  ghost predicate Gone(env: Env, w: Desk, x: string) {
    R.Left(env, w.disk, x) && forall i :: 0 <= i < |w.ops| && Pending(w.ops[i]) ==> w.ops[i].m.commitId != x
  }

  // The operation's next step replaces HEAD.
  predicate WritesHead(op: Op) {
    Pending(op) || op.Returning?
  }

  // HEAD is replaced only while it is what the replacing operation checked against.
  predicate Steady(w: Desk, e: Event) {
    e.Advance? && e.i < |w.ops| && WritesHead(w.ops[e.i]) ==> w.ops[e.i].seen == w.disk.head
  }

  ghost predicate SteadyRun(env: Env, w: Desk, events: seq<Event>)
    decreases |events|
  {
    events != [] ==>
      var n := |events| - 1;
      SteadyRun(env, w, events[..n]) && Steady(Exec(env, w, events[..n]), events[n])
  }

  // A child descends from what its parent descends from, and from itself.
  lemma ChildDescendsIff(env: Env, g: Store, child: string, x: string)
    requires Parent(env, g, child).Some? && child != x
    ensures Descends(env, g, child, x) <==> Descends(env, g, Parent(env, g, child).value, x)
  {
    hide Up, Parent;
    if Descends(env, g, child, x) {
      R.ChildDescends(env, g, child, x);
    }
    if n: nat :| Up(env, g, Parent(env, g, child).value, n) == Some(x) {
      UpShift(env, g, child, n);
    }
  }

  // What the write of HEAD leaves.
  predicate HeadIs(env: Env, w: Desk, w': Desk, i: nat, commit: string)
    requires i < |w.ops|
  {
    && w'.disk.generations == w.disk.generations && w'.ops == w.ops[i := Finished]
    && Reads(env, w'.disk.head) && Named(env, w'.disk.head) == commit
  }

  lemma PublicationLeaves(env: Env, w: Desk, i: nat)
    requires Generations.Sound(env) && i < |w.ops| && Pending(w.ops[i]) && OpSound(env, w.disk, w.ops[i])
    ensures HeadIs(env, w, Next(env, w, Advance(i)), i, w.ops[i].m.commitId)
    ensures Parent(env, w.disk.generations, w.ops[i].m.commitId) == Some(w.ops[i].m.parent)
    ensures Reads(env, w.ops[i].seen) && Named(env, w.ops[i].seen) == w.ops[i].m.parent
  {
    hide ParseHead, HeadSound, Parent, VerifyDir, ValidManifest, ValidPromotion;
    NewHeadTrue(env, w.disk, w.ops[i].m, w.ops[i].p, w.ops[i].seen);
  }

  lemma ReturnLeaves(env: Env, w: Desk, i: nat)
    requires Generations.Sound(env) && i < |w.ops| && w.ops[i].Returning? && OpSound(env, w.disk, w.ops[i])
    ensures HeadIs(env, w, Next(env, w, Advance(i)), i, w.ops[i].to.commitId) && w.ops[i].to.commitId in w.disk.generations
    ensures Reads(env, w.ops[i].seen)
            && ProperAncestor(env, w.disk.generations, w.ops[i].to.commitId, Named(env, w.ops[i].seen))
  {
    hide ParseHead, HeadSound, VerifyDir, ProperAncestor;
    BackSound(env, w.disk, w.ops[i].to, w.ops[i].seen);
  }

  lemma GoneByHead(env: Env, w: Desk, w': Desk, i: nat, commit: string, x: string)
    requires Gone(env, w, x) && i < |w.ops| && HeadIs(env, w, w', i, commit)
    ensures Gone(env, w', x) <==> !Descends(env, w.disk.generations, commit, x)
  {
    hide Descends, ParseHead;
    forall k | 0 <= k < |w'.ops| && Pending(w'.ops[k]) ensures w'.ops[k].m.commitId != x {
      assert k != i && w'.ops[k] == w.ops[k];
    }
  }

  // The exact condition for a late publication: when it replaces HEAD, a generation
  // that HEAD had left stays left if and only if the HEAD it checked against did not
  // descend from that generation.
  lemma LateWriteIff(env: Env, o: Origin, w: Desk, i: nat, x: string)
    requires Generations.Sound(env) && RaceInv(env, o, w) && Gone(env, w, x) && i < |w.ops| && Pending(w.ops[i])
    ensures Reads(env, w.ops[i].seen)
    ensures Gone(env, Next(env, w, Advance(i)), x) <==> !Descends(env, w.disk.generations, Named(env, w.ops[i].seen), x)
  {
    hide Next, Descends, Parent, Grown, OpSound, Reads, Named, HeadIs;
    assert OpSound(env, w.disk, w.ops[i]) && w.ops[i].m.commitId != x;
    hide Gone, RaceInv;
    PublicationLeaves(env, w, i);
    GoneByHead(env, w, Next(env, w, Advance(i)), i, w.ops[i].m.commitId, x);
    ChildDescendsIff(env, w.disk.generations, w.ops[i].m.commitId, x);
  }

  // And for a late rollback: exactly if its target does not descend from it, which
  // holds whenever the HEAD it checked against did not.
  lemma LateReturnIff(env: Env, o: Origin, w: Desk, i: nat, x: string)
    requires Generations.Sound(env) && RaceInv(env, o, w) && Gone(env, w, x) && i < |w.ops| && w.ops[i].Returning?
    ensures Reads(env, w.ops[i].seen)
    ensures Gone(env, Next(env, w, Advance(i)), x) <==> !Descends(env, w.disk.generations, w.ops[i].to.commitId, x)
    ensures !Descends(env, w.disk.generations, Named(env, w.ops[i].seen), x) ==> Gone(env, Next(env, w, Advance(i)), x)
  {
    hide Next, Descends, ProperAncestor, Grown, OpSound, Reads, Named, HeadIs, Gone;
    assert OpSound(env, w.disk, w.ops[i]);
    hide RaceInv;
    ReturnLeaves(env, w, i);
    GoneByHead(env, w, Next(env, w, Advance(i)), i, w.ops[i].to.commitId, x);
    if Descends(env, w.disk.generations, w.ops[i].to.commitId, x) {
      R.AncestorDescends(env, w.disk.generations, Named(env, w.ops[i].seen), w.ops[i].to.commitId, x);
    }
  }

  // The event replaces HEAD by a descendant of x: a publication that checked against
  // one, or a rollback to one.
  ghost predicate Harmful(env: Env, w: Desk, e: Event, x: string) {
    && e.Advance? && e.i < |w.ops|
    && var op := w.ops[e.i];
    || (Pending(op) && Reads(env, op.seen) && Descends(env, w.disk.generations, Named(env, op.seen), x))
    || (op.Returning? && Descends(env, w.disk.generations, op.to.commitId, x))
  }

  // One event of a generation that was left: it stays left unless HEAD is replaced so.
  lemma StepGoneIff(env: Env, o: Origin, w: Desk, e: Event, x: string)
    requires Generations.Sound(env) && RaceInv(env, o, w) && Gone(env, w, x)
    requires o.parent !in Next(env, w, e).disk.generations
    ensures Gone(env, Next(env, w, e), x) <==> !Harmful(env, w, e, x)
    ensures Gone(env, Next(env, w, e), x) <==> R.Left(env, Next(env, w, e).disk, x)
  {
    hide Descends, ParseHead, Grown, OpSound, R.Left;
    if e.Advance? && e.i < |w.ops| {
      hide Next, Gone;
      if Pending(w.ops[e.i]) {
        LateWriteIff(env, o, w, e.i, x);
      } else if w.ops[e.i].Returning? {
        LateReturnIff(env, o, w, e.i, x);
      } else {
        QuietKeepsGone(env, o, w, e.i, x);
      }
      GoneIsLeft(env, w, e.i, x);
    } else {
      BeginKeepsGone(env, w, e, x);
    }
  }

  lemma BeginKeepsGone(env: Env, w: Desk, e: Event, x: string)
    requires Gone(env, w, x) && (e.Advance? ==> e.i >= |w.ops|)
    ensures Gone(env, Next(env, w, e), x)
  {
    hide Descends, ParseHead, CheckStage, CheckPublish, CheckRollback;
  }

  // No step brings a publication of x itself up to HEAD.
  lemma GoneIsLeft(env: Env, w: Desk, i: nat, x: string)
    requires Gone(env, w, x) && i < |w.ops|
    ensures Gone(env, Next(env, w, Advance(i)), x) <==> R.Left(env, Next(env, w, Advance(i)).disk, x)
  {
    hide Descends, ParseHead, HeadFor;
  }

  // A step that does not touch HEAD.
  lemma QuietKeepsGone(env: Env, o: Origin, w: Desk, i: nat, x: string)
    requires Generations.Sound(env) && RaceInv(env, o, w) && Gone(env, w, x) && i < |w.ops| && !WritesHead(w.ops[i])
    requires o.parent !in Next(env, w, Advance(i)).disk.generations
    ensures Gone(env, Next(env, w, Advance(i)), x)
  {
    hide Descends, ParseHead, Rooted, HeadSound, OpSound;
    var op, w' := w.ops[i], Next(env, w, Advance(i));
    assert OpSound(env, w.disk, op);
    StepForward(env, w, Advance(i));
    QuietHead(env, w.disk, op);
    HeadNumber(env, w.disk);
    R.DescendsStable(env, o, w.disk.generations, w'.disk.generations, Named(env, w.disk.head), x);
    GoneIsLeft(env, w, i, x);
  }

  lemma QuietHead(env: Env, d: Disk, op: Op)
    requires !WritesHead(op)
    ensures Work(env, d, op).0.head == d.head
  {
  }

  // HEAD descends from x at no moment of the run.
  ghost predicate AlwaysLeft(env: Env, w: Desk, events: seq<Event>, x: string)
    decreases |events|
  {
    R.Left(env, Exec(env, w, events).disk, x) && (events != [] ==> AlwaysLeft(env, w, events[..|events| - 1], x))
  }

  ghost predicate Harmless(env: Env, w: Desk, events: seq<Event>, x: string)
    decreases |events|
  {
    events != [] ==>
      var n := |events| - 1;
      Harmless(env, w, events[..n], x) && !Harmful(env, Exec(env, w, events[..n]), events[n], x)
  }

  // Over whole runs, exactly: a generation that was left is never named again, nor is
  // any descendant of it, if and only if no publication that checked against one of
  // them, and no rollback to one of them, replaces HEAD.
  lemma {:induction false} AlwaysLeftIff(env: Env, o: Origin, w: Desk, events: seq<Event>, x: string)
    requires Generations.Sound(env) && RaceInv(env, o, w) && OriginSpared(env, o, w, events) && Gone(env, w, x)
    ensures AlwaysLeft(env, w, events, x) <==> Harmless(env, w, events, x)
    ensures Harmless(env, w, events, x) ==> Gone(env, Exec(env, w, events), x)
    decreases |events|
  {
    hide RaceInv, Next, Harmful, Descends, ParseHead;
    if events != [] {
      var n := |events| - 1;
      SparedBefore(env, o, w, events);
      AlwaysLeftIff(env, o, w, events[..n], x);
      RacesKeep(env, o, w, events[..n]);
      if Harmless(env, w, events[..n], x) {
        StepGoneIff(env, o, Exec(env, w, events[..n]), events[n], x);
      }
    }
  }

  // A HEAD that stands still between check and write does no harm.
  lemma SteadyHarmless(env: Env, o: Origin, w: Desk, e: Event, x: string)
    requires Generations.Sound(env) && RaceInv(env, o, w) && Gone(env, w, x) && Steady(w, e)
    ensures !Harmful(env, w, e, x)
  {
    hide Descends, ParseHead, Grown, OpSound, ProperAncestor;
    if e.Advance? && e.i < |w.ops| && w.ops[e.i].Returning? {
      assert OpSound(env, w.disk, w.ops[e.i]);
      ReturnLeaves(env, w, e.i);
      if Descends(env, w.disk.generations, w.ops[e.i].to.commitId, x) {
        R.AncestorDescends(env, w.disk.generations, Named(env, w.ops[e.i].seen), w.ops[e.i].to.commitId, x);
      }
    }
  }

  lemma {:induction false} SteadyRunHarmless(env: Env, o: Origin, w: Desk, events: seq<Event>, x: string)
    requires Generations.Sound(env) && RaceInv(env, o, w) && OriginSpared(env, o, w, events) && Gone(env, w, x)
    requires SteadyRun(env, w, events)
    ensures Harmless(env, w, events, x)
    decreases |events|
  {
    hide RaceInv, Next, Harmful, Gone, Steady;
    if events != [] {
      var n := |events| - 1;
      SparedBefore(env, o, w, events);
      SteadyRunHarmless(env, o, w, events[..n], x);
      AlwaysLeftIff(env, o, w, events[..n], x);
      RacesKeep(env, o, w, events[..n]);
      SteadyHarmless(env, o, Exec(env, w, events[..n]), events[n], x);
    }
  }

  // A rollback that replaces the HEAD it checked against leaves that generation.
  lemma ReturnLeavesHead(env: Env, o: Origin, w: Desk, i: nat)
    requires Generations.Sound(env) && RaceInv(env, o, w) && PendingUnnamed(env, w) && o.parent !in w.disk.generations
    requires i < |w.ops| && w.ops[i].Returning? && Steady(w, Advance(i))
    ensures Reads(env, w.disk.head) && Gone(env, Next(env, w, Advance(i)), Named(env, w.disk.head))
  {
    hide Descends, ParseHead, Rooted, HeadSound, ProperAncestor, OpSound, Next;
    HeadNumber(env, w.disk);
    var x := Named(env, w.disk.head);
    var w1 := Next(env, w, Advance(i));
    assert OpSound(env, w.disk, w.ops[i]);
    ReturnLeaves(env, w, i);
    AncestorsDiffer(env, o, w.disk.generations, x, w.ops[i].to.commitId);
    forall k | 0 <= k < |w1.ops| && Pending(w1.ops[k]) ensures w1.ops[k].m.commitId != x {
      assert w1.ops[k] == w.ops[k] && Unnamed(env, w, w.ops[k].m.commitId);
    }
  }

  // After a rollback, in every interleaving: HEAD never again names the generation it
  // was rolled back off, nor a descendant, if and only if no late publication or
  // rollback of the run brings back a descendant; so never while HEAD does not move
  // between any operation's check and its own write.
  lemma NeverReturnsIff(env: Env, o: Origin, w: Desk, i: nat, events: seq<Event>)
    requires Generations.Sound(env) && RaceInv(env, o, w) && PendingUnnamed(env, w)
    requires i < |w.ops| && w.ops[i].Returning? && Steady(w, Advance(i))
    requires OriginSpared(env, o, Next(env, w, Advance(i)), events)
    ensures Reads(env, w.disk.head)
    ensures var w1, x := Next(env, w, Advance(i)), Named(env, w.disk.head);
            && (AlwaysLeft(env, w1, events, x) <==> Harmless(env, w1, events, x))
            && (SteadyRun(env, w1, events) ==> AlwaysLeft(env, w1, events, x) && Gone(env, Exec(env, w1, events), x))
  {
    hide RaceInv, PendingUnnamed, AlwaysLeft, Harmless, SteadyRun, Gone, Next, Exec, ParseHead;
    var w1 := Next(env, w, Advance(i));
    StepKeeps(env, o, w, Advance(i));
    RacesKeep(env, o, w1, events);
    StepForward(env, w, Advance(i));
    ReturnLeavesHead(env, o, w, i);
    var x := Named(env, w.disk.head);
    AlwaysLeftIff(env, o, w1, events, x);
    if SteadyRun(env, w1, events) {
      SteadyRunHarmless(env, o, w1, events, x);
    }
  }

  // Three undisturbed steps bring a checked publication to HEAD, whatever HEAD has
  // become since the check.
  lemma PublishesAnyway(env: Env, o: Origin, w: Desk, i: nat)
    requires Generations.Sound(env) && RaceInv(env, o, w) && i < |w.ops| && w.ops[i].Publishing? && w.ops[i].phase == Checked
    requires var id := w.ops[i].m.commitId;
             id in w.disk.staging && PromotionFile !in w.disk.staging[id] && id !in w.disk.generations
    ensures var w3 := Next(env, Next(env, Next(env, w, Advance(i)), Advance(i)), Advance(i));
            && RaceInv(env, o, w3) && Reads(env, w3.disk.head) && Named(env, w3.disk.head) == w.ops[i].m.commitId
            && Parent(env, w3.disk.generations, w.ops[i].m.commitId) == Some(w.ops[i].m.parent)
  {
    hide Grown, OpSound, ParseHead, Parent, HeadFor;
    var w1 := Next(env, w, Advance(i));
    var w2 := Next(env, w1, Advance(i));
    assert w1.ops[i] == w.ops[i].(phase := Enveloped);
    assert w2.ops[i] == w.ops[i].(phase := Materialised);
    hide Next, Work;
    StepKeeps(env, o, w, Advance(i));
    StepKeeps(env, o, w1, Advance(i));
    StepKeeps(env, o, w2, Advance(i));
    PublicationLeaves(env, w2, i);
  }

  // The race: a publication checks against HEAD, a rollback moves HEAD off that
  // generation, and the publication goes on. HEAD then names a child of the
  // generation it was rolled back off.
  lemma RaceReturns(env: Env, o: Origin, d: Disk, m: Manifest, ev: Evidence, now: int, intake: Intake, auth: RecoveryAuthorization)
    requires Generations.Sound(env) && Inv(env, o, d)
    requires CheckPublish(env, d, m, ev, now).Ok? && CheckRollback(env, d, intake, auth).Ok?
    ensures Reads(env, d.head)
    ensures var x := Named(env, d.head);
            var begun := Next(env, Next(env, Desk(d, []), BeginPublish(m, ev, now)), BeginRollback(intake, auth));
            var back := Next(env, begun, Advance(1));
            var late := Next(env, Next(env, Next(env, back, Advance(0)), Advance(0)), Advance(0));
            && Reads(env, back.disk.head) && Named(env, back.disk.head) == auth.target && Gone(env, back, x)
            && Reads(env, late.disk.head) && Named(env, late.disk.head) == m.commitId
            && Parent(env, late.disk.generations, m.commitId) == Some(x) && !Gone(env, late, x)
  {
    hide CheckPublish, CheckRollback, Rooted, HeadSound, ParseHead, Parent, OpSound, Descends, ValidManifest, ValidPromotion, VerifyDir;
    var p, to := CheckPublish(env, d, m, ev, now).value, CheckRollback(env, d, intake, auth).value;
    var begun := Next(env, Next(env, Desk(d, []), BeginPublish(m, ev, now)), BeginRollback(intake, auth));
    var back := Next(env, begun, Advance(1));
    assert begun == Desk(d, [Publishing(m, p, d.head, Checked), Returning(to, d.head)]);
    assert back.disk.staging == d.staging && back.disk.generations == d.generations && back.ops[0] == begun.ops[0];
    R.PublishFacts(env, d, m, ev, now);
    assert PromotionFile !in d.staging[m.commitId].Keys;
    BegunSound(env, o, d, m, ev, now, intake, auth);
    hide Next, Work, Gone, CandidateIntact;
    ReturnLeavesHead(env, o, begun, 1);
    ReturnLeaves(env, begun, 1);
    StepKeeps(env, o, begun, Advance(1));
    PublishesAnyway(env, o, back, 0);
    var late := Next(env, Next(env, Next(env, back, Advance(0)), Advance(0)), Advance(0));
    ParentNotLeft(env, late, m.commitId, Named(env, d.head));
  }

  lemma BegunSound(env: Env, o: Origin, d: Disk, m: Manifest, ev: Evidence, now: int, intake: Intake, auth: RecoveryAuthorization)
    requires Generations.Sound(env) && Grown(env, o, d)
    requires CheckPublish(env, d, m, ev, now).Ok? && CheckRollback(env, d, intake, auth).Ok?
    ensures var p, to := CheckPublish(env, d, m, ev, now).value, CheckRollback(env, d, intake, auth).value;
            var w := Desk(d, [Publishing(m, p, d.head, Checked), Returning(to, d.head)]);
            RaceInv(env, o, w) && PendingUnnamed(env, w) && to.commitId == auth.target
  {
    hide CheckPublish, CheckRollback, Grown, OpSound, Unnamed;
    PublishBegins(env, o, d, m, ev, now);
    RollbackBegins(env, o, d, intake, auth);
  }

  lemma ParentNotLeft(env: Env, w: Desk, child: string, x: string)
    requires Reads(env, w.disk.head) && Named(env, w.disk.head) == child
    requires Parent(env, w.disk.generations, child) == Some(x)
    ensures !Gone(env, w, x)
  {
    hide Up, Parent, ParseHead;
    UpStep(env, w.disk.generations, child, 0);
    assert Up(env, w.disk.generations, child, 1) == Some(x);
  }
}
