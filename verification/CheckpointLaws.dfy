// What the checkpoint protocol keeps: crash safety of a save, fallback to the
// parent, loads that are all or nothing, and a HEAD free of legacy state.
module CheckpointLaws {
  import opened Base
  import opened Chains
  import opened Checkpoint

  // A generation id drawn fresh: no file of it exists and HEAD does not name it.
  predicate Fresh(env: Env, d: Disk, g: GenId) {
    && g != "" && g !in d.payloads && g !in d.manifests
    && (d.head.Some? && ReadHead(env, d.head.value).Some? ==>
          var h := ReadHead(env, d.head.value).value; g != h.current && h.previous != Some(g))
  }

  // What a load that meets no apply failure restores: the chosen generation's
  // parts, or none when there is no HEAD.
  function Restored(env: Env, d: Disk): Result<Option<Parts>, Error> {
    match Chosen(env, d)
    case Err(e) => Err(e)
    case Ok(None) => Ok(None)
    case Ok(Some(c)) => Ok(Some(c.2))
  }

  // ----- What a choice depends on

  // The two disks have the same files for a generation.
  predicate SameFiles(a: Disk, b: Disk, id: GenId) {
    && (id in a.payloads <==> id in b.payloads) && (id in a.payloads ==> a.payloads[id] == b.payloads[id])
    && (id in a.manifests <==> id in b.manifests) && (id in a.manifests ==> a.manifests[id] == b.manifests[id])
  }

  lemma SameValidation(env: Env, a: Disk, b: Disk, id: GenId, expected: Option<(string, nat)>)
    requires SameFiles(a, b, id)
    ensures ReadManifest(env, a, id, expected) == ReadManifest(env, b, id, expected)
    ensures ValidateGeneration(env, a, id, expected) == ValidateGeneration(env, b, id, expected)
  {
  }

  // A choice depends on HEAD and on the files of the two generations it names.
  lemma SameChoice(env: Env, a: Disk, b: Disk, h: Head)
    requires SameFiles(a, b, h.current) && (h.previous.Some? ==> SameFiles(a, b, h.previous.value))
    ensures Choose(env, a, h) == Choose(env, b, h)
  {
    SameValidation(env, a, b, h.current, Some((h.commitId, h.seqNo)));
    if h.previous.Some? {
      SameValidation(env, a, b, h.previous.value, None);
    }
  }

  lemma SameChosen(env: Env, a: Disk, b: Disk)
    requires a.head == b.head
    requires a.head.Some? && ReadHead(env, a.head.value).Some? ==>
               var h := ReadHead(env, a.head.value).value;
               SameFiles(a, b, h.current) && (h.previous.Some? ==> SameFiles(a, b, h.previous.value))
    ensures Chosen(env, a) == Chosen(env, b)
  {
    hide Choose;
    if a.head.Some? && ReadHead(env, a.head.value).Some? {
      SameChoice(env, a, b, ReadHead(env, a.head.value).value);
    }
  }

  // ----- Crash safety of a save

  // The new generation on disk, as the save itself reads it back.
  lemma NewGenerationValid(env: Env, d: Disk, parts: Parts, g: GenId, commitId: string, chosen: Option<(Head, GenId, Parts)>)
    requires Sound(env) && g != "" && commitId != "" && (chosen.Some? ==> chosen.value.1 != "")
    requires var payload := env.encodePayload(parts); var m := NewManifest(env, payload, g, commitId, chosen);
             && g in d.payloads && d.payloads[g] == payload && g in d.manifests && d.manifests[g] == env.encodeManifest(m)
    ensures var m := NewManifest(env, env.encodePayload(parts), g, commitId, chosen);
            ValidateGeneration(env, d, g, Some((commitId, m.seqNo))) == Ok((parts, m))
  {
  }

  // A chosen generation has a name and is one of the two HEAD gives.
  lemma ChosenNamed(env: Env, d: Disk)
    requires Chosen(env, d).Ok? && Chosen(env, d).value.Some?
    ensures var (h, id, parts) := Chosen(env, d).value.value;
            && d.head.Some? && ReadHead(env, d.head.value) == Some(h) && id != "" && h.current != ""
            && (id == h.current || h.previous == Some(id))
            && ((ValidateGeneration(env, d, id, None).Ok? && ValidateGeneration(env, d, id, None).value.0 == parts))
  {
    hide ReadPayload, ManifestFits;
  }

  lemma NewHeadReads(env: Env, m: Manifest)
    requires Sound(env) && m.generationId != "" && m.parent != Some("") && m.parent != Some(m.generationId)
    requires m.commitId != "" && m.protocol != ""
    ensures ReadHead(env, env.encodeHead(NewHead(m))) == Some(NewHead(m))
  {
  }

  // Cut anywhere before HEAD is replaced, a save leaves the choice as it was.
  lemma CutBeforeHead(env: Env, d: Disk, taint: bool, parts: Parts, g: GenId, commitId: string, cut: Cut)
    requires Fresh(env, d, g) && !cut.AfterHead?
    ensures var d' := Save(env, d, taint, parts, g, commitId, cut).1;
            Chosen(env, d') == Chosen(env, d) && d'.legacy == d.legacy
  {
    hide Chosen, ReadHead, ValidateGeneration;
    SameChosen(env, d, Save(env, d, taint, parts, g, commitId, cut).1);
  }

  // The disk right after HEAD was replaced, with the prune as far as it got.
  lemma HeadReplaced(env: Env, d: Disk, parts: Parts, g: GenId, commitId: string, cut: Cut)
    requires Sound(env) && Fresh(env, d, g) && commitId != "" && cut.AfterHead? && Chosen(env, d).Ok?
    ensures var d' := Save(env, d, false, parts, g, commitId, cut).1; var chosen := Chosen(env, d).value;
            var m := NewManifest(env, env.encodePayload(parts), g, commitId, chosen);
            && d'.head == Some(env.encodeHead(NewHead(m))) && ReadHead(env, d'.head.value) == Some(NewHead(m))
            && Candidate(env, d', NewHead(m), Current) == Ok((g, parts))
            && ReadManifest(env, d', g, Some((m.commitId, m.seqNo))) == Ok(m)
            && (chosen.Some? ==> SameFiles(d', d, chosen.value.1))
            && (Save(env, d, false, parts, g, commitId, cut).0.Ok? <==> cut.finished)
  {
    var chosen := Chosen(env, d).value;
    if chosen.Some? { ChosenNamed(env, d); }
    var payload := env.encodePayload(parts);
    var m := NewManifest(env, payload, g, commitId, chosen);
    var d2 := d.(payloads := d.payloads[g := payload], manifests := d.manifests[g := env.encodeManifest(m)]);
    NewGenerationValid(env, d2, parts, g, commitId, chosen);
    var d' := Save(env, d, false, parts, g, commitId, cut).1;
    hide Chosen, ReadHead, ManifestFits, ReadPayload;
    assert g in Keep(g, chosen);
    assert SameFiles(d', d2, g);
    SameValidation(env, d', d2, g, Some((commitId, m.seqNo)));
    NewHeadReads(env, m);
    if chosen.Some? {
      assert chosen.value.1 in Keep(g, chosen) && chosen.value.1 != g;
    }
  }

  // Stop a save after any disk step: if HEAD was not replaced, a following load
  // restores what it would have restored before; otherwise exactly the saved state.
  lemma CrashSafe(env: Env, d: Disk, taint: bool, parts: Parts, g: GenId, commitId: string, cut: Cut)
    requires Sound(env) && Fresh(env, d, g) && commitId != ""
    ensures var d' := Save(env, d, taint, parts, g, commitId, cut).1;
            Restored(env, d') == if d'.head == d.head then Restored(env, d) else Ok(Some(parts))
    ensures var d' := Save(env, d, taint, parts, g, commitId, cut).1;
            d'.head != d.head <==> cut.AfterHead? && !taint && Chosen(env, d).Ok?
  {
    hide ReadHead, Candidate, ValidateGeneration, ReadManifest;
    if cut.AfterHead? && !taint && Chosen(env, d).Ok? {
      HeadReplaced(env, d, parts, g, commitId, cut);
    } else if !cut.AfterHead? {
      CutBeforeHead(env, d, taint, parts, g, commitId, cut);
    }
  }

  // ----- Pruning

  // A save never touches the files of the generations that the old or the new
  // HEAD names, except by adding the new ones.
  lemma PruneSpares(env: Env, d: Disk, taint: bool, parts: Parts, g: GenId, commitId: string, cut: Cut, id: GenId)
    requires Fresh(env, d, g) && Chosen(env, d).Ok? && Chosen(env, d).value.Some?
    requires var h := Chosen(env, d).value.value.0; id == h.current || h.previous == Some(id)
    ensures SameFiles(Save(env, d, taint, parts, g, commitId, cut).1, d, id)
  {
    hide Chosen, Save, SameFiles, ReadHead;
    ChosenNamed(env, d);
    SaveSpares(env, d, taint, parts, g, commitId, cut, id);
  }

  // A save touches the files of its own generation and of those it does not keep.
  lemma SaveSpares(env: Env, d: Disk, taint: bool, parts: Parts, g: GenId, commitId: string, cut: Cut, id: GenId)
    requires Chosen(env, d).Ok? && id in Keep(g, Chosen(env, d).value) && id != g
    ensures SameFiles(Save(env, d, taint, parts, g, commitId, cut).1, d, id)
  {
    hide Chosen, ValidateGeneration, Keep, NewManifest, NewHead;
  }

  lemma KeepSize(env: Env, d: Disk, g: GenId)
    requires Chosen(env, d).Ok?
    ensures |Keep(g, Chosen(env, d).value)| <= 3
  {
    var chosen := Chosen(env, d).value;
    if chosen.Some? {
      ChosenNamed(env, d);
      hide Chosen, ReadHead, ValidateGeneration;
      var h := chosen.value.0;
      assert Keep(g, chosen) == if h.previous.Some? then {g, h.current, h.previous.value} else {g, h.current};
    }
  }

  // A save whose unlinks all succeed leaves at most three payload files.
  lemma AtMostThree(env: Env, d: Disk, parts: Parts, g: GenId, commitId: string, gone: Unlinked)
    requires Save(env, d, false, parts, g, commitId, AfterHead(gone, true)).0.Ok?
    requires d.payloads.Keys <= gone.payloads
    ensures |Save(env, d, false, parts, g, commitId, AfterHead(gone, true)).1.payloads| <= 3
  {
    hide Chosen, ValidateGeneration, Keep;
    var d' := Save(env, d, false, parts, g, commitId, AfterHead(gone, true)).1;
    var keep := Keep(g, Chosen(env, d).value);
    NewKept(g, Chosen(env, d).value);
    assert d'.payloads.Keys <= keep;
    SubsetSize(d'.payloads.Keys, keep);
    KeepSize(env, d, g);
  }

  lemma NewKept(g: GenId, chosen: Option<(Head, GenId, Parts)>)
    ensures g in Keep(g, chosen)
  {
  }

  // ----- Fallback

  // After a committed save, HEAD's previous generation is the parent in the current
  // manifest; and if the current payload alone is then damaged in any way, a load
  // restores what it would have restored before the save.
  lemma FallbackIsParent(env: Env, d: Disk, parts: Parts, g: GenId, commitId: string, cut: Cut, hurt: Disk)
    requires Sound(env) && Fresh(env, d, g) && commitId != "" && cut.AfterHead? && Chosen(env, d).Ok? && Chosen(env, d).value.Some?
    requires var d' := Save(env, d, false, parts, g, commitId, cut).1;
             && hurt.head == d'.head && hurt.manifests == d'.manifests
             && (forall id :: id != g ==> (id in hurt.payloads <==> id in d'.payloads)
                                          && (id in d'.payloads ==> hurt.payloads[id] == d'.payloads[id]))
    requires Candidate(env, hurt, NewHead(NewManifest(env, env.encodePayload(parts), g, commitId, Chosen(env, d).value)), Current).Err?
    ensures Restored(env, hurt) == Restored(env, d)
  {
    hide ReadHead, ManifestFits, ReadPayload;
    HeadReplaced(env, d, parts, g, commitId, cut);
    ChosenNamed(env, d);
    var d' := Save(env, d, false, parts, g, commitId, cut).1;
    var chosen := Chosen(env, d).value;
    var m := NewManifest(env, env.encodePayload(parts), g, commitId, chosen);
    var p := chosen.value.1;
    hide Save, Chosen;
    ParentDiffers(env, d, g);
    SameValidation(env, hurt, d, p, None);
    assert ReadManifest(env, hurt, g, Some((m.commitId, m.seqNo))) == Ok(m);
  }

  lemma ParentDiffers(env: Env, d: Disk, g: GenId)
    requires Fresh(env, d, g) && Chosen(env, d).Ok? && Chosen(env, d).value.Some?
    ensures Chosen(env, d).value.value.1 != g
  {
    ChosenNamed(env, d);
  }

  // Any change to a payload's bytes is noticed.
  lemma DamageNoticed(env: Env, d: Disk, hurt: Disk, id: GenId, expected: Option<(string, nat)>)
    requires Injective(env.hash) && ValidateGeneration(env, d, id, expected).Ok?
    requires hurt.manifests == d.manifests && (id in hurt.payloads ==> hurt.payloads[id] != d.payloads[id])
    ensures ValidateGeneration(env, hurt, id, expected).Err?
  {
  }

  // ----- Selection agrees

  // Load, the status report and the parent choice of a save name the same
  // generation, for every disk and every live state.
  lemma LoadRestoresChoice(env: Env, d: Disk, m: Model, allowLegacy: bool)
    requires d.head.Some?
    ensures var (r, m') := Load(env, d, m, allowLegacy, ApplyClean, ApplyClean);
            match Chosen(env, d)
            case Ok(Some(c)) => r.Ok? && m' == Model(Applied(m.live, c.2), false)
            case _ => r.Err? && m' == m
  {
    hide Candidate, ReadHead;
  }

  // ----- Loads are all or nothing

  // m' is m with the parts of one validated candidate, and the taint lifted.
  predicate TookCandidate(env: Env, d: Disk, role: Role, m: Model, m': Model) {
    && d.head.Some? && ReadHead(env, d.head.value).Some?
    && var v := Candidate(env, d, ReadHead(env, d.head.value).value, role);
    && v.Ok? && m' == Model(Applied(m.live, v.value.1), false)
  }

  // m' is m with the parts of the single legacy file, and tainted.
  predicate TookLegacy(env: Env, d: Disk, m: Model, m': Model) {
    && d.head.None? && d.legacy.Some? && env.decodePayload(d.legacy.value).Some?
    && m' == Model(Applied(m.live, env.decodePayload(d.legacy.value).value), true)
  }

  // Whatever stage an apply fails at, as long as the in-memory restore succeeds,
  // a load that fails changes nothing, and one that succeeds leaves one validated
  // candidate's parts, or the legacy file's, or had nothing to load.
  lemma LoadAllOrNothing(env: Env, d: Disk, m: Model, allowLegacy: bool, first: ApplyFault, second: ApplyFault)
    requires Restores(first) && Restores(second)
    ensures var (r, m') := Load(env, d, m, allowLegacy, first, second);
            && (r.Err? ==> m' == m)
            && (r.Ok? ==> || TookCandidate(env, d, Current, m, m') || TookCandidate(env, d, Previous, m, m')
                          || (allowLegacy && TookLegacy(env, d, m, m'))
                          || (d.head.None? && d.legacy.None? && m' == m))
  {
    hide Candidate, ReadHead;
  }

  // ----- Legacy state and the taint flag

  // Where each live part comes from.
  datatype Origin = Clean | Legacy

  datatype Provenance = Provenance(model: Origin, optimizer: Origin, recurrent: Origin)

  const CLEAN := Provenance(Clean, Clean, Clean)

  function AppliedFrom(was: Provenance, p: Parts, from: Origin): Provenance {
    Provenance(from, if p.optimizer.Some? then from else was.optimizer, from)
  }

  function MixedFrom(first: Provenance, rest: Provenance, stage: nat): Provenance {
    Provenance(if stage >= 1 then first.model else rest.model,
               if stage >= 2 then first.optimizer else rest.optimizer,
               if stage >= 3 then first.recurrent else rest.recurrent)
  }

  // Where the live parts come from after an attempt to apply p, whatever goes wrong.
  function AppliedUnder(was: Provenance, p: Parts, from: Origin, f: ApplyFault): Provenance {
    match f
    case ApplyClean => AppliedFrom(was, p, from)
    case ApplyStops(stage, restored) =>
      if restored.None? then was else MixedFrom(was, MixedFrom(AppliedFrom(was, p, from), was, stage), restored.value)
  }

  // Provenance moves with the values: after an attempt every part is either the
  // one that was live, with its origin, or the one applied, with its own.
  lemma PartsFollow(live: Live, p: Parts, was: Provenance, from: Origin, f: ApplyFault)
    ensures var live', now := Apply(live, p, f).1, AppliedUnder(was, p, from, f);
            && ((live'.model, now.model) == (live.model, was.model) || (live'.model, now.model) == (p.model, from))
            && (|| (live'.optimizer, now.optimizer) == (live.optimizer, was.optimizer)
                || (p.optimizer.Some? && (live'.optimizer, now.optimizer) == (p.optimizer.value, from)))
            && (|| (live'.recurrent, now.recurrent) == (live.recurrent, was.recurrent)
                || (live'.recurrent, now.recurrent) == (p.recurrent, from))
  {
  }

  // A step of training reads every part and writes every part.
  function Trained(was: Provenance): Provenance {
    if was == CLEAN then CLEAN else Provenance(Legacy, Legacy, Legacy)
  }

  datatype World = World(disk: Disk, model: Model, from: Provenance, committed: seq<Provenance>)

  datatype Event =
    | Train(live: Live)
    | SaveAs(g: GenId, commitId: string, cut: Cut)
    | LoadFrom(allowLegacy: bool, first: ApplyFault, second: ApplyFault)

  function RoleFrom(env: Env, d: Disk, h: Head, role: Role, was: Provenance, f: ApplyFault): Provenance {
    match Candidate(env, d, h, role) case Err(_) => was case Ok(v) => AppliedUnder(was, v.1, Clean, f)
  }

  // The provenance a load leaves.
  function LoadedFrom(env: Env, w: World, allowLegacy: bool, first: ApplyFault, second: ApplyFault): Provenance {
    match w.disk.head
    case Some(raw) =>
      (match ReadHead(env, raw)
       case None => w.from
       case Some(h) =>
         var after := RoleFrom(env, w.disk, h, Current, w.from, first);
         if Candidate(env, w.disk, h, Current).Ok? && first.ApplyClean? then after
         else RoleFrom(env, w.disk, h, Previous, after, second))
    case None =>
      if w.disk.legacy.Some? && allowLegacy && env.decodePayload(w.disk.legacy.value).Some?
      then AppliedUnder(w.from, env.decodePayload(w.disk.legacy.value).value, Legacy, first)
      else w.from
  }

  function Next(env: Env, w: World, e: Event): World {
    match e
    case Train(live) => w.(model := w.model.(live := live), from := Trained(w.from))
    case SaveAs(g, commitId, cut) =>
      var d' := Save(env, w.disk, w.model.taint, Parts(w.model.live.model, Some(w.model.live.optimizer), w.model.live.recurrent),
                     g, commitId, cut).1;
      w.(disk := d', committed := if d'.head != w.disk.head then w.committed + [w.from] else w.committed)
    case LoadFrom(allowLegacy, first, second) =>
      w.(model := Load(env, w.disk, w.model, allowLegacy, first, second).1,
         from := LoadedFrom(env, w, allowLegacy, first, second))
  }

  function Exec(env: Env, w: World, events: seq<Event>): World
    decreases |events|
  {
    if events == [] then w else Next(env, Exec(env, w, events[..|events| - 1]), events[|events| - 1])
  }

  // A failed apply that sets a part and does not put it back.
  predicate Leaves(p: Parts, f: ApplyFault) {
    && f.ApplyStops? && f.restored.Some?
    && (|| (f.stage >= 1 && f.restored.value < 1)
        || (f.stage >= 2 && f.restored.value < 2 && p.optimizer.Some?)
        || (f.stage >= 3 && f.restored.value < 3))
  }

  // A legacy load that is let through, fails to apply, and leaves a part of the
  // legacy file live while the taint flag is down.
  predicate Exposes(env: Env, w: World, e: Event) {
    && e.LoadFrom? && e.allowLegacy && !w.model.taint && w.disk.head.None? && w.disk.legacy.Some?
    && env.decodePayload(w.disk.legacy.value).Some? && Leaves(env.decodePayload(w.disk.legacy.value).value, e.first)
  }

  // The generations HEAD can lead to carry optimizer state.
  predicate Complete(env: Env, d: Disk) {
    d.head.Some? && ReadHead(env, d.head.value).Some? ==>
      var h := ReadHead(env, d.head.value).value;
      && (Candidate(env, d, h, Current).Ok? ==> Candidate(env, d, h, Current).value.1.optimizer.Some?)
      && (Candidate(env, d, h, Previous).Ok? ==> Candidate(env, d, h, Previous).value.1.optimizer.Some?)
  }

  predicate AllClean(committed: seq<Provenance>) {
    forall i :: 0 <= i < |committed| ==> committed[i] == CLEAN
  }

  // Without the taint flag nothing live is legacy, and nothing legacy was ever
  // behind a HEAD written.
  ghost predicate Untainted(env: Env, w: World) {
    && Complete(env, w.disk) && AllClean(w.committed)
    && (!w.model.taint ==> w.from == CLEAN)
  }

  // The candidates after a save carry optimizer state if those before it did.
  lemma SaveKeepsComplete(env: Env, d: Disk, taint: bool, parts: Parts, g: GenId, commitId: string, cut: Cut)
    requires Sound(env) && Fresh(env, d, g) && commitId != "" && parts.optimizer.Some? && Complete(env, d)
    ensures Complete(env, Save(env, d, taint, parts, g, commitId, cut).1)
  {
    hide ReadHead, ManifestFits, ReadPayload;
    var d' := Save(env, d, taint, parts, g, commitId, cut).1;
    if taint || Chosen(env, d).Err? {
      assert d' == d;
    } else if !cut.AfterHead? {
      SaveFiles(env, d, taint, parts, g, commitId, cut);
      SameCandidates(env, d, d');
    } else {
      HeadReplaced(env, d, parts, g, commitId, cut);
      if Chosen(env, d).value.Some? { ChosenParts(env, d); }
      NewPrevious(env, d, parts, g, commitId, cut);
    }
  }

  lemma SaveFiles(env: Env, d: Disk, taint: bool, parts: Parts, g: GenId, commitId: string, cut: Cut)
    requires Fresh(env, d, g) && !cut.AfterHead?
    ensures var d' := Save(env, d, taint, parts, g, commitId, cut).1;
            d'.head == d.head && forall id :: id != g ==> SameFiles(d, d', id)
  {
    hide Chosen, ReadHead, ValidateGeneration;
  }

  lemma SameCandidates(env: Env, a: Disk, b: Disk)
    requires a.head == b.head
    requires a.head.Some? && ReadHead(env, a.head.value).Some? ==>
               var h := ReadHead(env, a.head.value).value;
               SameFiles(a, b, h.current) && (h.previous.Some? ==> SameFiles(a, b, h.previous.value))
    ensures Complete(env, a) == Complete(env, b)
  {
    if a.head.Some? && ReadHead(env, a.head.value).Some? {
      var h := ReadHead(env, a.head.value).value;
      SameValidation(env, a, b, h.current, Some((h.commitId, h.seqNo)));
      if h.previous.Some? { SameValidation(env, a, b, h.previous.value, None); }
    }
  }

  lemma ChosenParts(env: Env, d: Disk)
    requires Complete(env, d) && Chosen(env, d).Ok? && Chosen(env, d).value.Some?
    ensures Chosen(env, d).value.value.2.optimizer.Some?
  {
    hide Candidate;
  }

  // The previous candidate of a new HEAD is the parent that was chosen.
  lemma NewPrevious(env: Env, d: Disk, parts: Parts, g: GenId, commitId: string, cut: Cut)
    requires Sound(env) && Fresh(env, d, g) && commitId != "" && cut.AfterHead? && Chosen(env, d).Ok?
    ensures var d' := Save(env, d, false, parts, g, commitId, cut).1; var chosen := Chosen(env, d).value;
            var h := NewHead(NewManifest(env, env.encodePayload(parts), g, commitId, chosen));
            Candidate(env, d', h, Previous) ==
            if chosen.Some? then Ok((chosen.value.1, chosen.value.2)) else Err(NoFallback)
  {
    HeadReplaced(env, d, parts, g, commitId, cut);
    var d' := Save(env, d, false, parts, g, commitId, cut).1;
    var chosen := Chosen(env, d).value;
    if chosen.Some? {
      ChosenNamed(env, d);
      SameValidation(env, d', d, chosen.value.1, None);
    }
    hide Chosen, Save, ReadManifest, ReadPayload, ReadHead;
  }

  // Whatever fails where, a load leaves legacy parts live without the taint flag
  // exactly when it is a legacy load that exposes them; that load is refused, and
  // the parts it leaves are the legacy file's.
  lemma FailedRestoreLeavesLegacy(env: Env, w: World, allowLegacy: bool, first: ApplyFault, second: ApplyFault)
    requires Untainted(env, w)
    ensures var e := LoadFrom(allowLegacy, first, second); var w' := Next(env, w, e);
            && (!w'.model.taint && w'.from != CLEAN <==> Exposes(env, w, e))
            && (Exposes(env, w, e) ==> Load(env, w.disk, w.model, allowLegacy, first, second).0.Err?)
            && (Exposes(env, w, e) ==>
                  var p := env.decodePayload(w.disk.legacy.value).value;
                  && (w'.from.model == Legacy ==> w'.model.live.model == p.model)
                  && (w'.from.optimizer == Legacy ==> p.optimizer == Some(w'.model.live.optimizer))
                  && (w'.from.recurrent == Legacy ==> w'.model.live.recurrent == p.recurrent))
  {
    hide Candidate, ReadHead;
  }

  lemma LoadKeepsUntainted(env: Env, w: World, allowLegacy: bool, first: ApplyFault, second: ApplyFault)
    requires Untainted(env, w) && !Exposes(env, w, LoadFrom(allowLegacy, first, second))
    ensures Untainted(env, Next(env, w, LoadFrom(allowLegacy, first, second)))
  {
    FailedRestoreLeavesLegacy(env, w, allowLegacy, first, second);
    hide Complete, Load, LoadedFrom, Exposes;
  }

  lemma SaveKeepsUntainted(env: Env, w: World, g: GenId, commitId: string, cut: Cut)
    requires Sound(env) && Untainted(env, w) && Fresh(env, w.disk, g) && commitId != ""
    ensures Untainted(env, Next(env, w, SaveAs(g, commitId, cut)))
  {
    hide Complete, Chosen;
    var parts := Parts(w.model.live.model, Some(w.model.live.optimizer), w.model.live.recurrent);
    SaveKeepsComplete(env, w.disk, w.model.taint, parts, g, commitId, cut);
    TaintedWritesNothing(env, w.disk, parts, g, commitId, cut);
    hide Save;
  }

  lemma TaintedWritesNothing(env: Env, d: Disk, parts: Parts, g: GenId, commitId: string, cut: Cut)
    ensures Save(env, d, true, parts, g, commitId, cut) == (Err(Tainted), d)
  {
  }

  // Every save of a run draws a fresh generation id.
  ghost predicate FreshRun(env: Env, w: World, events: seq<Event>)
    decreases |events|
  {
    events != [] ==>
      var n := |events| - 1; var e := events[n];
      FreshRun(env, w, events[..n])
      && (e.SaveAs? ==> Fresh(env, Exec(env, w, events[..n]).disk, e.g) && e.commitId != "")
  }

  // No load of a run exposes legacy parts.
  ghost predicate NeverExposed(env: Env, w: World, events: seq<Event>)
    decreases |events|
  {
    events != [] ==>
      var n := |events| - 1;
      NeverExposed(env, w, events[..n]) && !Exposes(env, Exec(env, w, events[..n]), events[n])
  }

  // Over whole runs: HEAD is never written while any live part derives from a
  // legacy load, as long as generations carry optimizer state and no refused
  // legacy load leaves one of its parts behind.
  lemma {:induction false} HeadNeverLegacy(env: Env, w: World, events: seq<Event>)
    requires Sound(env) && Untainted(env, w) && FreshRun(env, w, events) && NeverExposed(env, w, events)
    ensures Untainted(env, Exec(env, w, events))
    decreases |events|
  {
    if events != [] {
      var n := |events| - 1;
      var before := Exec(env, w, events[..n]);
      HeadNeverLegacy(env, w, events[..n]);
      hide Complete, Untainted, Save, Load, Fresh, Exposes;
      match events[n]
      case Train(live) => TrainKeepsUntainted(env, before, live);
      case SaveAs(g, commitId, cut) => SaveKeepsUntainted(env, before, g, commitId, cut);
      case LoadFrom(allowLegacy, first, second) => LoadKeepsUntainted(env, before, allowLegacy, first, second);
    }
  }

  // That premise is needed for every such load: the next save that gets as far as
  // HEAD writes it over legacy parts.
  lemma ExposedReachesHead(env: Env, w: World, e: Event, g: GenId, commitId: string, cut: Cut)
    requires Sound(env) && Untainted(env, w) && Exposes(env, w, e)
    requires Fresh(env, w.disk, g) && commitId != "" && cut.AfterHead?
    ensures var w' := Next(env, Next(env, w, e), SaveAs(g, commitId, cut));
            && w'.disk.head.Some? && |w'.committed| == |w.committed| + 1 && w'.committed[|w.committed|] != CLEAN
            && !Untainted(env, w')
  {
    FailedRestoreLeavesLegacy(env, w, e.allowLegacy, e.first, e.second);
    hide Load, LoadedFrom, Complete, Leaves;
    var w1 := Next(env, w, e);
    var live := w1.model.live;
    assert w1.disk == w.disk && w1.committed == w.committed;
    HeadReplaced(env, w.disk, Parts(live.model, Some(live.optimizer), live.recurrent), g, commitId, cut);
    hide Save;
  }

  lemma TrainKeepsUntainted(env: Env, w: World, live: Live)
    requires Untainted(env, w)
    ensures Untainted(env, Next(env, w, Train(live)))
  {
    hide Complete;
  }

  // The flag follows the last load, not the parts: after a generation load that
  // succeeds it is down, and the optimizer is still legacy exactly when it was
  // legacy before and the generation carries none.
  lemma OptimizerLeftLegacy(env: Env, w: World, allowLegacy: bool)
    requires w.disk.head.Some? && Chosen(env, w.disk).Ok? && Chosen(env, w.disk).value.Some?
    ensures var w' := Next(env, w, LoadFrom(allowLegacy, ApplyClean, ApplyClean));
            && !w'.model.taint
            && (w'.from.optimizer == Legacy <==>
                w.from.optimizer == Legacy && Chosen(env, w.disk).value.value.2.optimizer.None?)
            && (w'.from.optimizer == Legacy <==> w'.from != CLEAN)
  {
    hide Candidate, ReadHead;
  }

  // ----- The lineage HEAD keeps over whole runs

  // HEAD, if there is one, names a generation that validates, whose manifest names
  // HEAD's previous generation as its parent; and that one, if any, validates too.
  ghost predicate Lineage(env: Env, d: Disk) {
    d.head.Some? ==>
      && ReadHead(env, d.head.value).Some?
      && var h := ReadHead(env, d.head.value).value;
      && Candidate(env, d, h, Current).Ok?
      && ReadManifest(env, d, h.current, Some((h.commitId, h.seqNo))).Ok?
      && ReadManifest(env, d, h.current, Some((h.commitId, h.seqNo))).value.parent == h.previous
      && (h.previous.Some? ==> Candidate(env, d, h, Previous).Ok?)
  }

  lemma SameLineage(env: Env, a: Disk, b: Disk)
    requires a.head == b.head && Lineage(env, a)
    requires a.head.Some? ==>
               var h := ReadHead(env, a.head.value).value;
               SameFiles(a, b, h.current) && (h.previous.Some? ==> SameFiles(a, b, h.previous.value))
    ensures Lineage(env, b)
  {
    hide ManifestFits, ReadPayload, ReadHead;
    if a.head.Some? {
      var h := ReadHead(env, a.head.value).value;
      SameValidation(env, a, b, h.current, Some((h.commitId, h.seqNo)));
      if h.previous.Some? { SameValidation(env, a, b, h.previous.value, None); }
    }
  }

  lemma SaveKeepsLineage(env: Env, d: Disk, taint: bool, parts: Parts, g: GenId, commitId: string, cut: Cut)
    requires Sound(env) && Fresh(env, d, g) && commitId != "" && Lineage(env, d)
    ensures Lineage(env, Save(env, d, taint, parts, g, commitId, cut).1)
  {
    hide ReadHead, Candidate, ReadManifest, ValidateGeneration;
    var d' := Save(env, d, taint, parts, g, commitId, cut).1;
    if taint || Chosen(env, d).Err? {
      assert d' == d;
    } else if !cut.AfterHead? {
      SaveFiles(env, d, taint, parts, g, commitId, cut);
      SameLineage(env, d, d');
    } else {
      HeadReplaced(env, d, parts, g, commitId, cut);
      NewPrevious(env, d, parts, g, commitId, cut);
    }
  }

  // In every run from an empty directory, cut wherever it may be, HEAD leads to a
  // generation that loads and names its parent.
  lemma {:induction false} RunsKeepLineage(env: Env, w: World, events: seq<Event>)
    requires Sound(env) && Lineage(env, w.disk) && FreshRun(env, w, events)
    ensures Lineage(env, Exec(env, w, events).disk)
    decreases |events|
  {
    if events != [] {
      var n := |events| - 1;
      var before := Exec(env, w, events[..n]);
      RunsKeepLineage(env, w, events[..n]);
      hide Lineage, Save, Load, Fresh;
      if events[n].SaveAs? {
        var live := before.model.live;
        SaveKeepsLineage(env, before.disk, before.model.taint, Parts(live.model, Some(live.optimizer), live.recurrent),
                         events[n].g, events[n].commitId, events[n].cut);
      }
    }
  }
}
