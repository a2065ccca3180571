// The model checkpoint protocol of main.py: fresh generations, one atomically
// replaced HEAD, lineage-checked fallback, pruning, and in-memory apply.
module Checkpoint {
  import opened Base
  import opened Chains

  type Bytes = string
  type GenId = string
  type Tree = seq<int>

  // The configuration a manifest binds; temp and lr are the JSON numbers as written.
  datatype Config = Config(dim: int, layers: int, spread: int, temp: string, lr: string, lrBegin: int, lrEnd: int)

  // What a payload holds; one written outside `save` may lack optimizer state.
  datatype Parts = Parts(model: Tree, optimizer: Option<Tree>, recurrent: Tree)

  datatype Head = Head(current: GenId, previous: Option<GenId>, commitId: string, seqNo: nat, protocol: string)

  datatype Manifest = Manifest(
    generationId: GenId, parent: Option<GenId>, file: string, hash: Digest, size: nat, commitId: string, seqNo: nat,
    payloadSchema: nat, kind: string, binding: string, config: Config, protocol: string)

  const PAYLOAD_SCHEMA := 1
  const CONFIG_BINDING := "full-v1.22"
  const PROTOCOL_VERSION := "1.33"

  // The decoders stand for reading, the format check and schema migration; the
  // payload decoder also for the schema and shape check against the live model.
  datatype Env = Env(
    config: Config, hash: Bytes -> Digest, fileName: GenId -> string,
    decodeHead: Bytes -> Option<Head>, encodeHead: Head -> Bytes,
    decodeManifest: Bytes -> Option<Manifest>, encodeManifest: Manifest -> Bytes,
    decodePayload: Bytes -> Option<Parts>, encodePayload: Parts -> Bytes)

  ghost predicate Sound(env: Env) {
    && (forall h :: env.decodeHead(env.encodeHead(h)) == Some(h))
    && (forall m :: env.decodeManifest(env.encodeManifest(m)) == Some(m))
    && (forall p :: env.decodePayload(env.encodePayload(p)) == Some(p))
  }

  // The files of one checkpoint: generation payloads and manifests, HEAD, and the
  // single file of the time before generations.
  datatype Disk = Disk(payloads: map<GenId, Bytes>, manifests: map<GenId, Bytes>, head: Option<Bytes>, legacy: Option<Bytes>)

  datatype Error =
    | HeadInvalid | ManifestInvalid | NotThisCommit | PayloadInvalid | NoFallback | LineageMismatch
    | NoValidGeneration | Tainted | Interrupted | LegacyRefused | ApplyFailed

  // ----- Reading

  function ReadHead(env: Env, raw: Bytes): Option<Head> {
    match env.decodeHead(raw)
    case None => None
    case Some(h) =>
      if h.current == "" || h.previous == Some("") || h.previous == Some(h.current) || h.commitId == "" || h.protocol == ""
      then None else Some(h)
  }

  predicate ManifestFits(env: Env, m: Manifest, id: GenId) {
    && m.payloadSchema == PAYLOAD_SCHEMA && m.generationId == id && m.file == env.fileName(id) && m.kind == "full"
    && m.binding == CONFIG_BINDING && m.config == env.config
    && m.protocol != "" && m.commitId != "" && m.seqNo >= 1 && m.parent != Some("")
  }

  function ReadManifest(env: Env, d: Disk, id: GenId, expected: Option<(string, nat)>): Result<Manifest, Error> {
    if id !in d.manifests then Err(ManifestInvalid)
    else
      match env.decodeManifest(d.manifests[id])
      case None => Err(ManifestInvalid)
      case Some(m) =>
        if !ManifestFits(env, m, id) then Err(ManifestInvalid)
        else if expected.Some? && (m.commitId, m.seqNo) != expected.value then Err(NotThisCommit)
        else Ok(m)
  }

  function ReadPayload(env: Env, d: Disk, id: GenId, m: Manifest): Result<Parts, Error> {
    if id !in d.payloads || |d.payloads[id]| != m.size || env.hash(d.payloads[id]) != m.hash then Err(PayloadInvalid)
    else match env.decodePayload(d.payloads[id]) case None => Err(PayloadInvalid) case Some(p) => Ok(p)
  }

  function ValidateGeneration(env: Env, d: Disk, id: GenId, expected: Option<(string, nat)>): Result<(Parts, Manifest), Error> {
    match ReadManifest(env, d, id, expected)
    case Err(e) => Err(e)
    case Ok(m) => match ReadPayload(env, d, id, m) case Err(e) => Err(e) case Ok(p) => Ok((p, m))
  }

  // HEAD's previous generation counts as a fallback only when the current
  // manifest, read as HEAD names it, gives the same parent.
  function ValidateFallback(env: Env, d: Disk, h: Head): Result<(), Error> {
    if h.previous.None? then Err(NoFallback)
    else
      match ReadManifest(env, d, h.current, Some((h.commitId, h.seqNo)))
      case Err(e) => Err(e)
      case Ok(m) => if m.parent != h.previous then Err(LineageMismatch) else Ok(())
  }

  datatype Role = Current | Previous

  // One candidate of HEAD, validated the way its role demands.
  function Candidate(env: Env, d: Disk, h: Head, role: Role): Result<(GenId, Parts), Error> {
    match role
    case Current =>
      (match ValidateGeneration(env, d, h.current, Some((h.commitId, h.seqNo)))
       case Err(e) => Err(e)
       case Ok(v) => Ok((h.current, v.0)))
    case Previous =>
      match ValidateFallback(env, d, h)
      case Err(e) => Err(e)
      case Ok(_) =>
        match ValidateGeneration(env, d, h.previous.value, None)
        case Err(e) => Err(e)
        case Ok(v) => Ok((h.previous.value, v.0))
  }

  // The generation a HEAD leads to: the current one, else the previous one.
  function Choose(env: Env, d: Disk, h: Head): Option<(Role, GenId, Parts)> {
    match Candidate(env, d, h, Current)
    case Ok(v) => Some((Current, v.0, v.1))
    case Err(_) =>
      match Candidate(env, d, h, Previous)
      case Ok(v) => Some((Previous, v.0, v.1))
      case Err(_) => None
  }

  // What is chosen on a disk, if HEAD is there: None for no HEAD at all.
  function Chosen(env: Env, d: Disk): Result<Option<(Head, GenId, Parts)>, Error> {
    match d.head
    case None => Ok(None)
    case Some(raw) =>
      match ReadHead(env, raw)
      case None => Err(HeadInvalid)
      case Some(h) =>
        match Choose(env, d, h) case None => Err(NoValidGeneration) case Some(c) => Ok(Some((h, c.1, c.2)))
  }

  datatype Status = Status(headPresent: bool, legacyPresent: bool, loadable: bool, selected: Option<GenId>, fallbackRequired: bool)

  // ----- Saving

  // The documents a save writes over a given choice of parent.
  function NewManifest(env: Env, payload: Bytes, g: GenId, commitId: string, chosen: Option<(Head, GenId, Parts)>): Manifest {
    Manifest(g, if chosen.Some? then Some(chosen.value.1) else None, env.fileName(g), env.hash(payload), |payload|,
             commitId, if chosen.Some? then chosen.value.0.seqNo + 1 else 1, PAYLOAD_SCHEMA, "full", CONFIG_BINDING,
             env.config, PROTOCOL_VERSION)
  }

  function NewHead(m: Manifest): Head {
    Head(m.generationId, m.parent, m.commitId, m.seqNo, m.protocol)
  }

  function Keep(g: GenId, chosen: Option<(Head, GenId, Parts)>): set<GenId> {
    {g} + match chosen
          case None => {}
          case Some((h, p, _)) => {p, h.current} + if h.previous.Some? then {h.previous.value} else {}
  }

  // Which payload and manifest files an interrupted prune got rid of.
  datatype Unlinked = Unlinked(payloads: set<GenId>, manifests: set<GenId>)

  function Pruned(d: Disk, keep: set<GenId>, gone: Unlinked): Disk {
    d.(payloads := d.payloads - ((d.payloads.Keys - keep) * gone.payloads),
       manifests := d.manifests - ((d.payloads.Keys - keep) * gone.manifests))
  }

  // A prune that has come to these generations.
  ghost function PrunedTo(d: Disk, keep: set<GenId>, gone: Unlinked, seen: set<GenId>): Disk {
    d.(payloads := d.payloads - ((d.payloads.Keys - keep) * gone.payloads * seen),
       manifests := d.manifests - ((d.payloads.Keys - keep) * gone.manifests * seen))
  }

  ghost function Visited(order: seq<GenId>, n: nat): set<GenId>
    requires n <= |order|
  {
    set k | 0 <= k < n :: order[k]
  }

  lemma PrunedNext(d: Disk, keep: set<GenId>, gone: Unlinked, seen: set<GenId>, id: GenId)
    requires id in d.payloads
    ensures var a, b := PrunedTo(d, keep, gone, seen), PrunedTo(d, keep, gone, seen + {id});
            b == a.(payloads := if id !in keep && id in gone.payloads then a.payloads - {id} else a.payloads,
                    manifests := if id !in keep && id in gone.manifests then a.manifests - {id} else a.manifests)
  {
    var k := d.payloads.Keys - keep;
    assert k * gone.payloads * (seen + {id}) == k * gone.payloads * seen + if id !in keep && id in gone.payloads then {id} else {};
    assert k * gone.manifests * (seen + {id}) == k * gone.manifests * seen + if id !in keep && id in gone.manifests then {id} else {};
  }

  lemma PrunedEnds(d: Disk, keep: set<GenId>, gone: Unlinked)
    ensures PrunedTo(d, keep, gone, {}) == d && PrunedTo(d, keep, gone, d.payloads.Keys) == Pruned(d, keep, gone)
  {
    var k := d.payloads.Keys - keep;
    assert k * gone.payloads * {} == {} && k * gone.manifests * {} == {};
    assert k * gone.payloads * d.payloads.Keys == k * gone.payloads && k * gone.manifests * d.payloads.Keys == k * gone.manifests;
  }

  // Where a save stops: before the payload rename, after it, after the manifest
  // rename, or after HEAD is replaced, with the prune as far as it got.
  datatype Cut = BeforePayload | AfterPayload | AfterManifest | AfterHead(gone: Unlinked, finished: bool)

  function Save(env: Env, d: Disk, taint: bool, parts: Parts, g: GenId, commitId: string, cut: Cut): (Result<(), Error>, Disk) {
    if taint then (Err(Tainted), d)
    else
      match Chosen(env, d)
      case Err(e) => (Err(e), d)
      case Ok(chosen) =>
        var payload := env.encodePayload(parts);
        var m := NewManifest(env, payload, g, commitId, chosen);
        var d1 := d.(payloads := d.payloads[g := payload]);
        var d2 := d1.(manifests := d1.manifests[g := env.encodeManifest(m)]);
        var d3 := d2.(head := Some(env.encodeHead(NewHead(m))));
        if cut == BeforePayload then (Err(Interrupted), d)
        else if cut == AfterPayload then (Err(Interrupted), d1)
        else
          match ValidateGeneration(env, d2, g, Some((commitId, m.seqNo)))
          case Err(e) => (Err(e), d2)
          case Ok(_) =>
            if cut == AfterManifest then (Err(Interrupted), d2)
            else (if cut.finished then Ok(()) else Err(Interrupted), Pruned(d3, Keep(g, chosen), cut.gone))
  }

  // ----- Applying in memory

  datatype Live = Live(model: Tree, optimizer: Tree, recurrent: Tree)

  // The stage at which applying raises, and how far the restore then gets.
  datatype ApplyFault =
    | ApplyClean
    | ApplyStops(stage: nat, restored: Option<nat>)

  function Applied(live: Live, p: Parts): Live {
    Live(p.model, if p.optimizer.Some? then p.optimizer.value else live.optimizer, p.recurrent)
  }

  // The first parts are from one state, the rest from another.
  function Mixed(first: Live, rest: Live, stage: nat): Live {
    Live(if stage >= 1 then first.model else rest.model,
         if stage >= 2 then first.optimizer else rest.optimizer,
         if stage >= 3 then first.recurrent else rest.recurrent)
  }

  // The live state after an attempt, and whether the attempt reported success.
  function Apply(live: Live, p: Parts, f: ApplyFault): (bool, Live) {
    match f
    case ApplyClean => (true, Applied(live, p))
    case ApplyStops(stage, restored) =>
      (false, if restored.None? then live else Mixed(live, Mixed(Applied(live, p), live, stage), restored.value))
  }

  predicate Restores(f: ApplyFault) {
    f.ApplyClean? || f.restored.None?
  }

  datatype Model = Model(live: Live, taint: bool)

  // Loading through HEAD: the current generation, else the previous one; a failed
  // apply falls through like a failed validation.
  function LoadRole(env: Env, d: Disk, h: Head, role: Role, m: Model, f: ApplyFault): (bool, Model) {
    match Candidate(env, d, h, role)
    case Err(_) => (false, m)
    case Ok(v) =>
      var (done, live) := Apply(m.live, v.1, f);
      (done, if done then Model(live, false) else m.(live := live))
  }

  function Load(env: Env, d: Disk, m: Model, allowLegacy: bool, first: ApplyFault, second: ApplyFault): (Result<(), Error>, Model) {
    match d.head
    case Some(raw) =>
      (match ReadHead(env, raw)
       case None => (Err(HeadInvalid), m)
       case Some(h) =>
         var (done, m1) := LoadRole(env, d, h, Current, m, first);
         if done then (Ok(()), m1)
         else
           var (again, m2) := LoadRole(env, d, h, Previous, m1, second);
           if again then (Ok(()), m2) else (Err(NoValidGeneration), m2))
    case None =>
      match d.legacy
      case None => (Ok(()), m)
      case Some(raw) =>
        if !allowLegacy then (Err(LegacyRefused), m)
        else
          match env.decodePayload(raw)
          case None => (Err(PayloadInvalid), m)
          case Some(p) =>
            var (done, live) := Apply(m.live, p, first);
            if done then (Ok(()), Model(live, true)) else (Err(ApplyFailed), m.(live := live))
  }

  // ----- The model object

  class CheckpointedModel {
    const env: Env
    var model: Tree
    var optimizer: Tree
    var recurrent: Tree
    var taint: bool
    var payloads: map<GenId, Bytes>
    var manifests: map<GenId, Bytes>
    var head: Option<Bytes>
    var legacy: Option<Bytes>

    constructor (env: Env, live: Live, d: Disk)
      ensures this.env == env && State() == Model(live, false) && Files() == d
    {
      this.env := env;
      model, optimizer, recurrent, taint := live.model, live.optimizer, live.recurrent, false;
      payloads, manifests, head, legacy := d.payloads, d.manifests, d.head, d.legacy;
    }

    function State(): Model
      reads this
    {
      Model(Live(model, optimizer, recurrent), taint)
    }

    function Files(): Disk
      reads this
    {
      Disk(payloads, manifests, head, legacy)
    }

    // The generation the next save builds on.
    method CurrentValidGeneration() returns (r: Result<Option<(Head, GenId, Parts)>, Error>)
      ensures r == Chosen(env, Files())
    {
      if head.None? { return Ok(None); }
      var read := ReadHead(env, head.value);
      if read.None? { return Err(HeadInvalid); }
      var h := read.value;
      var current := Candidate(env, Files(), h, Current);
      if current.Ok? { return Ok(Some((h, current.value.0, current.value.1))); }
      if h.previous.Some? {
        var previous := Candidate(env, Files(), h, Previous);
        if previous.Ok? { return Ok(Some((h, previous.value.0, previous.value.1))); }
      }
      r := Err(NoValidGeneration);
    }

    method CheckpointStatus() returns (s: Status)
      ensures s.headPresent == head.Some? && s.legacyPresent == legacy.Some?
      ensures s.loadable == s.selected.Some?
      ensures match Chosen(env, Files())
              case Ok(Some((h, id, _))) => s.selected == Some(id) && s.fallbackRequired == (id != h.current)
              case _ => s.selected.None? && !s.fallbackRequired
    {
      s := Status(head.Some?, legacy.Some?, false, None, false);
      if head.None? { return; }
      var read := ReadHead(env, head.value);
      if read.None? { return; }
      var h := read.value;
      var current := Candidate(env, Files(), h, Current);
      if current.Ok? {
        s := s.(selected := Some(h.current), loadable := true);
      }
      if h.previous.Some? {
        var previous := Candidate(env, Files(), h, Previous);
        if previous.Ok? && s.selected.None? {
          s := s.(selected := h.previous, loadable := true, fallbackRequired := true);
        }
      }
    }

    // Unlinks what it is not told to keep; a failing unlink is passed over.
    method PruneGenerations(keep: set<GenId>, order: seq<GenId>, gone: Unlinked)
      requires forall id :: id in order <==> id in payloads
      modifies this`payloads, this`manifests
      ensures Files() == Pruned(old(Files()), keep, gone)
    {
      hide PrunedTo, Pruned;
      ghost var start := Files();
      PrunedEnds(start, keep, gone);
      assert Visited(order, 0) == {};
      for i := 0 to |order|
        invariant Files() == PrunedTo(start, keep, gone, Visited(order, i))
      {
        var id := order[i];
        assert Visited(order, i + 1) == Visited(order, i) + {id};
        assert id in start.payloads;
        PrunedNext(start, keep, gone, Visited(order, i), id);
        if id !in keep {
          if id in gone.payloads { payloads := payloads - {id}; }
          if id in gone.manifests { manifests := manifests - {id}; }
        }
      }
      assert Visited(order, |order|) == start.payloads.Keys;
    }

    method SaveCheckpoint(g: GenId, commitId: string, order: seq<GenId>, cut: Cut) returns (r: Result<(), Error>)
      requires forall id :: id in order <==> id in payloads || id == g
      modifies this`payloads, this`manifests, this`head
      ensures (r, Files()) == Save(env, old(Files()), taint, Parts(model, Some(optimizer), recurrent), g, commitId, cut)
    {
      if taint { return Err(Tainted); }
      var payload := env.encodePayload(Parts(model, Some(optimizer), recurrent));
      var found := CurrentValidGeneration();
      if found.Err? { return Err(found.error); }
      var m := NewManifest(env, payload, g, commitId, found.value);
      if cut == BeforePayload { return Err(Interrupted); }
      payloads := payloads[g := payload];
      if cut == AfterPayload { return Err(Interrupted); }
      manifests := manifests[g := env.encodeManifest(m)];
      var check := ValidateGeneration(env, Files(), g, Some((commitId, m.seqNo)));
      if check.Err? { return Err(check.error); }
      if cut == AfterManifest { return Err(Interrupted); }
      head := Some(env.encodeHead(NewHead(m)));
      PruneGenerations(Keep(g, found.value), order, cut.gone);
      r := if cut.finished then Ok(()) else Err(Interrupted);
    }

    // Sets the live parts one after the other; on an error puts the old ones back.
    method ApplyCheckpoint(p: Parts, f: ApplyFault) returns (done: bool)
      modifies this`model, this`optimizer, this`recurrent
      ensures (done, State().live) == Apply(old(State().live), p, f)
    {
      var snapshot := State().live;
      if f.ApplyClean? || f.stage >= 1 { model := p.model; }
      if (f.ApplyClean? || f.stage >= 2) && p.optimizer.Some? { optimizer := p.optimizer.value; }
      if f.ApplyClean? || f.stage >= 3 { recurrent := p.recurrent; }
      if f.ApplyClean? { return true; }
      if f.restored.None? || f.restored.value >= 1 { model := snapshot.model; }
      if f.restored.None? || f.restored.value >= 2 { optimizer := snapshot.optimizer; }
      if f.restored.None? || f.restored.value >= 3 { recurrent := snapshot.recurrent; }
      return false;
    }

    method LoadCheckpoint(allowLegacy: bool, first: ApplyFault, second: ApplyFault) returns (r: Result<(), Error>)
      modifies this`model, this`optimizer, this`recurrent, this`taint
      ensures (r, State()) == Load(env, Files(), old(State()), allowLegacy, first, second)
    {
      if head.Some? {
        var read := ReadHead(env, head.value);
        if read.None? { return Err(HeadInvalid); }
        var h := read.value;
        var current := Candidate(env, Files(), h, Current);
        if current.Ok? {
          var done := ApplyCheckpoint(current.value.1, first);
          if done {
            taint := false;
            return Ok(());
          }
        }
        var previous := Candidate(env, Files(), h, Previous);
        if previous.Ok? {
          var done := ApplyCheckpoint(previous.value.1, second);
          if done {
            taint := false;
            return Ok(());
          }
        }
        return Err(NoValidGeneration);
      }
      if legacy.None? { return Ok(()); }
      if !allowLegacy { return Err(LegacyRefused); }
      var parts := env.decodePayload(legacy.value);
      if parts.None? { return Err(PayloadInvalid); }
      var done := ApplyCheckpoint(parts.value, first);
      if !done { return Err(ApplyFailed); }
      taint := true;
      r := Ok(());
    }
  }
}
