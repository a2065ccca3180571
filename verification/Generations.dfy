// The immutable generation store of galia2/persistence.py.
module Generations {
  import opened Base
  import opened Chains

  type Bytes = string

  datatype Path = ManifestFile | PromotionFile | PayloadFile(path: string)

  type Dir = map<Path, Bytes>

  datatype PayloadEntry = PayloadEntry(path: string, hash: Digest, size: nat)

  datatype Manifest = Manifest(
    commitId: string, seqNo: nat, parent: string, caseId: string, schema: string, createdAt: int,
    payloads: seq<PayloadEntry>, decisionId: string, policy: string)

  datatype Promotion = Promotion(
    commitId: string, caseId: string, manifestHash: Digest, decisionId: string, authorizationId: string,
    authorizationPolicy: string, preflightReceipt: string, policy: string, publishedAt: int)

  datatype HeadPointer = HeadPointer(commitId: string, seqNo: nat, manifestHash: Digest, promotionHash: Digest)

  // The promotion evidence handed to a publication.
  datatype Candidate = Candidate(
    caseId: string, target: string, parent: string, manifestHash: Digest, payloadHashes: seq<Digest>,
    schema: string, decisionId: string)

  datatype Preflight = Preflight(passed: bool, guards: set<string>, caseId: string, target: string, receiptId: string)

  datatype Authorization = Authorization(
    authorizationId: string, decisionId: string, target: string, scope: Scope, policy: string)

  datatype Scope = Scope(caseId: string, targetType: string, action: string)

  datatype Transition = Transition(
    caseId: string, from: string, to: string, event: string, guards: set<string>, humanBoundary: bool)

  datatype Evidence = Evidence(
    candidate: Candidate, preflight: Preflight, authorization: Authorization, expectedScope: Scope, decision: Transition)

  // Digests, the encoders and readers of the three documents, and payload-path safety.
  datatype Env = Env(
    policy: string,
    hash: Bytes -> Digest, validHash: Digest -> bool, safePath: string -> bool,
    encodeManifest: Manifest -> Bytes, decodeManifest: Bytes -> Option<Manifest>,
    encodePromotion: Promotion -> Bytes, decodePromotion: Bytes -> Option<Promotion>,
    encodeHead: HeadPointer -> Bytes, decodeHead: Bytes -> Option<HeadPointer>)

  // What is written can be read back, and digests are collision free.
  ghost predicate Sound(env: Env) {
    && Injective(env.hash) && (forall b :: env.validHash(env.hash(b)))
    && (forall m :: env.decodeManifest(env.encodeManifest(m)) == Some(m))
    && (forall p :: env.decodePromotion(env.encodePromotion(p)) == Some(p))
    && (forall h :: env.decodeHead(env.encodeHead(h)) == Some(h))
  }

  datatype Error =
    | Invalid | PayloadMismatch | PolicyMismatch | AlreadyExists | WriteFailed | BindingMismatch
    | HeadMissing | HeadInvalid | ParentMismatch | SequenceMismatch | NotFound | FilesMissing | HashMismatch
    | NotReadable | IdentityMismatch | PayloadIntegrity | UndeclaredFiles | StagedMissing | CandidateMismatch

  predicate UniquePaths(payloads: seq<PayloadEntry>) {
    forall i, k :: 0 <= i < k < |payloads| ==> payloads[i].path != payloads[k].path
  }

  predicate ValidManifest(env: Env, m: Manifest) {
    && Required(m.commitId) && Required(m.parent) && Required(m.caseId) && Required(m.schema)
    && Required(m.decisionId) && Required(m.policy)
    && m.seqNo >= 1 && m.commitId != m.parent && m.payloads != [] && UniquePaths(m.payloads)
    && forall e :: e in m.payloads ==> env.safePath(e.path) && env.validHash(e.hash)
  }

  predicate ValidPromotion(env: Env, p: Promotion) {
    && Required(p.commitId) && Required(p.caseId) && env.validHash(p.manifestHash) && Required(p.decisionId)
    && Required(p.authorizationId) && Required(p.authorizationPolicy) && Required(p.preflightReceipt) && Required(p.policy)
  }

  predicate ValidHead(env: Env, h: HeadPointer) {
    Required(h.commitId) && h.seqNo >= 1 && env.validHash(h.manifestHash) && env.validHash(h.promotionHash)
  }

  function ReadManifest(env: Env, raw: Bytes): Option<Manifest> {
    match env.decodeManifest(raw)
    case Some(m) => if ValidManifest(env, m) then Some(m) else None
    case None => None
  }

  function ReadPromotion(env: Env, raw: Bytes): Option<Promotion> {
    match env.decodePromotion(raw)
    case Some(p) => if ValidPromotion(env, p) then Some(p) else None
    case None => None
  }

  function ParseHead(env: Env, raw: Bytes): Option<HeadPointer> {
    match env.decodeHead(raw)
    case Some(h) => if ValidHead(env, h) then Some(h) else None
    case None => None
  }

  function ManifestHash(env: Env, m: Manifest): Digest {
    env.hash(env.encodeManifest(m))
  }

  // ----- The disk

  datatype Disk = Disk(staging: map<string, Dir>, generations: map<string, Dir>, head: Option<Bytes>)

  function PayloadPaths(payloads: seq<PayloadEntry>): set<Path> {
    set e | e in payloads :: PayloadFile(e.path)
  }

  predicate PayloadIntact(env: Env, dir: Dir, e: PayloadEntry) {
    PayloadFile(e.path) in dir && |dir[PayloadFile(e.path)]| == e.size && env.hash(dir[PayloadFile(e.path)]) == e.hash
  }

  predicate PayloadsIntact(env: Env, dir: Dir, payloads: seq<PayloadEntry>) {
    forall e :: e in payloads ==> PayloadIntact(env, dir, e)
  }

  function VerifyDir(env: Env, id: string, dir: Dir, expected: Option<(Digest, Digest)>): Result<Manifest, Error> {
    if ManifestFile !in dir || PromotionFile !in dir then Err(FilesMissing)
    else if expected.Some? && (env.hash(dir[ManifestFile]), env.hash(dir[PromotionFile])) != expected.value
    then Err(HashMismatch)
    else
      match (ReadManifest(env, dir[ManifestFile]), ReadPromotion(env, dir[PromotionFile]))
      case (Some(m), Some(p)) =>
        if m.commitId != id || p.commitId != id || p.manifestHash != env.hash(dir[ManifestFile])
           || p.caseId != m.caseId || p.decisionId != m.decisionId then Err(IdentityMismatch)
        else if !PayloadsIntact(env, dir, m.payloads) then Err(PayloadIntegrity)
        else if dir.Keys != {ManifestFile, PromotionFile} + PayloadPaths(m.payloads) then Err(UndeclaredFiles)
        else Ok(m)
      case _ => Err(NotReadable)
  }

  // Verification of one materialised generation; the pair is the digests a HEAD names.
  function Verify(env: Env, generations: map<string, Dir>, id: string, expected: Option<(Digest, Digest)>)
    : Result<Manifest, Error>
  {
    if !Required(id) then Err(Invalid)
    else if id !in generations then Err(NotFound)
    else VerifyDir(env, id, generations[id], expected)
  }

  predicate CandidateIntact(env: Env, dir: Dir, m: Manifest) {
    && ManifestFile in dir && env.hash(dir[ManifestFile]) == ManifestHash(env, m)
    && PayloadsIntact(env, dir, m.payloads)
    && dir.Keys == {ManifestFile} + PayloadPaths(m.payloads)
  }

  // ----- Staging

  // The payload files written one after the other.
  function PayloadFiles(entries: seq<PayloadEntry>, payloads: map<string, Bytes>): Dir
    requires forall e :: e in entries ==> e.path in payloads
  {
    if entries == [] then map[]
    else
      var e := entries[|entries| - 1];
      PayloadFiles(entries[..|entries| - 1], payloads)[PayloadFile(e.path) := payloads[e.path]]
  }

  function StagedDir(env: Env, m: Manifest, payloads: map<string, Bytes>): Dir
    requires forall e :: e in m.payloads ==> e.path in payloads
  {
    PayloadFiles(m.payloads, payloads)[ManifestFile := env.encodeManifest(m)]
  }

  predicate PayloadsMatch(env: Env, m: Manifest, payloads: map<string, Bytes>) {
    && payloads.Keys == (set e | e in m.payloads :: e.path)
    && forall e :: e in m.payloads ==> e.path in payloads && |payloads[e.path]| == e.size && env.hash(payloads[e.path]) == e.hash
  }

  function CheckStage(env: Env, d: Disk, m: Manifest, payloads: map<string, Bytes>): Result<Dir, Error> {
    if !ValidManifest(env, m) then Err(Invalid)
    else if !PayloadsMatch(env, m, payloads) then Err(PayloadMismatch)
    else if m.policy != env.policy then Err(PolicyMismatch)
    else if m.commitId in d.staging || m.commitId in d.generations then Err(AlreadyExists)
    else Ok(StagedDir(env, m, payloads))
  }

  // Everything is written under a temporary name first: the rename is the only
  // step that shows.
  function Stage(env: Env, d: Disk, m: Manifest, payloads: map<string, Bytes>, fault: Fault): (Result<(), Error>, Disk) {
    match CheckStage(env, d, m, payloads)
    case Err(e) => (Err(e), d)
    case Ok(dir) =>
      match fault
      case NotWritten | TornWrite => (Err(WriteFailed), d)
      case _ => (if fault == NoFault then Ok(()) else Err(WriteFailed), d.(staging := d.staging[m.commitId := dir]))
  }

  // ----- Publication

  predicate Bindings(env: Env, m: Manifest, ev: Evidence) {
    var c, f, a, t := ev.candidate, ev.preflight, ev.authorization, ev.decision;
    && f.passed && f.guards == {"preflight_passed", "rollback_target_verified"}
    && f.caseId == m.caseId && c.caseId == m.caseId && f.target == m.commitId && c.target == m.commitId
    && c.parent == m.parent && c.manifestHash == ManifestHash(env, m)
    && multiset(c.payloadHashes) == multiset(seq(|m.payloads|, i requires 0 <= i < |m.payloads| => m.payloads[i].hash))
    && c.schema == m.schema && c.decisionId == m.decisionId
    && a.decisionId == m.decisionId && a.target == m.commitId
    && a.scope == ev.expectedScope && ev.expectedScope.caseId == m.caseId
    && t.caseId == m.caseId && t.from == "PROMOTION_READY" && t.to == "CANONICAL" && t.event == "PROMOTION_AUTHORIZED"
    && {"promotion_authorization_present", "authorization_matches_target"} <= t.guards && t.humanBoundary
  }

  function Envelope(env: Env, m: Manifest, ev: Evidence, now: int): Promotion {
    Promotion(m.commitId, m.caseId, ManifestHash(env, m), m.decisionId, ev.authorization.authorizationId,
              ev.authorization.policy, ev.preflight.receiptId, env.policy, now)
  }

  function ReadHead(env: Env, d: Disk): Result<Option<HeadPointer>, Error> {
    match d.head
    case None => Ok(None)
    case Some(raw) => match ParseHead(env, raw) case None => Err(HeadInvalid) case Some(h) => Ok(Some(h))
  }

  // Every check of a publication, and the envelope it is about to write.
  function CheckPublish(env: Env, d: Disk, m: Manifest, ev: Evidence, now: int): Result<Promotion, Error> {
    if !ValidManifest(env, m) then Err(Invalid)
    else if !Bindings(env, m, ev) then Err(BindingMismatch)
    else
      match ReadHead(env, d)
      case Err(e) => Err(e)
      case Ok(None) => Err(HeadMissing)
      case Ok(Some(h)) =>
        if h.commitId != m.parent then Err(ParentMismatch)
        else if m.seqNo != h.seqNo + 1 then Err(SequenceMismatch)
        else
          match Verify(env, d.generations, h.commitId, Some((h.manifestHash, h.promotionHash)))
          case Err(e) => Err(e)
          case Ok(_) =>
            if m.commitId !in d.staging then Err(StagedMissing)
            else if m.commitId in d.generations then Err(AlreadyExists)
            else if !CandidateIntact(env, d.staging[m.commitId], m) then Err(CandidateMismatch)
            else if !ValidPromotion(env, Envelope(env, m, ev, now)) then Err(Invalid)
            else Ok(Envelope(env, m, ev, now))
  }

  // Where a publication stops: before the envelope, inside it, after it, after the
  // directory is materialised, after HEAD is replaced, or not at all.
  datatype PublishFault =
    | EnvelopeNotWritten | EnvelopeTorn(partial: Bytes) | NotMaterialised | HeadNotWritten | HeadLate | NoPublishFault

  function HeadFor(env: Env, m: Manifest, p: Promotion): HeadPointer {
    HeadPointer(m.commitId, m.seqNo, ManifestHash(env, m), env.hash(env.encodePromotion(p)))
  }

  function WritePublication(env: Env, d: Disk, m: Manifest, p: Promotion, fault: PublishFault): Disk
    requires m.commitId in d.staging
  {
    var src := d.staging[m.commitId];
    var done := src[PromotionFile := env.encodePromotion(p)];
    var moved := d.(staging := d.staging - {m.commitId}, generations := d.generations[m.commitId := done]);
    match fault
    case EnvelopeNotWritten => d
    case EnvelopeTorn(partial) => d.(staging := d.staging[m.commitId := src[PromotionFile := partial]])
    case NotMaterialised => d.(staging := d.staging[m.commitId := done])
    case HeadNotWritten => moved
    case _ => moved.(head := Some(env.encodeHead(HeadFor(env, m, p))))
  }

  function Publish(env: Env, d: Disk, m: Manifest, ev: Evidence, now: int, fault: PublishFault): (Result<HeadPointer, Error>, Disk) {
    match CheckPublish(env, d, m, ev, now)
    case Err(e) => (Err(e), d)
    case Ok(p) =>
      (if fault == NoPublishFault then Ok(HeadFor(env, m, p)) else Err(WriteFailed), WritePublication(env, d, m, p, fault))
  }

  // ----- The store

  class GenerationStore {
    const env: Env
    var staging: map<string, Dir>
    var generations: map<string, Dir>
    var head: Option<Bytes>

    constructor (env: Env, d: Disk)
      ensures this.env == env && Contents() == d
    {
      this.env := env;
      staging, generations, head := d.staging, d.generations, d.head;
    }

    function Contents(): Disk
      reads this
    {
      Disk(staging, generations, head)
    }

    method VerifyPayloadFiles(dir: Dir, payloads: seq<PayloadEntry>) returns (intact: bool)
      ensures intact == PayloadsIntact(env, dir, payloads)
    {
      for i := 0 to |payloads|
        invariant forall k :: 0 <= k < i ==> PayloadIntact(env, dir, payloads[k])
      {
        var path := PayloadFile(payloads[i].path);
        if path !in dir || |dir[path]| != payloads[i].size || env.hash(dir[path]) != payloads[i].hash {
          assert payloads[i] in payloads && !PayloadIntact(env, dir, payloads[i]);
          return false;
        }
      }
      return true;
    }

    method VerifyGeneration(id: string, expected: Option<(Digest, Digest)>) returns (r: Result<Manifest, Error>)
      ensures r == Verify(env, generations, id, expected)
    {
      if !Required(id) { return Err(Invalid); }
      if id !in generations { return Err(NotFound); }
      var dir := generations[id];
      if ManifestFile !in dir || PromotionFile !in dir { return Err(FilesMissing); }
      var actual := (env.hash(dir[ManifestFile]), env.hash(dir[PromotionFile]));
      if expected.Some? && actual != expected.value { return Err(HashMismatch); }
      var manifest, promotion := ReadManifest(env, dir[ManifestFile]), ReadPromotion(env, dir[PromotionFile]);
      if manifest.None? || promotion.None? { return Err(NotReadable); }
      var m, p := manifest.value, promotion.value;
      if m.commitId != id || p.commitId != id || p.manifestHash != actual.0
         || p.caseId != m.caseId || p.decisionId != m.decisionId {
        return Err(IdentityMismatch);
      }
      var intact := VerifyPayloadFiles(dir, m.payloads);
      if !intact { return Err(PayloadIntegrity); }
      if dir.Keys != {ManifestFile, PromotionFile} + PayloadPaths(m.payloads) { return Err(UndeclaredFiles); }
      r := Ok(m);
    }

    method StageGeneration(m: Manifest, payloads: map<string, Bytes>, fault: Fault) returns (r: Result<(), Error>)
      modifies this`staging
      ensures (r, Contents()) == Stage(env, old(Contents()), m, payloads, fault)
    {
      hide ValidManifest, UniquePaths;
      if !ValidManifest(env, m) { return Err(Invalid); }
      if !PayloadsMatch(env, m, payloads) { return Err(PayloadMismatch); }
      if m.policy != env.policy { return Err(PolicyMismatch); }
      if m.commitId in staging || m.commitId in generations { return Err(AlreadyExists); }
      var dir: Dir := map[];
      for i := 0 to |m.payloads|
        invariant dir == PayloadFiles(m.payloads[..i], payloads)
      {
        var e := m.payloads[i];
        assert m.payloads[..i + 1][..i] == m.payloads[..i];
        dir := dir[PayloadFile(e.path) := payloads[e.path]];
      }
      assert m.payloads[..|m.payloads|] == m.payloads;
      dir := dir[ManifestFile := env.encodeManifest(m)];
      if fault == NotWritten || fault == TornWrite { return Err(WriteFailed); }
      staging := staging[m.commitId := dir];
      r := if fault == NoFault then Ok(()) else Err(WriteFailed);
    }

    method PublishGeneration(m: Manifest, ev: Evidence, now: int, fault: PublishFault) returns (r: Result<HeadPointer, Error>)
      modifies this
      ensures (r, Contents()) == Publish(env, old(Contents()), m, ev, now, fault)
    {
      hide Bindings, ValidManifest, ValidPromotion, CandidateIntact, ParseHead, Verify, Envelope, HeadFor;
      if !ValidManifest(env, m) { return Err(Invalid); }
      if !Bindings(env, m, ev) { return Err(BindingMismatch); }
      if head.None? { return Err(HeadMissing); }
      var current := ParseHead(env, head.value);
      if current.None? { return Err(HeadInvalid); }
      var h := current.value;
      if h.commitId != m.parent { return Err(ParentMismatch); }
      if m.seqNo != h.seqNo + 1 { return Err(SequenceMismatch); }
      var verified := VerifyGeneration(h.commitId, Some((h.manifestHash, h.promotionHash)));
      if verified.Err? { return Err(verified.error); }
      if m.commitId !in staging { return Err(StagedMissing); }
      if m.commitId in generations { return Err(AlreadyExists); }
      if !CandidateIntact(env, staging[m.commitId], m) { return Err(CandidateMismatch); }
      var p := Envelope(env, m, ev, now);
      if !ValidPromotion(env, p) { return Err(Invalid); }
      if fault == EnvelopeNotWritten { return Err(WriteFailed); }
      if fault.EnvelopeTorn? {
        staging := staging[m.commitId := staging[m.commitId][PromotionFile := fault.partial]];
        return Err(WriteFailed);
      }
      var done := staging[m.commitId][PromotionFile := env.encodePromotion(p)];
      if fault == NotMaterialised {
        staging := staging[m.commitId := done];
        return Err(WriteFailed);
      }
      staging, generations := staging - {m.commitId}, generations[m.commitId := done];
      if fault == HeadNotWritten { return Err(WriteFailed); }
      head := Some(env.encodeHead(HeadFor(env, m, p)));
      r := if fault == NoPublishFault then Ok(HeadFor(env, m, p)) else Err(WriteFailed);
    }
  }

  // ----- What a staged and a materialised directory are

  lemma VerifiedFiles(env: Env, generations: map<string, Dir>, id: string, expected: Option<(Digest, Digest)>)
    requires Verify(env, generations, id, expected).Ok?
    ensures id in generations && ManifestFile in generations[id] && PromotionFile in generations[id]
    ensures Verify(env, generations, id, expected).value.commitId == id
  {
  }

  lemma {:induction false} PayloadFilesAre(entries: seq<PayloadEntry>, payloads: map<string, Bytes>)
    requires forall e :: e in entries ==> e.path in payloads
    ensures PayloadFiles(entries, payloads).Keys == PayloadPaths(entries)
    ensures forall e :: e in entries ==> PayloadFile(e.path) in PayloadFiles(entries, payloads)
                                         && PayloadFiles(entries, payloads)[PayloadFile(e.path)] == payloads[e.path]
    decreases |entries|
  {
    if entries != [] {
      var p := entries[..|entries| - 1];
      assert entries == p + [entries[|entries| - 1]];
      PayloadFilesAre(p, payloads);
      assert PayloadPaths(entries) == PayloadPaths(p) + {PayloadFile(entries[|entries| - 1].path)};
    }
  }

  // What was staged passes the check on a candidate.
  lemma StagedIntact(env: Env, m: Manifest, payloads: map<string, Bytes>)
    requires PayloadsMatch(env, m, payloads)
    ensures CandidateIntact(env, StagedDir(env, m, payloads), m)
  {
    PayloadFilesAre(m.payloads, payloads);
  }

  // A candidate that passes every check verifies once its envelope is beside it,
  // under the digests the new HEAD names.
  lemma MaterialisedVerifies(env: Env, dir: Dir, m: Manifest, p: Promotion)
    requires Sound(env) && ValidManifest(env, m) && ValidPromotion(env, p) && CandidateIntact(env, dir, m)
    requires p.commitId == m.commitId && p.manifestHash == ManifestHash(env, m)
    requires p.caseId == m.caseId && p.decisionId == m.decisionId
    ensures var done := dir[PromotionFile := env.encodePromotion(p)];
            && VerifyDir(env, m.commitId, done, Some((ManifestHash(env, m), env.hash(env.encodePromotion(p))))) == Ok(m)
            && done[ManifestFile] == env.encodeManifest(m)
  {
    var done := dir[PromotionFile := env.encodePromotion(p)];
    assert dir[ManifestFile] == env.encodeManifest(m);
    forall e | e in m.payloads ensures PayloadIntact(env, done, e) {
      assert PayloadIntact(env, dir, e);
    }
  }
}
