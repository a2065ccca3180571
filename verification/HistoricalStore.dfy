// The operations of historical_store.py on its tables: registration, claims,
// evidence, the promotion gate, reviews and discrepancies.
module HistoricalStore {
  import opened Base
  import opened HistoricalSchema

  // What a claim's metadata says about promotion.
  datatype RequiredTypes = AnyType | Malformed | OneOf(types: seq<string>)

  datatype Gate = Gate(blockedUntilRaw: bool, required: RequiredTypes)

  // The reader of metadata text, and the audit payload of an event.
  datatype Env = Env(readGate: string -> Gate, payload: (string, string) -> string)

  datatype Error = Refused | InvalidArgument | UnknownDocument | UnknownClaim | UnknownDiscrepancy
    | UnknownRepresentation | ForeignRepresentation | PromotionBlocked

  datatype Blocker = InvalidRequiredTypes | NoDocument | RawCaptureRequired

  predicate Blank(s: string) {
    forall i :: 0 <= i < |s| ==> IsSpace(s[i])
  }

  function OptText(o: Option<string>): Value {
    match o case None => Null case Some(v) => Text(v)
  }

  function OptInt(o: Option<int>): Value {
    match o case None => Null case Some(v) => Int(v)
  }

  function Flag(b: bool): Value {
    Int(if b then 1 else 0)
  }

  // ----- Rows

  datatype RepresentationInput = RepresentationInput(
    id: string, documentId: string, kind: string, state: string, locator: string, mime: Option<string>,
    hash: Option<string>, size: Option<int>, url: Option<string>, raw: bool, preferred: bool, metadata: string)

  function RepresentationRow(r: RepresentationInput, now: string): Row {
    map["representation_id" := Text(r.id), "document_id" := Text(r.documentId), "representation_type" := Text(r.kind),
        "acquisition_state" := Text(r.state), "mime_type" := OptText(r.mime), "content_sha256" := OptText(r.hash),
        "byte_length" := OptInt(r.size), "locator" := Text(r.locator), "source_url" := OptText(r.url),
        "raw_artifact" := Flag(r.raw), "preferred_for_review" := Flag(r.preferred),
        "metadata_json" := Text(r.metadata), "created_at_utc" := Text(now)]
  }

  datatype ClaimInput = ClaimInput(
    id: string, documentId: Option<string>, runId: Option<string>, subject: Option<string>, predicate_: string,
    object_: Option<string>, value: Option<string>, text: string, createdBy: string, metadata: string)

  function ClaimRow(c: ClaimInput, now: string): Row {
    map["claim_id" := Text(c.id), "document_id" := OptText(c.documentId), "run_id" := OptText(c.runId),
        "subject_entity_id" := OptText(c.subject), "predicate" := Text(c.predicate_),
        "object_entity_id" := OptText(c.object_), "object_value" := OptText(c.value), "claim_text" := Text(c.text),
        "status" := Text("PROPOSED"), "created_by" := Text(c.createdBy), "metadata_json" := Text(c.metadata),
        "created_at_utc" := Text(now), "promoted_at_utc" := Null]
  }

  datatype EvidenceInput = EvidenceInput(
    id: string, claimId: string, documentId: string, representationId: Option<string>, locator: Option<string>,
    excerptHash: Option<string>, role: string, metadata: string)

  function EvidenceRow(e: EvidenceInput, now: string): Row {
    map["evidence_id" := Text(e.id), "claim_id" := Text(e.claimId), "document_id" := Text(e.documentId),
        "representation_id" := OptText(e.representationId), "locator" := OptText(e.locator),
        "excerpt_sha256" := OptText(e.excerptHash), "role" := Text(e.role),
        "metadata_json" := Text(e.metadata), "created_at_utc" := Text(now)]
  }

  function ReviewRow(id: string, objectType: string, objectId: string, decision: string, reviewer: string,
                     rationale: string, metadata: string, now: string): Row
  {
    map["review_id" := Text(id), "object_type" := Text(objectType), "object_id" := Text(objectId),
        "decision" := Text(decision), "reviewer" := Text(reviewer), "rationale" := Text(rationale),
        "metadata_json" := Text(metadata), "created_at_utc" := Text(now)]
  }

  // The next AUTOINCREMENT number of the append-only audit table.
  function NextAuditId(rows: seq<Row>): int {
    if rows == [] then 1
    else
      var last, rest := Get(rows[|rows| - 1], "audit_id"), NextAuditId(rows[..|rows| - 1]);
      if last.Int? && last.i >= rest then last.i + 1 else rest
  }

  function AuditRow(env: Env, rows: seq<Row>, event: string, objectType: string, objectId: string, now: string): Row {
    map["audit_id" := Int(NextAuditId(rows)), "event_type" := Text(event), "object_type" := Text(objectType),
        "object_id" := Text(objectId), "payload_json" := Text(env.payload(event, objectId)), "created_at_utc" := Text(now)]
  }

  // One insertion and its audit line, in one transaction.
  function InsertAudited(env: Env, s: Store, t: Table, row: Row, event: string, objectType: string, objectId: string, now: string)
    : (r: Result<Store, Error>)
    requires Full(s)
    ensures r.Ok? ==> Full(r.value)
  {
    match Insert(s, t, row)
    case None => Err(Refused)
    case Some(x) =>
      match Insert(x, AuditLog, AuditRow(env, x[AuditLog], event, objectType, objectId, now))
      case None => Err(Refused)
      case Some(y) => Ok(y)
  }

  // ----- Registration

  predicate CheckRepresentation(r: RepresentationInput) {
    && r.state in ACQUISITION_STATES && !Blank(r.locator)
    && (r.hash.Some? ==> |r.hash.value| == 64) && (r.size.Some? ==> r.size.value >= 0)
    && if r.state == "RAW_CAPTURED" then r.raw && r.hash.Some? && r.size.Some? else !r.raw
  }

  function RegisterRepresentation(env: Env, s: Store, r: RepresentationInput, now: string): (x: Result<Store, Error>)
    requires Full(s)
    ensures x.Ok? ==> Full(x.value)
  {
    if !CheckRepresentation(r) then Err(InvalidArgument)
    else if !Holds(s, Documents, Text(r.documentId)) then Err(UnknownDocument)
    else InsertAudited(env, s, Representations, RepresentationRow(r, now), "document_representation_registered",
                       "document_representation", r.id, now)
  }

  function ProposeClaim(env: Env, s: Store, c: ClaimInput, now: string): (x: Result<Store, Error>)
    requires Full(s)
    ensures x.Ok? ==> Full(x.value)
  {
    InsertAudited(env, s, Claims, ClaimRow(c, now), "claim_proposed", "claim", c.id, now)
  }

  // The position of the first row with the given value in a column, if any.
  function Find(rows: seq<Row>, column: string, v: Value): (r: Option<nat>)
    ensures r.Some? ==> r.value < |rows| && Get(rows[r.value], column) == v
    ensures r.Some? ==> forall i :: 0 <= i < r.value ==> Get(rows[i], column) != v
    ensures r.None? <==> forall i :: 0 <= i < |rows| ==> Get(rows[i], column) != v
  {
    if rows == [] then None
    else
      match Find(rows[..|rows| - 1], column, v)
      case Some(i) => Some(i)
      case None => if Get(rows[|rows| - 1], column) == v then Some(|rows| - 1) else None
  }

  function AddEvidence(env: Env, s: Store, e: EvidenceInput, now: string): (x: Result<Store, Error>)
    requires Full(s)
    ensures x.Ok? ==> Full(x.value)
  {
    if e.role !in {"supports", "contradicts", "mentions"} then Err(InvalidArgument)
    else
      var own := if e.representationId.None? then None
                 else Find(s[Representations], "representation_id", Text(e.representationId.value));
      if e.representationId.Some? && own.None? then Err(UnknownRepresentation)
      else if e.representationId.Some? && Get(s[Representations][own.value], "document_id") != Text(e.documentId)
      then Err(ForeignRepresentation)
      else InsertAudited(env, s, Evidence, EvidenceRow(e, now), "claim_evidence_added", "claim", e.claimId, now)
  }

  // Sources, documents, ingest runs, entities, aliases, discrepancies and their
  // claims are plain insertions: any row of theirs that the schema admits.
  const PLAIN := {Sources, Documents, IngestRuns, Entities, Aliases, Discrepancies, DiscrepancyClaims}

  function Register(env: Env, s: Store, t: Table, row: Row, event: string, objectType: string, objectId: string, now: string)
    : (x: Result<Store, Error>)
    requires Full(s)
    ensures x.Ok? ==> Full(x.value)
  {
    if t !in PLAIN then Err(InvalidArgument) else InsertAudited(env, s, t, row, event, objectType, objectId, now)
  }

  // ----- The promotion gate

  // A captured artifact of the document, of one of the types if types are asked for.
  predicate Captured(row: Row, document: Value, required: RequiredTypes) {
    && Get(row, "document_id") == document && Get(row, "acquisition_state") == Text("RAW_CAPTURED")
    && Get(row, "raw_artifact") == Int(1) && Get(row, "content_sha256") != Null && Get(row, "byte_length") != Null
    && (required.OneOf? && required.types != [] ==>
          Get(row, "representation_type").Text? && Get(row, "representation_type").s in required.types)
  }

  predicate ValidTypes(required: RequiredTypes) {
    match required
    case AnyType => true
    case Malformed => false
    case OneOf(types) => types != [] && forall i :: 0 <= i < |types| ==> !Blank(types[i])
  }

  function GateOf(env: Env, claim: Row): Gate {
    var meta := Get(claim, "metadata_json");
    if meta.Text? then env.readGate(meta.s) else Gate(false, AnyType)
  }

  function Blockers(env: Env, s: Store, claim: Row): seq<Blocker>
    requires Full(s)
  {
    var gate := GateOf(env, claim);
    if !gate.blockedUntilRaw then []
    else
      var document := Get(claim, "document_id");
      var malformed := if ValidTypes(gate.required) then [] else [InvalidRequiredTypes];
      if document == Null || document == Text("") then malformed + [NoDocument]
      else if malformed != [] then malformed
      else if exists i :: 0 <= i < |s[Representations]| && Captured(s[Representations][i], document, gate.required) then []
      else [RawCaptureRequired]
  }

  function PromotionBlockers(env: Env, s: Store, claimId: string): Result<seq<Blocker>, Error>
    requires Full(s)
  {
    match Find(s[Claims], "claim_id", Text(claimId))
    case None => Err(UnknownClaim)
    case Some(i) => Ok(Blockers(env, s, s[Claims][i]))
  }

  // ----- Reviews

  function StatusFor(decision: string): Option<string> {
    if decision == "VALIDATE" then Some("VALIDATED")
    else if decision == "PROMOTE_CANONICAL" then Some("CANONICAL")
    else if decision == "REJECT" then Some("REJECTED")
    else if decision == "QUARANTINE" then Some("QUARANTINED")
    else None
  }

  function Reviewed(claim: Row, status: string, now: string): Row {
    var c := claim["status" := Text(status)];
    if status == "CANONICAL" then c["promoted_at_utc" := Text(now)] else c
  }

  datatype ReviewInput = ReviewInput(
    id: string, claimId: string, decision: string, reviewer: string, rationale: string, metadata: string)

  // The transaction of a review whose gate has passed: the review row, the claim's
  // new status, and the audit line.
  function RecordReview(env: Env, s: Store, r: ReviewInput, status: string, now: string): (x: Result<Store, Error>)
    requires Full(s)
    ensures x.Ok? ==> Full(x.value)
  {
    match Find(s[Claims], "claim_id", Text(r.claimId))
    case None => Err(UnknownClaim)
    case Some(i) =>
      var review := ReviewRow(r.id, "claim", r.claimId, r.decision, r.reviewer, r.rationale, r.metadata, now);
      var updated := s[Claims := s[Claims][i := Reviewed(s[Claims][i], status, now)]];
      match InsertAudited(env, updated, Reviews, review, "claim_reviewed", "claim", r.claimId, now)
      case Err(e) => Err(e)
      case Ok(y) => Ok(y)
  }

  // The outcome and the store afterwards: a blocked promotion still leaves a line
  // in the audit log.
  function ReviewClaim(env: Env, s: Store, r: ReviewInput, now: string): (x: (Result<(), Error>, Store))
    requires Full(s)
    ensures Full(x.1)
  {
    var status := StatusFor(r.decision);
    if status.None? || Blank(r.reviewer) || Blank(r.rationale) then (Err(InvalidArgument), s)
    else
      var blocked := if r.decision == "PROMOTE_CANONICAL" then PromotionBlockers(env, s, r.claimId) else Ok([]);
      match blocked
      case Err(e) => (Err(e), s)
      case Ok(blockers) =>
        if blockers != [] then
          (match Insert(s, AuditLog, AuditRow(env, s[AuditLog], "claim_promotion_blocked", "claim", r.claimId, now))
           case None => (Err(Refused), s)
           case Some(y) => (Err(PromotionBlocked), y))
        else
          match RecordReview(env, s, r, status.value, now)
          case Err(e) => (Err(e), s)
          case Ok(y) => (Ok(()), y)
  }

  function Resolved(row: Row, status: string, resolution: string, now: string): Row {
    row["status" := Text(status)]["resolution" := Text(resolution)]["resolved_at_utc" := Text(now)]
  }

  function ResolveDiscrepancy(env: Env, s: Store, id: string, reviewId: string, reviewer: string, resolution: string,
                              closed: bool, now: string): (x: Result<Store, Error>)
    requires Full(s)
    ensures x.Ok? ==> Full(x.value)
  {
    if Blank(reviewer) || Blank(resolution) then Err(InvalidArgument)
    else
      match Find(s[Discrepancies], "discrepancy_id", Text(id))
      case None => Err(UnknownDiscrepancy)
      case Some(i) =>
        var status := if closed then "CLOSED_NO_RESOLUTION" else "RESOLVED";
        var updated := s[Discrepancies := s[Discrepancies][i := Resolved(s[Discrepancies][i], status, resolution, now)]];
        InsertAudited(env, updated, Reviews, ReviewRow(reviewId, "discrepancy", id, status, reviewer, resolution, "{}", now),
                      "discrepancy_resolved", "discrepancy", id, now)
  }

  // ----- Operations as steps of a run

  datatype Op =
    | Plain(t: Table, row: Row, event: string, objectType: string, objectId: string)
    | Representation(r: RepresentationInput)
    | Propose(c: ClaimInput)
    | Cite(e: EvidenceInput)
    | Review(v: ReviewInput)
    | Resolve(id: string, reviewId: string, reviewer: string, resolution: string, closed: bool)

  function Settle(s: Store, r: Result<Store, Error>): (x: Store)
    requires Full(s) && (r.Ok? ==> Full(r.value))
    ensures Full(x)
  {
    match r case Ok(x) => x case Err(_) => s
  }

  // A failed operation rolls its transaction back.
  function Apply(env: Env, s: Store, op: Op, now: string): (x: Store)
    requires Full(s)
    ensures Full(x)
  {
    match op
    case Plain(t, row, event, objectType, objectId) => Settle(s, Register(env, s, t, row, event, objectType, objectId, now))
    case Representation(r) => Settle(s, RegisterRepresentation(env, s, r, now))
    case Propose(c) => Settle(s, ProposeClaim(env, s, c, now))
    case Cite(e) => Settle(s, AddEvidence(env, s, e, now))
    case Review(v) => ReviewClaim(env, s, v, now).1
    case Resolve(id, reviewId, reviewer, resolution, closed) =>
      Settle(s, ResolveDiscrepancy(env, s, id, reviewId, reviewer, resolution, closed, now))
  }

  function Exec(env: Env, s: Store, ops: seq<(Op, string)>): (x: Store)
    requires Full(s)
    ensures Full(x)
    decreases |ops|
  {
    if ops == [] then s
    else
      var n := |ops| - 1;
      Apply(env, Exec(env, s, ops[..n]), ops[n].0, ops[n].1)
  }

  // ----- The database object

  class HistoricalDatabase {
    const env: Env
    var tables: Store

    constructor (env: Env)
      ensures this.env == env && tables == Empty()
    {
      this.env := env;
      tables := Empty();
    }

    method InsertWithAudit(t: Table, row: Row, event: string, objectType: string, objectId: string, now: string)
      returns (done: bool)
      requires Full(tables)
      modifies this
      ensures Full(tables)
      ensures match InsertAudited(env, old(tables), t, row, event, objectType, objectId, now)
              case Ok(x) => done && tables == x
              case Err(_) => !done && tables == old(tables)
    {
      hide Admits, Insert;
      var before := tables;
      var first := Insert(tables, t, row);
      if first.None? { return false; }
      tables := first.value;
      var second := Insert(tables, AuditLog, AuditRow(env, tables[AuditLog], event, objectType, objectId, now));
      if second.None? {
        tables := before;
        return false;
      }
      tables := second.value;
      return true;
    }

    method RegisterDocumentRepresentation(r: RepresentationInput, now: string) returns (x: Result<(), Error>)
      requires Full(tables)
      modifies this
      ensures Full(tables)
      ensures match RegisterRepresentation(env, old(tables), r, now)
              case Ok(s) => x == Ok(()) && tables == s
              case Err(e) => x == Err(e) && tables == old(tables)
    {
      if r.state !in ACQUISITION_STATES || Blank(r.locator) { return Err(InvalidArgument); }
      if r.hash.Some? && |r.hash.value| != 64 { return Err(InvalidArgument); }
      if r.size.Some? && r.size.value < 0 { return Err(InvalidArgument); }
      if r.state == "RAW_CAPTURED" {
        if !r.raw || r.hash.None? || r.size.None? { return Err(InvalidArgument); }
      } else if r.raw {
        return Err(InvalidArgument);
      }
      if !Holds(tables, Documents, Text(r.documentId)) { return Err(UnknownDocument); }
      var done := InsertWithAudit(Representations, RepresentationRow(r, now), "document_representation_registered",
                                  "document_representation", r.id, now);
      x := if done then Ok(()) else Err(Refused);
    }

    method RegisterRow(t: Table, row: Row, event: string, objectType: string, objectId: string, now: string)
      returns (x: Result<(), Error>)
      requires Full(tables)
      modifies this
      ensures Full(tables)
      ensures match Register(env, old(tables), t, row, event, objectType, objectId, now)
              case Ok(s) => x == Ok(()) && tables == s
              case Err(_) => x.Err? && tables == old(tables)
    {
      if t !in PLAIN { return Err(InvalidArgument); }
      var done := InsertWithAudit(t, row, event, objectType, objectId, now);
      x := if done then Ok(()) else Err(Refused);
    }

    method ProposeAClaim(c: ClaimInput, now: string) returns (x: Result<(), Error>)
      requires Full(tables)
      modifies this
      ensures Full(tables)
      ensures match ProposeClaim(env, old(tables), c, now)
              case Ok(s) => x == Ok(()) && tables == s
              case Err(_) => x.Err? && tables == old(tables)
    {
      var done := InsertWithAudit(Claims, ClaimRow(c, now), "claim_proposed", "claim", c.id, now);
      x := if done then Ok(()) else Err(Refused);
    }

    method AddClaimEvidence(e: EvidenceInput, now: string) returns (x: Result<(), Error>)
      requires Full(tables)
      modifies this
      ensures Full(tables)
      ensures match AddEvidence(env, old(tables), e, now)
              case Ok(s) => x == Ok(()) && tables == s
              case Err(_) => x.Err? && tables == old(tables)
    {
      if e.role !in {"supports", "contradicts", "mentions"} { return Err(InvalidArgument); }
      if e.representationId.Some? {
        var own := Find(tables[Representations], "representation_id", Text(e.representationId.value));
        if own.None? { return Err(UnknownRepresentation); }
        if Get(tables[Representations][own.value], "document_id") != Text(e.documentId) { return Err(ForeignRepresentation); }
      }
      var done := InsertWithAudit(Evidence, EvidenceRow(e, now), "claim_evidence_added", "claim", e.claimId, now);
      x := if done then Ok(()) else Err(Refused);
    }

    method ResolveADiscrepancy(id: string, reviewId: string, reviewer: string, resolution: string, closed: bool, now: string)
      returns (x: Result<(), Error>)
      requires Full(tables)
      modifies this
      ensures Full(tables)
      ensures match ResolveDiscrepancy(env, old(tables), id, reviewId, reviewer, resolution, closed, now)
              case Ok(s) => x == Ok(()) && tables == s
              case Err(_) => x.Err? && tables == old(tables)
    {
      if Blank(reviewer) || Blank(resolution) { return Err(InvalidArgument); }
      var at := Find(tables[Discrepancies], "discrepancy_id", Text(id));
      if at.None? { return Err(UnknownDiscrepancy); }
      var before := tables;
      var status := if closed then "CLOSED_NO_RESOLUTION" else "RESOLVED";
      tables := tables[Discrepancies := tables[Discrepancies][at.value := Resolved(tables[Discrepancies][at.value], status, resolution, now)]];
      var done := InsertWithAudit(Reviews, ReviewRow(reviewId, "discrepancy", id, status, reviewer, resolution, "{}", now),
                                  "discrepancy_resolved", "discrepancy", id, now);
      if !done {
        tables := before;
        return Err(Refused);
      }
      x := Ok(());
    }

    // What stands in the way of promoting a claim; reads only.
    method ClaimPromotionBlockers(claimId: string) returns (x: Result<seq<Blocker>, Error>)
      requires Full(tables)
      ensures x == PromotionBlockers(env, tables, claimId)
    {
      var at := Find(tables[Claims], "claim_id", Text(claimId));
      if at.None? { return Err(UnknownClaim); }
      var claim := tables[Claims][at.value];
      var gate := GateOf(env, claim);
      var blockers: seq<Blocker> := [];
      if !gate.blockedUntilRaw { return Ok(blockers); }
      if !ValidTypes(gate.required) { blockers := [InvalidRequiredTypes]; }
      var document := Get(claim, "document_id");
      if document == Null || document == Text("") { return Ok(blockers + [NoDocument]); }
      if blockers != [] { return Ok(blockers); }
      var rows := tables[Representations];
      for i := 0 to |rows|
        invariant forall k :: 0 <= k < i ==> !Captured(rows[k], document, gate.required)
      {
        if Captured(rows[i], document, gate.required) { return Ok([]); }
      }
      x := Ok([RawCaptureRequired]);
    }

    method ReviewAClaim(r: ReviewInput, now: string) returns (x: Result<(), Error>)
      requires Full(tables)
      modifies this
      ensures Full(tables) && (x, tables) == ReviewClaim(env, old(tables), r, now)
    {
      var status := StatusFor(r.decision);
      if status.None? || Blank(r.reviewer) || Blank(r.rationale) { return Err(InvalidArgument); }
      if r.decision == "PROMOTE_CANONICAL" {
        var blockers := ClaimPromotionBlockers(r.claimId);
        if blockers.Err? { return Err(blockers.error); }
        if blockers.value != [] {
          var noted := Insert(tables, AuditLog, AuditRow(env, tables[AuditLog], "claim_promotion_blocked", "claim", r.claimId, now));
          if noted.None? { return Err(Refused); }
          tables := noted.value;
          return Err(PromotionBlocked);
        }
      }
      var at := Find(tables[Claims], "claim_id", Text(r.claimId));
      if at.None? { return Err(UnknownClaim); }
      var before := tables;
      tables := tables[Claims := tables[Claims][at.value := Reviewed(tables[Claims][at.value], status.value, now)]];
      var done := InsertWithAudit(Reviews, ReviewRow(r.id, "claim", r.claimId, r.decision, r.reviewer, r.rationale, r.metadata, now),
                                  "claim_reviewed", "claim", r.claimId, now);
      if !done {
        tables := before;
        return Err(Refused);
      }
      x := Ok(());
    }
  }
}
