// What every run of the historical store keeps: the schema's constraints, the
// promotion gate, statuses that follow the reviews, and evidence on its own document.
module HistoricalLaws {
  import opened Base
  import opened HistoricalSchema
  import opened HistoricalStore

  // ----- The gate, said directly

  // A stored artifact of the document itself, of one of the types if a list is given.
  predicate RawCapture(row: Row, document: Value, required: RequiredTypes) {
    && Get(row, "document_id") == document
    && Get(row, "acquisition_state") == Text("RAW_CAPTURED") && Get(row, "raw_artifact") == Int(1)
    && Get(row, "content_sha256") != Null && Get(row, "byte_length") != Null
    && (required.OneOf? ==> exists i :: 0 <= i < |required.types| && Get(row, "representation_type") == Text(required.types[i]))
  }

  // A claim whose metadata asks for raw capture has a document, a usable list of
  // types or none, and a captured representation of such a type on that document.
  predicate GateMet(env: Env, representations: seq<Row>, claim: Row) {
    var meta, document := Get(claim, "metadata_json"), Get(claim, "document_id");
    meta.Text? && env.readGate(meta.s).blockedUntilRaw ==>
      var required := env.readGate(meta.s).required;
      && required != Malformed
      && (required.OneOf? ==> required.types != [] && forall t :: t in required.types ==> exists c :: c in t && !IsSpace(c))
      && document != Null && document != Text("")
      && exists i :: 0 <= i < |representations| && RawCapture(representations[i], document, required)
  }

  lemma BlankIff(t: string)
    ensures Blank(t) <==> !exists c :: c in t && !IsSpace(c)
  {
    assert forall k :: 0 <= k < |t| ==> t[k] in t;
  }

  lemma TypesIff(required: RequiredTypes)
    ensures ValidTypes(required) <==>
            required != Malformed
            && (required.OneOf? ==> required.types != [] && forall t :: t in required.types ==> exists c :: c in t && !IsSpace(c))
  {
    hide Blank;
    if required.OneOf? {
      assert forall i :: 0 <= i < |required.types| ==> required.types[i] in required.types;
      forall t | t in required.types ensures Blank(t) <==> !exists c :: c in t && !IsSpace(c) {
        BlankIff(t);
      }
    }
  }

  lemma CapturedIff(row: Row, document: Value, required: RequiredTypes)
    requires ValidTypes(required)
    ensures Captured(row, document, required) <==> RawCapture(row, document, required)
  {
  }

  // Nothing blocks a promotion exactly when the gate is met.
  lemma UnblockedIff(env: Env, s: Store, claim: Row)
    requires Full(s)
    ensures Blockers(env, s, claim) == [] <==> GateMet(env, s[Representations], claim)
  {
    hide Captured, ValidTypes, RawCapture;
    var gate := GateOf(env, claim);
    TypesIff(gate.required);
    if ValidTypes(gate.required) {
      forall i | 0 <= i < |s[Representations]|
        ensures Captured(s[Representations][i], Get(claim, "document_id"), gate.required)
                <==> RawCapture(s[Representations][i], Get(claim, "document_id"), gate.required)
      {
        CapturedIff(s[Representations][i], Get(claim, "document_id"), gate.required);
      }
    }
  }

  ghost predicate GateHolds(env: Env, representations: seq<Row>, claims: seq<Row>) {
    forall i :: 0 <= i < |claims| && Get(claims[i], "status") == Text("CANONICAL") ==> GateMet(env, representations, claims[i])
  }

  // ----- Statuses follow reviews

  // What each decision makes of a claim.
  const GIVEN := map["VALIDATE" := "VALIDATED", "PROMOTE_CANONICAL" := "CANONICAL", "REJECT" := "REJECTED",
                     "QUARANTINE" := "QUARANTINED"]

  lemma StatusGiven(decision: string)
    ensures StatusFor(decision) == if decision in GIVEN then Some(GIVEN[decision]) else None
  {
  }

  // The status the latest review of a claim gives it.
  function LatestStatus(reviews: seq<Row>, id: Value): string {
    if reviews == [] then "PROPOSED"
    else
      var r := reviews[|reviews| - 1];
      if Get(r, "object_type") == Text("claim") && Get(r, "object_id") == id && Get(r, "decision").Text?
         && Get(r, "decision").s in GIVEN
      then GIVEN[Get(r, "decision").s]
      else LatestStatus(reviews[..|reviews| - 1], id)
  }

  ghost predicate StatusHolds(reviews: seq<Row>, claims: seq<Row>) {
    forall i :: 0 <= i < |claims| ==> Get(claims[i], "status") == Text(LatestStatus(reviews, Get(claims[i], "claim_id")))
  }

  ghost predicate ReviewsKnown(reviews: seq<Row>, claims: seq<Row>) {
    forall i :: 0 <= i < |reviews| && Get(reviews[i], "object_type") == Text("claim") ==>
      exists k :: 0 <= k < |claims| && Get(claims[k], "claim_id") == Get(reviews[i], "object_id")
  }

  // ----- Evidence cites its own document

  predicate CitesOwn(representations: seq<Row>, evidence: Row) {
    Get(evidence, "representation_id") != Null ==>
      exists i :: 0 <= i < |representations|
                  && Get(representations[i], "representation_id") == Get(evidence, "representation_id")
                  && Get(representations[i], "document_id") == Get(evidence, "document_id")
  }

  ghost predicate EvidenceHolds(representations: seq<Row>, evidence: seq<Row>) {
    forall i :: 0 <= i < |evidence| ==> CitesOwn(representations, evidence[i])
  }

  ghost predicate Inv(env: Env, s: Store) {
    && Integrity(s)
    && GateHolds(env, s[Representations], s[Claims]) && StatusHolds(s[Reviews], s[Claims])
    && ReviewsKnown(s[Reviews], s[Claims]) && EvidenceHolds(s[Representations], s[Evidence])
  }

  // ----- One transaction

  // An audited insertion appends the row and one audit line, and keeps integrity.
  lemma AuditedAppends(env: Env, s: Store, t: Table, row: Row, event: string, objectType: string, objectId: string, now: string)
    requires Full(s) && t != AuditLog
    requires InsertAudited(env, s, t, row, event, objectType, objectId, now).Ok?
    ensures var x := InsertAudited(env, s, t, row, event, objectType, objectId, now).value;
            && Admits(s, t, row) && x[t] == s[t] + [row]
            && (forall u :: u in s && u != t && u != AuditLog ==> x[u] == s[u])
            && (Integrity(s) ==> Integrity(x))
  {
    hide Admits, RowsSound, AuditRow;
    var y := s[t := s[t] + [row]];
    assert Insert(s, t, row) == Some(y);
    var audit := AuditRow(env, y[AuditLog], event, objectType, objectId, now);
    if Integrity(s) {
      InsertKeeps(s, t, row);
      InsertKeeps(y, AuditLog, audit);
    }
  }

  // ----- Updates keep a row's shape

  // Only columns that are no key, no reference and not unique may differ.
  lemma SameColumns(t: Table, a: Row, b: Row, changed: set<string>)
    requires forall c :: c !in changed ==> Get(a, c) == Get(b, c)
    requires forall c :: c in changed ==> c !in Key(t) && c !in Unique(t) && c !in References(t)
    ensures SameIdentity(t, a, b)
  {
    hide Key, Unique, References, Get;
    forall i | 0 <= i < |Key(t)| ensures KeyOf(t, a)[i] == KeyOf(t, b)[i] {
      assert Key(t)[i] in Key(t);
    }
    forall i | 0 <= i < |Unique(t)| ensures Values(a, Unique(t))[i] == Values(b, Unique(t))[i] {
      assert Unique(t)[i] in Unique(t);
    }
    assert Key(t)[0] in Key(t);
  }

  // Setting one text column keeps a row well formed if the checks still pass.
  lemma SetText(t: Table, row: Row, c: string, v: string)
    requires WellFormed(t, row) && c in Columns(t) && c !in INTEGER_COLUMNS && Checks(t, row[c := Text(v)])
    ensures WellFormed(t, row[c := Text(v)])
  {
    hide Columns, Nullable, Checks;
    assert row[c := Text(v)].Keys == row.Keys;
  }

  lemma ReviewedWellFormed(claim: Row, status: string, now: string)
    requires WellFormed(Claims, claim) && status in CLAIM_STATES
    ensures WellFormed(Claims, Reviewed(claim, status, now))
  {
    SetText(Claims, claim, "status", status);
    hide WellFormed;
    SetText(Claims, claim["status" := Text(status)], "promoted_at_utc", now);
  }

  lemma ReviewedShape(claim: Row, status: string, now: string)
    requires WellFormed(Claims, claim) && status in CLAIM_STATES
    ensures WellFormed(Claims, Reviewed(claim, status, now)) && SameIdentity(Claims, claim, Reviewed(claim, status, now))
  {
    hide WellFormed, SameIdentity, Reviewed;
    ReviewedWellFormed(claim, status, now);
    ReviewedIdentity(claim, status, now);
  }

  lemma ReviewedIdentity(claim: Row, status: string, now: string)
    ensures SameIdentity(Claims, claim, Reviewed(claim, status, now))
  {
    hide SameIdentity;
    SameColumns(Claims, claim, Reviewed(claim, status, now), {"status", "promoted_at_utc"});
  }

  lemma ReviewedFields(claim: Row, status: string, now: string)
    ensures var after := Reviewed(claim, status, now);
            && Get(after, "status") == Text(status) && Get(after, "claim_id") == Get(claim, "claim_id")
            && Get(after, "document_id") == Get(claim, "document_id") && Get(after, "metadata_json") == Get(claim, "metadata_json")
  {
  }

  lemma ResolvedWellFormed(row: Row, status: string, resolution: string, now: string)
    requires WellFormed(Discrepancies, row) && status in {"OPEN", "RESOLVED", "CLOSED_NO_RESOLUTION"}
    ensures WellFormed(Discrepancies, Resolved(row, status, resolution, now))
  {
    hide WellFormed;
    SetText(Discrepancies, row, "status", status);
    var a := row["status" := Text(status)];
    SetText(Discrepancies, a, "resolution", resolution);
    SetText(Discrepancies, a["resolution" := Text(resolution)], "resolved_at_utc", now);
  }

  lemma ResolvedShape(row: Row, status: string, resolution: string, now: string)
    requires WellFormed(Discrepancies, row) && status in {"OPEN", "RESOLVED", "CLOSED_NO_RESOLUTION"}
    ensures WellFormed(Discrepancies, Resolved(row, status, resolution, now))
    ensures SameIdentity(Discrepancies, row, Resolved(row, status, resolution, now))
  {
    hide WellFormed, SameIdentity, Resolved;
    ResolvedWellFormed(row, status, resolution, now);
    ResolvedIdentity(row, status, resolution, now);
  }

  lemma ResolvedIdentity(row: Row, status: string, resolution: string, now: string)
    ensures SameIdentity(Discrepancies, row, Resolved(row, status, resolution, now))
  {
    hide SameIdentity;
    SameColumns(Discrepancies, row, Resolved(row, status, resolution, now), {"status", "resolution", "resolved_at_utc"});
  }

  // ----- How the four invariants move

  lemma GateStays(env: Env, before: seq<Row>, after: seq<Row>, claim: Row)
    requires GateMet(env, before, claim) && before <= after
    ensures GateMet(env, after, claim)
  {
    hide RawCapture, Get;
    var meta := Get(claim, "metadata_json");
    if meta.Text? && env.readGate(meta.s).blockedUntilRaw {
      var i :| 0 <= i < |before| && RawCapture(before[i], Get(claim, "document_id"), env.readGate(meta.s).required);
      assert after[i] == before[i];
    }
  }

  lemma CitesStays(before: seq<Row>, after: seq<Row>, evidence: Row)
    requires CitesOwn(before, evidence) && before <= after
    ensures CitesOwn(after, evidence)
  {
    hide Get;
    if Get(evidence, "representation_id") != Null {
      var i :| 0 <= i < |before| && Get(before[i], "representation_id") == Get(evidence, "representation_id")
               && Get(before[i], "document_id") == Get(evidence, "document_id");
      assert after[i] == before[i];
    }
  }

  // No review is for a claim that does not exist.
  lemma {:induction false} NeverReviewed(reviews: seq<Row>, id: Value)
    requires forall i :: 0 <= i < |reviews| && Get(reviews[i], "object_type") == Text("claim") ==> Get(reviews[i], "object_id") != id
    ensures LatestStatus(reviews, id) == "PROPOSED"
    decreases |reviews|
  {
    if reviews != [] {
      NeverReviewed(reviews[..|reviews| - 1], id);
    }
  }

  lemma LatestSnoc(reviews: seq<Row>, r: Row, id: Value)
    requires Get(r, "decision").Text?
    ensures LatestStatus(reviews + [r], id) ==
            if Get(r, "object_type") == Text("claim") && Get(r, "object_id") == id && Get(r, "decision").s in GIVEN
            then GIVEN[Get(r, "decision").s] else LatestStatus(reviews, id)
  {
    assert (reviews + [r])[..|reviews|] == reviews;
  }

  // Two claims of a sound table with one identifier are one row.
  lemma ClaimIdsUnique(s: Store, i: nat, k: nat)
    requires Integrity(s) && i < |s[Claims]| && k < |s[Claims]|
    requires Get(s[Claims][i], "claim_id") == Get(s[Claims][k], "claim_id")
    ensures i == k
  {
    assert RowsSound(s, Claims);
    OneKey(s[Claims][i], s[Claims][k]);
    hide WellFormed, ReferencesMet, KeyOf;
  }

  lemma OneKey(a: Row, b: Row)
    ensures Get(a, "claim_id") == Get(b, "claim_id") <==> KeyOf(Claims, a) == KeyOf(Claims, b)
  {
    assert KeyOf(Claims, a)[0] == Get(a, "claim_id") && KeyOf(Claims, b)[0] == Get(b, "claim_id");
    if Get(a, "claim_id") == Get(b, "claim_id") {
      assert KeyOf(Claims, a) == KeyOf(Claims, b);
    }
  }

  // ----- Each operation keeps the invariant

  // Operations that touch none of the four tables.
  lemma ElsewhereKeeps(env: Env, s: Store, x: Store)
    requires Inv(env, s) && Integrity(x)
    requires x[Claims] == s[Claims] && x[Reviews] == s[Reviews]
    requires x[Representations] == s[Representations] && x[Evidence] == s[Evidence]
    ensures Inv(env, x)
  {
    hide Integrity, GateHolds, StatusHolds, ReviewsKnown, EvidenceHolds;
  }

  lemma PlainElsewhere(t: Table)
    requires t in PLAIN
    ensures t != Claims && t != Reviews && t != Representations && t != Evidence && t != AuditLog
  {
  }

  lemma PlainKeeps(env: Env, s: Store, t: Table, row: Row, event: string, objectType: string, objectId: string, now: string)
    requires Inv(env, s) && Register(env, s, t, row, event, objectType, objectId, now).Ok?
    ensures Inv(env, Register(env, s, t, row, event, objectType, objectId, now).value)
  {
    hide RowsSound, InsertAudited, GateHolds, StatusHolds, ReviewsKnown, EvidenceHolds, Admits;
    PlainElsewhere(t);
    AuditedAppends(env, s, t, row, event, objectType, objectId, now);
    ElsewhereKeeps(env, s, Register(env, s, t, row, event, objectType, objectId, now).value);
  }

  lemma RepresentationKeeps(env: Env, s: Store, r: RepresentationInput, now: string)
    requires Inv(env, s) && RegisterRepresentation(env, s, r, now).Ok?
    ensures Inv(env, RegisterRepresentation(env, s, r, now).value)
  {
    hide RowsSound, InsertAudited, Admits, GateMet, CitesOwn, RepresentationRow, StatusHolds, ReviewsKnown;
    var row := RepresentationRow(r, now);
    AuditedAppends(env, s, Representations, row, "document_representation_registered", "document_representation", r.id, now);
    var x := RegisterRepresentation(env, s, r, now).value;
    assert s[Representations] <= x[Representations];
    forall i | 0 <= i < |x[Claims]| && Get(x[Claims][i], "status") == Text("CANONICAL")
      ensures GateMet(env, x[Representations], x[Claims][i])
    {
      GateStays(env, s[Representations], x[Representations], s[Claims][i]);
    }
    forall i | 0 <= i < |x[Evidence]| ensures CitesOwn(x[Representations], x[Evidence][i]) {
      CitesStays(s[Representations], x[Representations], s[Evidence][i]);
    }
  }

  // A new claim starts PROPOSED, and nothing has reviewed it.
  lemma ProposedFresh(env: Env, s: Store, c: ClaimInput, now: string)
    requires Inv(env, s) && Admits(s, Claims, ClaimRow(c, now))
    ensures Get(ClaimRow(c, now), "status") == Text("PROPOSED")
    ensures LatestStatus(s[Reviews], Get(ClaimRow(c, now), "claim_id")) == "PROPOSED"
  {
    var row := ClaimRow(c, now);
    hide WellFormed, ReferencesMet, RowsSound, GateHolds, StatusHolds, EvidenceHolds;
    var id := Get(row, "claim_id");
    forall i | 0 <= i < |s[Reviews]| && Get(s[Reviews][i], "object_type") == Text("claim")
      ensures Get(s[Reviews][i], "object_id") != id
    {
      var k :| 0 <= k < |s[Claims]| && Get(s[Claims][k], "claim_id") == Get(s[Reviews][i], "object_id");
      assert Apart(Claims, s[Claims][k], row);
      OneKey(s[Claims][k], row);
    }
    NeverReviewed(s[Reviews], id);
  }

  lemma KnownMore(reviews: seq<Row>, claims: seq<Row>, row: Row)
    requires ReviewsKnown(reviews, claims)
    ensures ReviewsKnown(reviews, claims + [row])
  {
    hide Get;
    var all := claims + [row];
    forall i | 0 <= i < |reviews| && Get(reviews[i], "object_type") == Text("claim")
      ensures exists k :: 0 <= k < |all| && Get(all[k], "claim_id") == Get(reviews[i], "object_id")
    {
      var k :| 0 <= k < |claims| && Get(claims[k], "claim_id") == Get(reviews[i], "object_id");
      assert all[k] == claims[k];
    }
  }

  lemma ProposeKeeps(env: Env, s: Store, c: ClaimInput, now: string)
    requires Inv(env, s) && ProposeClaim(env, s, c, now).Ok?
    ensures Inv(env, ProposeClaim(env, s, c, now).value)
  {
    hide RowsSound, InsertAudited, Admits, GateMet, ClaimRow, ReviewsKnown, EvidenceHolds, LatestStatus;
    var row := ClaimRow(c, now);
    AuditedAppends(env, s, Claims, row, "claim_proposed", "claim", c.id, now);
    ProposedFresh(env, s, c, now);
    KnownMore(s[Reviews], s[Claims], row);
  }

  lemma CiteKeeps(env: Env, s: Store, e: EvidenceInput, now: string)
    requires Inv(env, s) && AddEvidence(env, s, e, now).Ok?
    ensures Inv(env, AddEvidence(env, s, e, now).value)
  {
    hide RowsSound, InsertAudited, Admits, GateHolds, StatusHolds, ReviewsKnown, AddEvidence, EvidenceRow, CitesOwn;
    EvidenceOwn(env, s, e, now);
    AuditedAppends(env, s, Evidence, EvidenceRow(e, now), "claim_evidence_added", "claim", e.claimId, now);
  }

  // What is cited is a representation of the document that is cited.
  lemma EvidenceOwn(env: Env, s: Store, e: EvidenceInput, now: string)
    requires Full(s) && AddEvidence(env, s, e, now).Ok?
    ensures AddEvidence(env, s, e, now) ==
            InsertAudited(env, s, Evidence, EvidenceRow(e, now), "claim_evidence_added", "claim", e.claimId, now)
    ensures CitesOwn(s[Representations], EvidenceRow(e, now))
  {
    hide InsertAudited;
    var row := EvidenceRow(e, now);
    assert Get(row, "representation_id") == OptText(e.representationId) && Get(row, "document_id") == Text(e.documentId);
  }

  // The claim under review and the store after its status is set.
  lemma ReviewUpdates(s: Store, i: nat, status: string, now: string)
    requires Integrity(s) && i < |s[Claims]| && status in CLAIM_STATES
    ensures Integrity(s[Claims := s[Claims][i := Reviewed(s[Claims][i], status, now)]])
  {
    assert RowsSound(s, Claims);
    ReviewedShape(s[Claims][i], status, now);
    UpdateKeeps(s, Claims, i, Reviewed(s[Claims][i], status, now));
  }

  lemma StatusMoves(s: Store, i: nat, r: ReviewInput, status: string, now: string)
    requires Integrity(s) && StatusHolds(s[Reviews], s[Claims]) && i < |s[Claims]|
    requires StatusFor(r.decision) == Some(status) && Get(s[Claims][i], "claim_id") == Text(r.claimId)
    ensures StatusHolds(s[Reviews] + [ReviewRow(r.id, "claim", r.claimId, r.decision, r.reviewer, r.rationale, r.metadata, now)],
                        s[Claims][i := Reviewed(s[Claims][i], status, now)])
  {
    var review := ReviewRow(r.id, "claim", r.claimId, r.decision, r.reviewer, r.rationale, r.metadata, now);
    assert Get(review, "decision") == Text(r.decision) && Get(review, "object_type") == Text("claim");
    assert Get(review, "object_id") == Text(r.claimId);
    ReviewedFields(s[Claims][i], status, now);
    StatusGiven(r.decision);
    hide ReviewRow, Reviewed, LatestStatus, Get, RowsSound, StatusFor;
    var claims := s[Claims][i := Reviewed(s[Claims][i], status, now)];
    forall k | 0 <= k < |claims|
      ensures Get(claims[k], "status") == Text(LatestStatus(s[Reviews] + [review], Get(claims[k], "claim_id")))
    {
      LatestSnoc(s[Reviews], review, Get(claims[k], "claim_id"));
      if k != i && Get(s[Claims][k], "claim_id") == Text(r.claimId) {
        ClaimIdsUnique(s, i, k);
      }
    }
  }

  lemma GateMoves(env: Env, representations: seq<Row>, claims: seq<Row>, i: nat, status: string, now: string)
    requires GateHolds(env, representations, claims) && i < |claims|
    requires status == "CANONICAL" ==> GateMet(env, representations, claims[i])
    ensures GateHolds(env, representations, claims[i := Reviewed(claims[i], status, now)])
  {
    ReviewedFields(claims[i], status, now);
    hide Reviewed, RawCapture, Get;
  }

  lemma KnownMoves(reviews: seq<Row>, claims: seq<Row>, i: nat, after: Row, review: Row)
    requires ReviewsKnown(reviews, claims) && i < |claims| && Get(after, "claim_id") == Get(claims[i], "claim_id")
    requires Get(review, "object_type") == Text("claim") ==> Get(review, "object_id") == Get(claims[i], "claim_id")
    ensures ReviewsKnown(reviews + [review], claims[i := after])
  {
    hide Get;
    var all, updated := reviews + [review], claims[i := after];
    forall k | 0 <= k < |all| && Get(all[k], "object_type") == Text("claim")
      ensures exists l :: 0 <= l < |updated| && Get(updated[l], "claim_id") == Get(all[k], "object_id")
    {
      if k < |reviews| {
        var l :| 0 <= l < |claims| && Get(claims[l], "claim_id") == Get(reviews[k], "object_id");
        assert Get(updated[l], "claim_id") == Get(claims[l], "claim_id");
      } else {
        assert Get(updated[i], "claim_id") == Get(all[k], "object_id");
      }
    }
  }

  lemma StatusKnown(decision: string)
    requires StatusFor(decision).Some?
    ensures StatusFor(decision).value in CLAIM_STATES
  {
  }

  lemma ReviewNames(r: ReviewInput, now: string)
    ensures Get(ReviewRow(r.id, "claim", r.claimId, r.decision, r.reviewer, r.rationale, r.metadata, now), "object_id") == Text(r.claimId)
  {
  }

  // The store once a review row is in, and the claim it is about is updated.
  lemma ReviewedInv(env: Env, s: Store, x: Store, r: ReviewInput, status: string, now: string, i: nat)
    requires Inv(env, s) && Integrity(x) && i < |s[Claims]| && Get(s[Claims][i], "claim_id") == Text(r.claimId)
    requires StatusFor(r.decision) == Some(status)
    requires status == "CANONICAL" ==> GateMet(env, s[Representations], s[Claims][i])
    requires x[Claims] == s[Claims][i := Reviewed(s[Claims][i], status, now)]
    requires x[Reviews] == s[Reviews] + [ReviewRow(r.id, "claim", r.claimId, r.decision, r.reviewer, r.rationale, r.metadata, now)]
    requires x[Representations] == s[Representations] && x[Evidence] == s[Evidence]
    ensures Inv(env, x)
  {
    hide RowsSound, GateHolds, GateMet, StatusHolds, ReviewsKnown, EvidenceHolds, StatusFor, Reviewed, ReviewRow, Get;
    var review := ReviewRow(r.id, "claim", r.claimId, r.decision, r.reviewer, r.rationale, r.metadata, now);
    ReviewNames(r, now);
    StatusMoves(s, i, r, status, now);
    GateMoves(env, s[Representations], s[Claims], i, status, now);
    ReviewedFields(s[Claims][i], status, now);
    KnownMoves(s[Reviews], s[Claims], i, Reviewed(s[Claims][i], status, now), review);
  }

  // A review that goes through, its gate having been met if it promotes.
  lemma RecordKeeps(env: Env, s: Store, r: ReviewInput, status: string, now: string)
    requires Inv(env, s) && StatusFor(r.decision) == Some(status) && RecordReview(env, s, r, status, now).Ok?
    requires Find(s[Claims], "claim_id", Text(r.claimId)).Some?
    requires status == "CANONICAL" ==>
               GateMet(env, s[Representations], s[Claims][Find(s[Claims], "claim_id", Text(r.claimId)).value])
    ensures Inv(env, RecordReview(env, s, r, status, now).value)
  {
    hide RowsSound, InsertAudited, Admits, GateHolds, GateMet, StatusHolds, ReviewsKnown, EvidenceHolds, StatusFor, WellFormed,
         ReviewRow, Reviewed, Get;
    var i := Find(s[Claims], "claim_id", Text(r.claimId)).value;
    var review := ReviewRow(r.id, "claim", r.claimId, r.decision, r.reviewer, r.rationale, r.metadata, now);
    var updated := s[Claims := s[Claims][i := Reviewed(s[Claims][i], status, now)]];
    StatusKnown(r.decision);
    ReviewUpdates(s, i, status, now);
    AuditedAppends(env, updated, Reviews, review, "claim_reviewed", "claim", r.claimId, now);
    ReviewedInv(env, s, RecordReview(env, s, r, status, now).value, r, status, now, i);
  }

  lemma BlockedKeeps(env: Env, s: Store, r: ReviewInput, now: string)
    requires Inv(env, s)
    requires Insert(s, AuditLog, AuditRow(env, s[AuditLog], "claim_promotion_blocked", "claim", r.claimId, now)).Some?
    ensures Inv(env, Insert(s, AuditLog, AuditRow(env, s[AuditLog], "claim_promotion_blocked", "claim", r.claimId, now)).value)
  {
    hide RowsSound, Admits, AuditRow, GateHolds, StatusHolds, ReviewsKnown, EvidenceHolds;
    InsertKeeps(s, AuditLog, AuditRow(env, s[AuditLog], "claim_promotion_blocked", "claim", r.claimId, now));
  }

  lemma CanonicalIsPromotion(decision: string)
    ensures StatusFor(decision) == Some("CANONICAL") <==> decision == "PROMOTE_CANONICAL"
  {
  }

  lemma ReviewKeeps(env: Env, s: Store, r: ReviewInput, now: string)
    requires Inv(env, s)
    ensures Inv(env, ReviewClaim(env, s, r, now).1)
  {
    hide RowsSound, InsertAudited, GateHolds, StatusHolds, ReviewsKnown, EvidenceHolds, GateMet, RecordReview, Insert,
         StatusFor, Blockers;
    CanonicalIsPromotion(r.decision);
    var at := Find(s[Claims], "claim_id", Text(r.claimId));
    if at.Some? { UnblockedIff(env, s, s[Claims][at.value]); }
    var x := ReviewClaim(env, s, r, now).1;
    if x != s {
      if ReviewClaim(env, s, r, now).0.Ok? {
        RecordNeedsClaim(env, s, r, StatusFor(r.decision).value, now);
        RecordKeeps(env, s, r, StatusFor(r.decision).value, now);
      } else {
        BlockedKeeps(env, s, r, now);
      }
    }
  }

  lemma RecordNeedsClaim(env: Env, s: Store, r: ReviewInput, status: string, now: string)
    requires Full(s) && RecordReview(env, s, r, status, now).Ok?
    ensures Find(s[Claims], "claim_id", Text(r.claimId)).Some?
  {
    hide InsertAudited;
  }

  lemma {:induction false} StatusUnmoved(reviews: seq<Row>, claims: seq<Row>, review: Row)
    requires StatusHolds(reviews, claims) && ReviewsKnown(reviews, claims)
    requires Get(review, "object_type") != Text("claim") && Get(review, "decision").Text?
    ensures StatusHolds(reviews + [review], claims) && ReviewsKnown(reviews + [review], claims)
  {
    hide LatestStatus, Get, StatusFor;
    forall k | 0 <= k < |claims|
      ensures Get(claims[k], "status") == Text(LatestStatus(reviews + [review], Get(claims[k], "claim_id")))
    {
      LatestSnoc(reviews, review, Get(claims[k], "claim_id"));
    }
  }

  // The store once a review row about something other than a claim is in.
  lemma OtherReviewInv(env: Env, s: Store, x: Store, review: Row)
    requires Inv(env, s) && Integrity(x) && x[Claims] == s[Claims] && x[Reviews] == s[Reviews] + [review]
    requires x[Representations] == s[Representations] && x[Evidence] == s[Evidence]
    requires Get(review, "object_type") != Text("claim") && Get(review, "decision").Text?
    ensures Inv(env, x)
  {
    hide RowsSound, GateHolds, StatusHolds, ReviewsKnown, EvidenceHolds;
    StatusUnmoved(s[Reviews], s[Claims], review);
  }

  lemma DiscrepancyReview(reviewId: string, id: string, status: string, reviewer: string, resolution: string, now: string)
    ensures var review := ReviewRow(reviewId, "discrepancy", id, status, reviewer, resolution, "{}", now);
            Get(review, "object_type") != Text("claim") && Get(review, "decision").Text?
  {
  }

  lemma ResolveKeeps(env: Env, s: Store, id: string, reviewId: string, reviewer: string, resolution: string, closed: bool, now: string)
    requires Inv(env, s) && ResolveDiscrepancy(env, s, id, reviewId, reviewer, resolution, closed, now).Ok?
    ensures Inv(env, ResolveDiscrepancy(env, s, id, reviewId, reviewer, resolution, closed, now).value)
  {
    hide RowsSound, InsertAudited, Admits, GateHolds, StatusHolds, ReviewsKnown, EvidenceHolds, ReviewRow, Resolved, Get;
    var status := if closed then "CLOSED_NO_RESOLUTION" else "RESOLVED";
    var i := Find(s[Discrepancies], "discrepancy_id", Text(id)).value;
    var review := ReviewRow(reviewId, "discrepancy", id, status, reviewer, resolution, "{}", now);
    DiscrepancyReview(reviewId, id, status, reviewer, resolution, now);
    DiscrepancyUpdates(s, i, status, resolution, now);
    var updated := s[Discrepancies := s[Discrepancies][i := Resolved(s[Discrepancies][i], status, resolution, now)]];
    AuditedAppends(env, updated, Reviews, review, "discrepancy_resolved", "discrepancy", id, now);
    OtherReviewInv(env, s, ResolveDiscrepancy(env, s, id, reviewId, reviewer, resolution, closed, now).value, review);
  }

  lemma DiscrepancyUpdates(s: Store, i: nat, status: string, resolution: string, now: string)
    requires Integrity(s) && i < |s[Discrepancies]| && status in {"OPEN", "RESOLVED", "CLOSED_NO_RESOLUTION"}
    ensures Integrity(s[Discrepancies := s[Discrepancies][i := Resolved(s[Discrepancies][i], status, resolution, now)]])
  {
    assert RowsSound(s, Discrepancies);
    ResolvedShape(s[Discrepancies][i], status, resolution, now);
    UpdateKeeps(s, Discrepancies, i, Resolved(s[Discrepancies][i], status, resolution, now));
  }

  lemma ApplyKeeps(env: Env, s: Store, op: Op, now: string)
    requires Inv(env, s)
    ensures Inv(env, Apply(env, s, op, now))
  {
    assert Full(s);
    hide Inv, Register, RegisterRepresentation, ProposeClaim, AddEvidence, ReviewClaim, ResolveDiscrepancy;
    match op
    case Plain(t, row, event, objectType, objectId) =>
      if Register(env, s, t, row, event, objectType, objectId, now).Ok? { PlainKeeps(env, s, t, row, event, objectType, objectId, now); }
    case Representation(r) => if RegisterRepresentation(env, s, r, now).Ok? { RepresentationKeeps(env, s, r, now); }
    case Propose(c) => if ProposeClaim(env, s, c, now).Ok? { ProposeKeeps(env, s, c, now); }
    case Cite(e) => if AddEvidence(env, s, e, now).Ok? { CiteKeeps(env, s, e, now); }
    case Review(v) => ReviewKeeps(env, s, v, now);
    case Resolve(id, reviewId, reviewer, resolution, closed) =>
      if ResolveDiscrepancy(env, s, id, reviewId, reviewer, resolution, closed, now).Ok? {
        ResolveKeeps(env, s, id, reviewId, reviewer, resolution, closed, now);
      }
  }

  lemma EmptyInv(env: Env)
    ensures Inv(env, Empty())
  {
    EmptyIntegrity();
  }

  // Over every run from an empty store, whichever operations succeed: the schema's
  // constraints hold, a CANONICAL claim flagged for raw capture has its captured
  // representation, every status is that of the latest review, and evidence cites
  // representations of its own document.
  lemma {:induction false} RunsKeep(env: Env, ops: seq<(Op, string)>)
    ensures Inv(env, Exec(env, Empty(), ops))
    decreases |ops|
  {
    hide Inv, Apply;
    if ops == [] {
      EmptyInv(env);
    } else {
      var n := |ops| - 1;
      RunsKeep(env, ops[..n]);
      ApplyKeeps(env, Exec(env, Empty(), ops[..n]), ops[n].0, ops[n].1);
    }
  }

  lemma PromotionOutcome(env: Env, s: Store, r: ReviewInput, now: string)
    requires Full(s) && r.decision == "PROMOTE_CANONICAL" && Find(s[Claims], "claim_id", Text(r.claimId)).Some?
    ensures ReviewClaim(env, s, r, now).0.Ok? ==>
              Blockers(env, s, s[Claims][Find(s[Claims], "claim_id", Text(r.claimId)).value]) == []
    ensures !ReviewClaim(env, s, r, now).0.Ok? ==>
              forall t :: t in s && t != AuditLog ==> ReviewClaim(env, s, r, now).1[t] == s[t]
  {
    hide RecordReview, Admits, AuditRow, Blockers, Find, Blank;
  }

  // A promotion goes through only when the gate is met at that moment; a refused
  // one leaves every table but the audit log as it was.
  lemma PromotionGated(env: Env, s: Store, r: ReviewInput, now: string, i: nat)
    requires Inv(env, s) && i < |s[Claims]| && Get(s[Claims][i], "claim_id") == Text(r.claimId)
    requires r.decision == "PROMOTE_CANONICAL"
    ensures ReviewClaim(env, s, r, now).0.Ok? ==> GateMet(env, s[Representations], s[Claims][i])
    ensures !ReviewClaim(env, s, r, now).0.Ok? ==>
              forall t :: t in s && t != AuditLog ==> ReviewClaim(env, s, r, now).1[t] == s[t]
  {
    hide ReviewClaim, RowsSound, GateHolds, StatusHolds, ReviewsKnown, EvidenceHolds, Blockers, GateMet, Get;
    var at := Find(s[Claims], "claim_id", Text(r.claimId));
    ClaimIdsUnique(s, i, at.value);
    UnblockedIff(env, s, s[Claims][i]);
    PromotionOutcome(env, s, r, now);
  }
}
