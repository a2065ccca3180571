// What each operation of the historical store promises: when it goes through, which
// row it writes, column by column, and the one line it adds to the audit log.
module HistoricalTerms {
  import opened Base
  import opened HistoricalSchema
  import opened HistoricalStore
  import opened HistoricalLaws

  // ----- The audit line

  // Numbered one more than the greatest number so far, from one.
  predicate Numbered(lines: seq<Row>, n: int) {
    && (forall i :: 0 <= i < |lines| && Get(lines[i], "audit_id").Int? ==> Get(lines[i], "audit_id").i < n)
    && (n == 1 || exists i :: 0 <= i < |lines| && Get(lines[i], "audit_id") == Int(n - 1))
  }

  // One more line, about this event on this object, with its payload.
  predicate LineIs(env: Env, lines: seq<Row>, line: Row, event: string, objectType: string, objectId: string, now: string) {
    && Get(line, "audit_id").Int? && Numbered(lines, Get(line, "audit_id").i)
    && Get(line, "event_type") == Text(event) && Get(line, "object_type") == Text(objectType)
    && Get(line, "object_id") == Text(objectId) && Get(line, "payload_json") == Text(env.payload(event, objectId))
    && Get(line, "created_at_utc") == Text(now)
  }

  predicate Logged(env: Env, before: seq<Row>, after: seq<Row>, event: string, objectType: string, objectId: string, now: string) {
    |after| == |before| + 1 && after[..|before|] == before
    && LineIs(env, before, after[|before|], event, objectType, objectId, now)
  }

  lemma {:induction false} NextNumber(lines: seq<Row>)
    ensures Numbered(lines, NextAuditId(lines)) && NextAuditId(lines) >= 1
    decreases |lines|
  {
    hide Get;
    if lines != [] {
      var p := lines[..|lines| - 1];
      NextNumber(p);
      assert forall i :: 0 <= i < |p| ==> lines[i] == p[i];
    }
  }

  lemma AuditLineIs(env: Env, lines: seq<Row>, event: string, objectType: string, objectId: string, now: string)
    ensures LineIs(env, lines, AuditRow(env, lines, event, objectType, objectId, now), event, objectType, objectId, now)
  {
    hide Numbered;
    NextNumber(lines);
  }

  // The audit line is always accepted.
  lemma LineAdmitted(env: Env, s: Store, event: string, objectType: string, objectId: string, now: string)
    requires Integrity(s)
    ensures Admits(s, AuditLog, AuditRow(env, s[AuditLog], event, objectType, objectId, now))
  {
    var line := AuditRow(env, s[AuditLog], event, objectType, objectId, now);
    LineWellFormed(env, s[AuditLog], event, objectType, objectId, now);
    hide WellFormed, AuditRow, LineIs, Columns, Nullable, Checks, KeyOf, Key, Get, ReferencesMet;
    NoReferences(s, line);
    AuditLineIs(env, s[AuditLog], event, objectType, objectId, now);
    assert RowsSound(s, AuditLog);
    forall i | 0 <= i < |s[AuditLog]| ensures Apart(AuditLog, s[AuditLog][i], line) {
      LineKey(s[AuditLog][i], line, env, s[AuditLog], event, objectType, objectId, now, i);
    }
  }

  lemma NoReferences(s: Store, line: Row)
    ensures ReferencesMet(s, AuditLog, line) && Unique(AuditLog) == []
  {
    assert References(AuditLog) == map[];
  }

  lemma LineWellFormed(env: Env, lines: seq<Row>, event: string, objectType: string, objectId: string, now: string)
    ensures WellFormed(AuditLog, AuditRow(env, lines, event, objectType, objectId, now))
  {
    hide Columns, NextAuditId;
    LineColumns(env, lines, event, objectType, objectId, now);
  }

  lemma LineColumns(env: Env, lines: seq<Row>, event: string, objectType: string, objectId: string, now: string)
    ensures AuditRow(env, lines, event, objectType, objectId, now).Keys == Columns(AuditLog)
  {
    hide NextAuditId;
  }

  lemma LineKey(a: Row, line: Row, env: Env, lines: seq<Row>, event: string, objectType: string, objectId: string, now: string, i: nat)
    requires i < |lines| && lines[i] == a && LineIs(env, lines, line, event, objectType, objectId, now)
    ensures KeyOf(AuditLog, a) != KeyOf(AuditLog, line)
  {
    assert KeyOf(AuditLog, a)[0] == Get(a, "audit_id") && KeyOf(AuditLog, line)[0] == Get(line, "audit_id");
  }

  // ----- One audited insertion

  // The row is in its table, the line in the log, and nothing else has changed.
  ghost predicate Wrote(env: Env, s: Store, x: Store, t: Table, row: Row, event: string, objectType: string, objectId: string, now: string)
  {
    && Full(s) && Full(x) && x[t] == s[t] + [row]
    && Logged(env, s[AuditLog], x[AuditLog], event, objectType, objectId, now)
    && forall u: Table :: u != t && u != AuditLog ==> x[u] == s[u]
  }

  lemma InsertedIff(env: Env, s: Store, t: Table, row: Row, event: string, objectType: string, objectId: string, now: string)
    requires Integrity(s) && t != AuditLog
    ensures var r := InsertAudited(env, s, t, row, event, objectType, objectId, now);
            && (r.Ok? <==> Admits(s, t, row))
            && (r.Ok? ==> Wrote(env, s, r.value, t, row, event, objectType, objectId, now))
            && (r.Err? ==> r.error == Refused)
  {
    hide Admits, RowsSound, AuditRow, LineIs;
    if Admits(s, t, row) {
      InsertKeeps(s, t, row);
      LineAdmitted(env, s[t := s[t] + [row]], event, objectType, objectId, now);
      AuditLineIs(env, s[AuditLog], event, objectType, objectId, now);
    }
  }

  // ----- Registration

  // One of the seven tables that are registered as they come.
  lemma RegisteredIff(env: Env, s: Store, t: Table, row: Row, event: string, objectType: string, objectId: string, now: string)
    requires Integrity(s)
    ensures var r := Register(env, s, t, row, event, objectType, objectId, now);
            && (r.Ok? <==>
                && (t.Sources? || t.Documents? || t.IngestRuns? || t.Entities? || t.Aliases? || t.Discrepancies? || t.DiscrepancyClaims?)
                && Admits(s, t, row))
            && (r.Ok? ==> Wrote(env, s, r.value, t, row, event, objectType, objectId, now))
  {
    hide Admits, RowsSound, InsertAudited, Wrote;
    if t != AuditLog { InsertedIff(env, s, t, row, event, objectType, objectId, now); }
  }

  // Holds more than white space.
  predicate Said(s: string) {
    exists c :: c in s && !IsSpace(c)
  }

  lemma SaidIff(s: string)
    ensures Said(s) <==> !Blank(s)
  {
    BlankIff(s);
  }

  // A state of acquisition and a locator; captured material is marked raw and carries
  // its digest and length, and nothing else is marked raw.
  predicate RepresentationTerms(r: RepresentationInput) {
    && (r.state == "RAW_CAPTURED" || r.state == "TEXT_SURROGATE" || r.state == "REMOTE_BLOCKED"
        || r.state == "LOCATOR_ONLY" || r.state == "QUARANTINED")
    && Said(r.locator) && (r.hash.Some? ==> |r.hash.value| == 64) && (r.size.Some? ==> r.size.value >= 0)
    && (r.raw <==> r.state == "RAW_CAPTURED") && (r.raw ==> r.hash.Some? && r.size.Some?)
  }

  function Optional(o: Option<string>): Value {
    if o.Some? then Text(o.value) else Null
  }

  predicate DescribedAs(row: Row, r: RepresentationInput) {
    && Get(row, "representation_id") == Text(r.id) && Get(row, "document_id") == Text(r.documentId)
    && Get(row, "representation_type") == Text(r.kind) && Get(row, "mime_type") == Optional(r.mime)
    && Get(row, "locator") == Text(r.locator) && Get(row, "source_url") == Optional(r.url)
    && Get(row, "metadata_json") == Text(r.metadata)
  }

  predicate AcquiredAs(row: Row, r: RepresentationInput, now: string) {
    && Get(row, "acquisition_state") == Text(r.state) && Get(row, "content_sha256") == Optional(r.hash)
    && Get(row, "byte_length") == (if r.size.Some? then Int(r.size.value) else Null)
    && Get(row, "raw_artifact") == (if r.raw then Int(1) else Int(0))
    && Get(row, "preferred_for_review") == (if r.preferred then Int(1) else Int(0))
    && Get(row, "created_at_utc") == Text(now)
  }

  predicate RepresentationIs(row: Row, r: RepresentationInput, now: string) {
    DescribedAs(row, r) && AcquiredAs(row, r, now)
  }

  lemma Described(r: RepresentationInput, now: string)
    ensures DescribedAs(RepresentationRow(r, now), r)
  {
  }

  lemma Acquired(r: RepresentationInput, now: string)
    ensures AcquiredAs(RepresentationRow(r, now), r, now)
  {
  }

  // A representation is registered exactly when its description is consistent, its
  // document exists and its row is admitted; the row says what was described.
  lemma RepresentationIff(env: Env, s: Store, r: RepresentationInput, now: string)
    requires Integrity(s)
    ensures var x := RegisterRepresentation(env, s, r, now); var row := RepresentationRow(r, now);
            && RepresentationIs(row, r, now)
            && (x.Ok? <==>
                && RepresentationTerms(r) && Admits(s, Representations, row)
                && exists i :: 0 <= i < |s[Documents]| && Get(s[Documents][i], "document_id") == Text(r.documentId))
            && (x.Ok? ==> Wrote(env, s, x.value, Representations, row, "document_representation_registered",
                                "document_representation", r.id, now))
  {
    hide Admits, RowsSound, InsertAudited, Wrote, RepresentationRow, RepresentationIs, CheckRepresentation, RepresentationTerms, Get;
    RepresentationSays(r, now);
    DescriptionIff(r);
    InsertedIff(env, s, Representations, RepresentationRow(r, now), "document_representation_registered",
                "document_representation", r.id, now);
  }

  lemma RepresentationSays(r: RepresentationInput, now: string)
    ensures RepresentationIs(RepresentationRow(r, now), r, now)
  {
    hide RepresentationRow, DescribedAs, AcquiredAs;
    Described(r, now);
    Acquired(r, now);
  }

  lemma DescriptionIff(r: RepresentationInput)
    ensures CheckRepresentation(r) <==> RepresentationTerms(r)
  {
    hide Said, Blank;
    SaidIff(r.locator);
  }

  lemma ClaimSays(c: ClaimInput, now: string)
    ensures ClaimIs(ClaimRow(c, now), c, now)
  {
  }

  predicate ClaimIs(row: Row, c: ClaimInput, now: string) {
    && Get(row, "claim_id") == Text(c.id) && Get(row, "document_id") == Optional(c.documentId)
    && Get(row, "run_id") == Optional(c.runId) && Get(row, "subject_entity_id") == Optional(c.subject)
    && Get(row, "predicate") == Text(c.predicate_) && Get(row, "object_entity_id") == Optional(c.object_)
    && Get(row, "object_value") == Optional(c.value) && Get(row, "claim_text") == Text(c.text)
    && Get(row, "status") == Text("PROPOSED") && Get(row, "created_by") == Text(c.createdBy)
    && Get(row, "metadata_json") == Text(c.metadata) && Get(row, "created_at_utc") == Text(now)
    && Get(row, "promoted_at_utc") == Null
  }

  // A claim is proposed exactly when its row is admitted; the row says what was claimed.
  lemma ProposedIff(env: Env, s: Store, c: ClaimInput, now: string)
    requires Integrity(s)
    ensures var x := ProposeClaim(env, s, c, now); var row := ClaimRow(c, now);
            && ClaimIs(row, c, now) && (x.Ok? <==> Admits(s, Claims, row))
            && (x.Ok? ==> Wrote(env, s, x.value, Claims, row, "claim_proposed", "claim", c.id, now))
  {
    hide Admits, RowsSound, InsertAudited, Wrote, ClaimRow, ClaimIs;
    ClaimSays(c, now);
    InsertedIff(env, s, Claims, ClaimRow(c, now), "claim_proposed", "claim", c.id, now);
  }

  predicate EvidenceIs(row: Row, e: EvidenceInput, now: string) {
    && Get(row, "evidence_id") == Text(e.id) && Get(row, "claim_id") == Text(e.claimId)
    && Get(row, "document_id") == Text(e.documentId) && Get(row, "representation_id") == Optional(e.representationId)
    && Get(row, "locator") == Optional(e.locator) && Get(row, "excerpt_sha256") == Optional(e.excerptHash)
    && Get(row, "role") == Text(e.role) && Get(row, "metadata_json") == Text(e.metadata)
    && Get(row, "created_at_utc") == Text(now)
  }

  // The representation that is cited, if one is, exists and is of the document cited.
  predicate CitesFrom(s: Store, e: EvidenceInput)
    requires Representations in s
  {
    e.representationId.Some? ==>
      exists i :: 0 <= i < |s[Representations]| && FirstNamed(s[Representations], i, e.representationId.value)
                  && Get(s[Representations][i], "document_id") == Text(e.documentId)
  }

  predicate FirstNamed(rows: seq<Row>, i: nat, id: string) {
    && i < |rows| && Get(rows[i], "representation_id") == Text(id)
    && forall k :: 0 <= k < i ==> Get(rows[k], "representation_id") != Text(id)
  }

  // Evidence is added exactly in one of three roles, from a representation of its own
  // document if from any, and when its row is admitted; the row says what was cited.
  lemma CitedIff(env: Env, s: Store, e: EvidenceInput, now: string)
    requires Integrity(s)
    ensures var x := AddEvidence(env, s, e, now); var row := EvidenceRow(e, now);
            && EvidenceIs(row, e, now)
            && (x.Ok? <==>
                && (e.role == "supports" || e.role == "contradicts" || e.role == "mentions")
                && CitesFrom(s, e) && Admits(s, Evidence, row))
            && (x.Ok? ==> Wrote(env, s, x.value, Evidence, row, "claim_evidence_added", "claim", e.claimId, now))
  {
    EvidenceSays(e, now);
    hide Admits, RowsSound, InsertAudited, Wrote, EvidenceRow, EvidenceIs, Get;
    InsertedIff(env, s, Evidence, EvidenceRow(e, now), "claim_evidence_added", "claim", e.claimId, now);
    if e.representationId.Some? {
      var own := Find(s[Representations], "representation_id", Text(e.representationId.value));
      if own.Some? { assert FirstNamed(s[Representations], own.value, e.representationId.value); }
    }
  }

  lemma EvidenceSays(e: EvidenceInput, now: string)
    ensures EvidenceIs(EvidenceRow(e, now), e, now)
  {
  }

  // ----- Reviews and resolutions

  predicate ReviewIs(row: Row, id: string, objectType: string, objectId: string, decision: string, reviewer: string,
                     rationale: string, metadata: string, now: string)
  {
    && Get(row, "review_id") == Text(id) && Get(row, "object_type") == Text(objectType) && Get(row, "object_id") == Text(objectId)
    && Get(row, "decision") == Text(decision) && Get(row, "reviewer") == Text(reviewer)
    && Get(row, "rationale") == Text(rationale) && Get(row, "metadata_json") == Text(metadata)
    && Get(row, "created_at_utc") == Text(now)
  }

  lemma ReviewSays(id: string, objectType: string, objectId: string, decision: string, reviewer: string,
                   rationale: string, metadata: string, now: string)
    ensures ReviewIs(ReviewRow(id, objectType, objectId, decision, reviewer, rationale, metadata, now),
                     id, objectType, objectId, decision, reviewer, rationale, metadata, now)
  {
  }

  // The claim with its new status, and the time of promotion if it was promoted.
  ghost predicate ReviewedIs(before: Row, after: Row, decision: string, now: string) {
    && decision in GIVEN && Get(after, "status") == Text(GIVEN[decision])
    && Get(after, "promoted_at_utc") == (if decision == "PROMOTE_CANONICAL" then Text(now) else Get(before, "promoted_at_utc"))
    && forall c :: c != "status" && c != "promoted_at_utc" ==> Get(after, c) == Get(before, c)
  }

  lemma ReviewedSays(before: Row, decision: string, now: string)
    requires decision in GIVEN
    ensures ReviewedIs(before, Reviewed(before, GIVEN[decision], now), decision, now)
  {
  }

  // The row of table t at i is replaced, a review row is in, and the line is logged.
  ghost predicate Amended(env: Env, s: Store, x: Store, t: Table, i: nat, after: Row, review: Row,
                          event: string, objectType: string, objectId: string, now: string)
  {
    && Full(s) && Full(x) && i < |s[t]| && x[t] == s[t][i := after] && x[Reviews] == s[Reviews] + [review]
    && Logged(env, s[AuditLog], x[AuditLog], event, objectType, objectId, now)
    && forall u: Table :: u != t && u != Reviews && u != AuditLog ==> x[u] == s[u]
  }

  // A review row refers to nothing, so an update elsewhere does not matter to it.
  lemma ReviewAdmitted(s: Store, t: Table, i: nat, after: Row, review: Row)
    requires Full(s) && t != Reviews && i < |s[t]|
    ensures Admits(s[t := s[t][i := after]], Reviews, review) <==> Admits(s, Reviews, review)
  {
    hide WellFormed, Apart;
    assert ReferencesMet(s, Reviews, review);
    assert ReferencesMet(s[t := s[t][i := after]], Reviews, review);
    assert s[t := s[t][i := after]][Reviews] == s[Reviews];
  }

  lemma AmendedIff(env: Env, s: Store, t: Table, i: nat, after: Row, review: Row,
                   event: string, objectType: string, objectId: string, now: string)
    requires Integrity(s) && t != Reviews && t != AuditLog && i < |s[t]| && Integrity(s[t := s[t][i := after]])
    ensures var r := InsertAudited(env, s[t := s[t][i := after]], Reviews, review, event, objectType, objectId, now);
            && (r.Ok? <==> Admits(s, Reviews, review))
            && (r.Ok? ==> Amended(env, s, r.value, t, i, after, review, event, objectType, objectId, now))
  {
    hide Admits, RowsSound, InsertAudited, Logged;
    var updated := s[t := s[t][i := after]];
    InsertedIff(env, updated, Reviews, review, event, objectType, objectId, now);
    ReviewAdmitted(s, t, i, after, review);
  }

  // The claim of that identifier, of which an integral store has one at most.
  predicate ClaimAt(s: Store, i: nat, id: string)
    requires Claims in s
  {
    i < |s[Claims]| && Get(s[Claims][i], "claim_id") == Text(id)
  }

  // A review that can be made: a known decision with a reviewer and a reason.
  predicate ReviewTerms(r: ReviewInput) {
    r.decision in GIVEN && Said(r.reviewer) && Said(r.rationale)
  }

  // The claim under review, with its gate met if it is to be promoted.
  predicate Reviewable(env: Env, s: Store, r: ReviewInput, i: nat)
    requires Claims in s && Representations in s
  {
    ClaimAt(s, i, r.claimId) && (r.decision == "PROMOTE_CANONICAL" ==> GateMet(env, s[Representations], s[Claims][i]))
  }

  predicate Blocked(env: Env, s: Store, r: ReviewInput, i: nat)
    requires Claims in s && Representations in s
  {
    ClaimAt(s, i, r.claimId) && r.decision == "PROMOTE_CANONICAL" && !GateMet(env, s[Representations], s[Claims][i])
  }

  // Once its gate has passed, a review of claim i depends on its row alone.
  lemma Recorded(env: Env, s: Store, r: ReviewInput, now: string, i: nat)
    requires Integrity(s) && r.decision in GIVEN && Find(s[Claims], "claim_id", Text(r.claimId)) == Some(i)
    ensures var x := RecordReview(env, s, r, GIVEN[r.decision], now);
            var review := ReviewRow(r.id, "claim", r.claimId, r.decision, r.reviewer, r.rationale, r.metadata, now);
            var after := Reviewed(s[Claims][i], GIVEN[r.decision], now);
            && (x.Ok? <==> Admits(s, Reviews, review))
            && ReviewedIs(s[Claims][i], after, r.decision, now)
            && (x.Ok? ==> Amended(env, s, x.value, Claims, i, after, review, "claim_reviewed", "claim", r.claimId, now))
  {
    hide Admits, InsertAudited, Amended, ReviewRow, ReviewedIs, Get, Reviewed, RowsSound;
    var status := GIVEN[r.decision];
    var after := Reviewed(s[Claims][i], status, now);
    var review := ReviewRow(r.id, "claim", r.claimId, r.decision, r.reviewer, r.rationale, r.metadata, now);
    ReviewedSays(s[Claims][i], r.decision, now);
    ReviewUpdates(s, i, status, now);
    AmendedIff(env, s, Claims, i, after, review, "claim_reviewed", "claim", r.claimId, now);
  }

  lemma FoundClaim(s: Store, id: string)
    requires Integrity(s)
    ensures forall i: nat :: ClaimAt(s, i, id) <==> Find(s[Claims], "claim_id", Text(id)) == Some(i)
  {
    hide Get, RowsSound;
    forall i: nat | ClaimAt(s, i, id) ensures Find(s[Claims], "claim_id", Text(id)) == Some(i) {
      ClaimIdsUnique(s, i, Find(s[Claims], "claim_id", Text(id)).value);
    }
  }

  // The three ways a review can end.
  lemma ReviewEnds(env: Env, s: Store, r: ReviewInput, now: string)
    requires Full(s)
    ensures var at := Find(s[Claims], "claim_id", Text(r.claimId)); var (x, s') := ReviewClaim(env, s, r, now);
            var fine := ReviewTerms(r) && at.Some?;
            var blocked := fine && r.decision == "PROMOTE_CANONICAL" && Blockers(env, s, s[Claims][at.value]) != [];
            var line := AuditRow(env, s[AuditLog], "claim_promotion_blocked", "claim", r.claimId, now);
            && (!fine ==> x.Err? && x.error != PromotionBlocked && s' == s)
            && (blocked && Insert(s, AuditLog, line).Some? ==> x == Err(PromotionBlocked) && s' == Insert(s, AuditLog, line).value)
            && (fine && !blocked ==>
                  var done := RecordReview(env, s, r, GIVEN[r.decision], now);
                  if done.Ok? then x == Ok(()) && s' == done.value else x.Err? && x.error == done.error && s' == s)
  {
    SaidIff(r.reviewer);
    SaidIff(r.rationale);
    StatusGiven(r.decision);
    hide Insert, Said, Blank, StatusFor, Blockers, RecordReview, AuditRow, Find, Get;
    RecordFinds(env, s, r, now);
  }

  lemma RecordFinds(env: Env, s: Store, r: ReviewInput, now: string)
    requires Full(s)
    ensures forall status {:trigger RecordReview(env, s, r, status, now)} ::
              && RecordReview(env, s, r, status, now) != Err(PromotionBlocked)
              && (Find(s[Claims], "claim_id", Text(r.claimId)).None? ==> RecordReview(env, s, r, status, now) == Err(UnknownClaim))
  {
    hide Insert, AuditRow, Find, Reviewed, ReviewRow;
  }

  // What a review that goes through leaves.
  ghost predicate Decided(env: Env, s: Store, x: Store, r: ReviewInput, review: Row, now: string, i: nat, after: Row) {
    && Full(s) && ClaimAt(s, i, r.claimId) && ReviewedIs(s[Claims][i], after, r.decision, now)
    && Amended(env, s, x, Claims, i, after, review, "claim_reviewed", "claim", r.claimId, now)
  }

  // A review goes through exactly for a claim that exists, when its gate is met if it
  // promotes and its row is admitted; the claim then has the status of the decision, the
  // row says what was decided, and one line is logged.
  lemma ReviewedIff(env: Env, s: Store, r: ReviewInput, now: string)
    requires Integrity(s)
    ensures var (x, s') := ReviewClaim(env, s, r, now);
            var review := ReviewRow(r.id, "claim", r.claimId, r.decision, r.reviewer, r.rationale, r.metadata, now);
            && ReviewIs(review, r.id, "claim", r.claimId, r.decision, r.reviewer, r.rationale, r.metadata, now)
            && (x.Ok? <==> ReviewTerms(r) && Admits(s, Reviews, review) && exists i :: Reviewable(env, s, r, i))
            && (x.Ok? ==> exists i, after :: Decided(env, s, s', r, review, now, i, after))
  {
    hide Admits, RowsSound, ReviewTerms, Amended, ReviewRow, ReviewIs, ReviewedIs, GateMet, Blockers, Get, RecordReview, Reviewed,
         ReviewClaim, Insert, AuditRow, Find, LineIs;
    ReviewSays(r.id, "claim", r.claimId, r.decision, r.reviewer, r.rationale, r.metadata, now);
    FoundClaim(s, r.claimId);
    ReviewEnds(env, s, r, now);
    KnownDecision(r);
    LineAdmitted(env, s, "claim_promotion_blocked", "claim", r.claimId, now);
    LineInserted(s, AuditRow(env, s[AuditLog], "claim_promotion_blocked", "claim", r.claimId, now));
    var at := Find(s[Claims], "claim_id", Text(r.claimId));
    if at.Some? && ReviewTerms(r) {
      var i := at.value;
      assert ClaimAt(s, i, r.claimId);
      UnblockedIff(env, s, s[Claims][i]);
      Recorded(env, s, r, now, i);
      var review := ReviewRow(r.id, "claim", r.claimId, r.decision, r.reviewer, r.rationale, r.metadata, now);
      var done := RecordReview(env, s, r, GIVEN[r.decision], now);
      assert (exists k :: Reviewable(env, s, r, k)) <==> Reviewable(env, s, r, i);
      assert ReviewClaim(env, s, r, now).0.Ok? <==> Admits(s, Reviews, review) && Reviewable(env, s, r, i);
      if done.Ok? { assert Decided(env, s, done.value, r, review, now, i, Reviewed(s[Claims][i], GIVEN[r.decision], now)); }
    }
  }

  lemma KnownDecision(r: ReviewInput)
    ensures ReviewTerms(r) ==> r.decision in GIVEN
  {
  }

  lemma LineInserted(s: Store, line: Row)
    requires Full(s) && Admits(s, AuditLog, line)
    ensures Insert(s, AuditLog, line) == Some(s[AuditLog := s[AuditLog] + [line]])
  {
    hide Admits;
  }

  // A review that does not go through changes nothing, but for the line that a
  // promotion of an existing claim leaves when its gate is not met.
  lemma RefusedReview(env: Env, s: Store, r: ReviewInput, now: string)
    requires Integrity(s)
    ensures var (x, s') := ReviewClaim(env, s, r, now);
            && (x == Err(PromotionBlocked) <==> ReviewTerms(r) && exists i :: Blocked(env, s, r, i))
            && (x == Err(PromotionBlocked) ==>
                  && Logged(env, s[AuditLog], s'[AuditLog], "claim_promotion_blocked", "claim", r.claimId, now)
                  && forall t: Table :: t != AuditLog ==> s'[t] == s[t])
            && (x.Err? && x.error != PromotionBlocked ==> s' == s)
  {
    hide Admits, RowsSound, ReviewTerms, GateMet, Blockers, Get, RecordReview, ReviewClaim, Insert, AuditRow, Find, LineIs;
    FoundClaim(s, r.claimId);
    ReviewEnds(env, s, r, now);
    RecordFinds(env, s, r, now);
    KnownDecision(r);
    var line := AuditRow(env, s[AuditLog], "claim_promotion_blocked", "claim", r.claimId, now);
    LineAdmitted(env, s, "claim_promotion_blocked", "claim", r.claimId, now);
    LineInserted(s, line);
    AuditLineIs(env, s[AuditLog], "claim_promotion_blocked", "claim", r.claimId, now);
    var at := Find(s[Claims], "claim_id", Text(r.claimId));
    if at.Some? {
      assert ClaimAt(s, at.value, r.claimId);
      UnblockedIff(env, s, s[Claims][at.value]);
      assert (exists k :: Blocked(env, s, r, k)) <==> Blocked(env, s, r, at.value);
    }
  }

  ghost predicate ResolvedIs(before: Row, after: Row, status: string, resolution: string, now: string) {
    && Get(after, "status") == Text(status) && Get(after, "resolution") == Text(resolution)
    && Get(after, "resolved_at_utc") == Text(now)
    && forall c :: c != "status" && c != "resolution" && c != "resolved_at_utc" ==> Get(after, c) == Get(before, c)
  }

  lemma ResolvedSays(before: Row, status: string, resolution: string, now: string)
    ensures ResolvedIs(before, Resolved(before, status, resolution, now), status, resolution, now)
  {
  }

  // A discrepancy is resolved, or closed without resolution, exactly when it exists,
  // with a resolver and a text, and when its review row is admitted.
  lemma ResolvedIff(env: Env, s: Store, id: string, reviewId: string, reviewer: string, resolution: string, closed: bool, now: string)
    requires Integrity(s)
    ensures var x := ResolveDiscrepancy(env, s, id, reviewId, reviewer, resolution, closed, now);
            var status := if closed then "CLOSED_NO_RESOLUTION" else "RESOLVED";
            var review := ReviewRow(reviewId, "discrepancy", id, status, reviewer, resolution, "{}", now);
            && ReviewIs(review, reviewId, "discrepancy", id, status, reviewer, resolution, "{}", now)
            && (x.Ok? <==>
                && Said(reviewer) && Said(resolution) && Admits(s, Reviews, review)
                && exists i :: 0 <= i < |s[Discrepancies]| && Get(s[Discrepancies][i], "discrepancy_id") == Text(id))
            && (x.Ok? ==> exists i: nat, after ::
                  && i < |s[Discrepancies]| && Get(s[Discrepancies][i], "discrepancy_id") == Text(id)
                  && ResolvedIs(s[Discrepancies][i], after, status, resolution, now)
                  && Amended(env, s, x.value, Discrepancies, i, after, review, "discrepancy_resolved", "discrepancy", id, now))
  {
    var status := if closed then "CLOSED_NO_RESOLUTION" else "RESOLVED";
    ReviewSays(reviewId, "discrepancy", id, status, reviewer, resolution, "{}", now);
    SaidIff(reviewer);
    SaidIff(resolution);
    hide Admits, RowsSound, InsertAudited, Amended, Said, Blank, ReviewRow, ReviewIs, ResolvedIs, Get, Resolved;
    var at := Find(s[Discrepancies], "discrepancy_id", Text(id));
    if at.Some? {
      var i := at.value;
      var after := Resolved(s[Discrepancies][i], status, resolution, now);
      ResolvedSays(s[Discrepancies][i], status, resolution, now);
      DiscrepancyUpdates(s, i, status, resolution, now);
      AmendedIff(env, s, Discrepancies, i, after,
                 ReviewRow(reviewId, "discrepancy", id, status, reviewer, resolution, "{}", now),
                 "discrepancy_resolved", "discrepancy", id, now);
    }
  }

  // ----- The constraints, by name

  predicate Differs(a: Row, b: Row, columns: seq<string>) {
    exists n :: 0 <= n < |columns| && Get(a, columns[n]) != Get(b, columns[n])
  }

  // No two rows agree on all of these columns; where NULL counts as no value, rows
  // with a NULL among them are exempt.
  predicate NoTwoAlike(rows: seq<Row>, columns: seq<string>, exempt: bool) {
    forall i, k :: 0 <= i < k < |rows| ==>
      (exempt && exists n :: 0 <= n < |columns| && Get(rows[i], columns[n]) == Null) || Differs(rows[i], rows[k], columns)
  }

  // The column is NULL or names a row of the other table by its key.
  predicate Names(rows: seq<Row>, column: string, targets: seq<Row>, key: string) {
    forall i :: 0 <= i < |rows| && Get(rows[i], column) != Null ==>
      exists k :: 0 <= k < |targets| && Get(targets[k], key) == Get(rows[i], column)
  }

  lemma KeysDiffer(s: Store, t: Table)
    requires Integrity(s)
    ensures NoTwoAlike(s[t], Key(t), false)
    ensures Unique(t) != [] ==> NoTwoAlike(s[t], Unique(t), true)
  {
    hide Key, Unique, WellFormed, ReferencesMet, Get, Differs;
    assert RowsSound(s, t);
    forall i, k | 0 <= i < k < |s[t]|
      ensures Differs(s[t][i], s[t][k], Key(t))
      ensures Unique(t) != [] ==>
                (exists n :: 0 <= n < |Unique(t)| && Get(s[t][i], Unique(t)[n]) == Null) || Differs(s[t][i], s[t][k], Unique(t))
    {
      ValuesIff(s[t][i], s[t][k], Key(t));
      ValuesIff(s[t][i], s[t][k], Unique(t));
    }
  }

  lemma ReferencesNamed(s: Store, t: Table, column: string)
    requires Integrity(s) && column in References(t)
    ensures Names(s[t], column, s[References(t)[column]], Key(References(t)[column])[0])
  {
    hide Key, Unique, WellFormed, Get, Apart, References;
    assert RowsSound(s, t);
  }

  // Rows are told apart by their keys, and representations and aliases by what they
  // describe besides.
  lemma KeysSay(s: Store)
    requires Integrity(s)
    ensures NoTwoAlike(s[Sources], ["source_id"], false) && NoTwoAlike(s[IngestRuns], ["run_id"], false)
    ensures NoTwoAlike(s[Entities], ["entity_id"], false) && NoTwoAlike(s[Documents], ["document_id"], false)
    ensures NoTwoAlike(s[Representations], ["representation_id"], false)
    ensures NoTwoAlike(s[Representations], ["document_id", "representation_type", "locator"], true)
    ensures NoTwoAlike(s[Aliases], ["alias_id"], false) && NoTwoAlike(s[Aliases], ["entity_id", "alias", "language"], true)
    ensures NoTwoAlike(s[Claims], ["claim_id"], false) && NoTwoAlike(s[Evidence], ["evidence_id"], false)
    ensures NoTwoAlike(s[Relations], ["relation_id"], false) && NoTwoAlike(s[Events], ["event_id"], false)
    ensures NoTwoAlike(s[Participants], ["event_id", "entity_id", "role"], false)
    ensures NoTwoAlike(s[Discrepancies], ["discrepancy_id"], false)
    ensures NoTwoAlike(s[DiscrepancyClaims], ["discrepancy_id", "claim_id"], false)
    ensures NoTwoAlike(s[Reviews], ["review_id"], false) && NoTwoAlike(s[AuditLog], ["audit_id"], false)
  {
    hide RowsSound, NoTwoAlike;
    forall t: Table ensures NoTwoAlike(s[t], Key(t), false) && (Unique(t) != [] ==> NoTwoAlike(s[t], Unique(t), true)) {
      KeysDiffer(s, t);
    }
  }

  // Every reference leads to a row.
  lemma ReferencesSay(s: Store)
    requires Integrity(s)
    ensures Names(s[Documents], "source_id", s[Sources], "source_id")
    ensures Names(s[Representations], "document_id", s[Documents], "document_id")
    ensures Names(s[Aliases], "entity_id", s[Entities], "entity_id")
    ensures Names(s[Claims], "document_id", s[Documents], "document_id") && Names(s[Claims], "run_id", s[IngestRuns], "run_id")
    ensures Names(s[Claims], "subject_entity_id", s[Entities], "entity_id")
    ensures Names(s[Claims], "object_entity_id", s[Entities], "entity_id")
    ensures Names(s[Evidence], "claim_id", s[Claims], "claim_id") && Names(s[Evidence], "document_id", s[Documents], "document_id")
    ensures Names(s[Evidence], "representation_id", s[Representations], "representation_id")
    ensures Names(s[Relations], "subject_entity_id", s[Entities], "entity_id")
    ensures Names(s[Relations], "object_entity_id", s[Entities], "entity_id")
    ensures Names(s[Relations], "source_claim_id", s[Claims], "claim_id")
    ensures Names(s[Events], "place_entity_id", s[Entities], "entity_id") && Names(s[Events], "source_claim_id", s[Claims], "claim_id")
    ensures Names(s[Participants], "event_id", s[Events], "event_id") && Names(s[Participants], "entity_id", s[Entities], "entity_id")
    ensures Names(s[DiscrepancyClaims], "discrepancy_id", s[Discrepancies], "discrepancy_id")
    ensures Names(s[DiscrepancyClaims], "claim_id", s[Claims], "claim_id")
  {
    hide RowsSound, Names;
    ReferencesNamed(s, Documents, "source_id");
    ReferencesNamed(s, Representations, "document_id");
    ReferencesNamed(s, Aliases, "entity_id");
    ReferencesNamed(s, Claims, "document_id");
    ReferencesNamed(s, Claims, "run_id");
    ReferencesNamed(s, Claims, "subject_entity_id");
    ReferencesNamed(s, Claims, "object_entity_id");
    ReferencesNamed(s, Evidence, "claim_id");
    ReferencesNamed(s, Evidence, "document_id");
    ReferencesNamed(s, Evidence, "representation_id");
    ReferencesNamed(s, Relations, "subject_entity_id");
    ReferencesNamed(s, Relations, "object_entity_id");
    ReferencesNamed(s, Relations, "source_claim_id");
    ReferencesNamed(s, Events, "place_entity_id");
    ReferencesNamed(s, Events, "source_claim_id");
    ReferencesNamed(s, Participants, "event_id");
    ReferencesNamed(s, Participants, "entity_id");
    ReferencesNamed(s, DiscrepancyClaims, "discrepancy_id");
    ReferencesNamed(s, DiscrepancyClaims, "claim_id");
  }

  predicate Among(v: Value, texts: set<string>) {
    v.Text? && v.s in texts
  }

  predicate HashLong(v: Value) {
    v.Int? || v == Null || |v.s| == 64
  }

  // What the CHECK constraints ask for: statuses, states and roles among those named,
  // digests 64 long, and an artifact raw exactly when it was captured, with its digest
  // and its length.
  predicate CheckTerms(t: Table, row: Row) {
    && (t.Claims? ==> Among(Get(row, "status"), {"PROPOSED", "VALIDATED", "CANONICAL", "REJECTED", "QUARANTINED"}))
    && (t.Evidence? ==> Among(Get(row, "role"), {"supports", "contradicts", "mentions"}) && HashLong(Get(row, "excerpt_sha256")))
    && (t.Discrepancies? ==> Among(Get(row, "status"), {"OPEN", "RESOLVED", "CLOSED_NO_RESOLUTION"}))
    && (t.Documents? ==> HashLong(Get(row, "content_sha256")))
    && (t.IngestRuns? ==> HashLong(Get(row, "input_sha256")) && HashLong(Get(row, "output_sha256")))
    && (t.Representations? ==> ArtifactTerms(row))
  }

  predicate ArtifactTerms(row: Row) {
    && Among(Get(row, "acquisition_state"), {"RAW_CAPTURED", "TEXT_SURROGATE", "REMOTE_BLOCKED", "LOCATOR_ONLY", "QUARANTINED"})
    && HashLong(Get(row, "content_sha256")) && (Get(row, "byte_length").Int? ==> Get(row, "byte_length").i >= 0)
    && (Get(row, "preferred_for_review") == Int(0) || Get(row, "preferred_for_review") == Int(1))
    && Get(row, "raw_artifact") == Int(if Get(row, "acquisition_state") == Text("RAW_CAPTURED") then 1 else 0)
    && (Get(row, "raw_artifact") == Int(1) ==> Get(row, "content_sha256") != Null && Get(row, "byte_length") != Null)
  }

  lemma ChecksIff(t: Table, row: Row)
    ensures Checks(t, row) <==> CheckTerms(t, row)
  {
    hide Get;
  }

  // Values of the column's kind, NULL only where it is allowed.
  predicate KindTerms(t: Table, row: Row) {
    forall c :: c in row ==>
      match row[c]
      case Null => c in Nullable(t)
      case Int(_) => c == "byte_length" || c == "raw_artifact" || c == "preferred_for_review" || c == "audit_id"
      case Text(_) => !(c == "byte_length" || c == "raw_artifact" || c == "preferred_for_review" || c == "audit_id")
  }

  predicate NewAmong(rows: seq<Row>, row: Row, columns: seq<string>, exempt: bool) {
    forall i :: 0 <= i < |rows| ==>
      (exempt && exists n :: 0 <= n < |columns| && Get(rows[i], columns[n]) == Null) || Differs(rows[i], row, columns)
  }

  lemma KindsIff(t: Table, row: Row)
    ensures WellFormed(t, row) <==> row.Keys == Columns(t) && KindTerms(t, row) && CheckTerms(t, row)
  {
    hide Columns, Nullable, Checks, CheckTerms;
    ChecksIff(t, row);
  }

  lemma ApartIff(t: Table, a: Row, b: Row)
    ensures Apart(t, a, b) <==>
            && Differs(a, b, Key(t))
            && (Unique(t) != [] ==>
                  (exists n :: 0 <= n < |Unique(t)| && Get(a, Unique(t)[n]) == Null) || Differs(a, b, Unique(t)))
  {
    hide Key, Unique, Get, Differs;
    ValuesIff(a, b, Key(t));
    ValuesIff(a, b, Unique(t));
  }

  lemma ValuesIff(a: Row, b: Row, columns: seq<string>)
    ensures Values(a, columns) != Values(b, columns) <==> Differs(a, b, columns)
    ensures Null in Values(a, columns) <==> exists n :: 0 <= n < |columns| && Get(a, columns[n]) == Null
  {
    hide Get;
    if Differs(a, b, columns) {
      var n :| 0 <= n < |columns| && Get(a, columns[n]) != Get(b, columns[n]);
      assert Values(a, columns)[n] != Values(b, columns)[n];
    }
    if n :| 0 <= n < |columns| && Get(a, columns[n]) == Null {
      assert Values(a, columns)[n] == Null;
    }
  }

  predicate Fresh(rows: seq<Row>, t: Table, row: Row) {
    NewAmong(rows, row, Key(t), false) && (Unique(t) != [] ==> NewAmong(rows, row, Unique(t), true))
  }

  lemma FreshIff(rows: seq<Row>, t: Table, row: Row)
    ensures (forall i :: 0 <= i < |rows| ==> Apart(t, rows[i], row)) <==> Fresh(rows, t, row)
  {
    hide Key, Unique, Get, Apart, Differs;
    forall i | 0 <= i < |rows|
      ensures Apart(t, rows[i], row) <==>
              && Differs(rows[i], row, Key(t))
              && (Unique(t) != [] ==>
                    (exists n :: 0 <= n < |Unique(t)| && Get(rows[i], Unique(t)[n]) == Null) || Differs(rows[i], row, Unique(t)))
    {
      ApartIff(t, rows[i], row);
    }
  }

  predicate Leads(s: Store, t: Table, row: Row, column: string)
    requires column in References(t) && References(t)[column] in s
  {
    Get(row, column) == Null
    || exists k :: 0 <= k < |s[References(t)[column]]|
                   && Get(s[References(t)[column]][k], Key(References(t)[column])[0]) == Get(row, column)
  }

  // A row is admitted exactly with the columns of its table, values of their kinds, its
  // checks passed, a key and a description not taken, and references that lead somewhere.
  lemma AdmittedIff(s: Store, t: Table, row: Row)
    requires Full(s)
    ensures Admits(s, t, row) <==>
            && row.Keys == Columns(t) && KindTerms(t, row) && CheckTerms(t, row) && Fresh(s[t], t, row)
            && forall c :: c in References(t) ==> Leads(s, t, row, c)
  {
    hide WellFormed, KindTerms, CheckTerms, Columns, Key, References, Get, Apart, Fresh;
    KindsIff(t, row);
    FreshIff(s[t], t, row);
  }

  // So every row of a store that meets its constraints passes its checks.
  lemma ChecksSay(s: Store, t: Table, i: nat)
    requires Integrity(s) && i < |s[t]|
    ensures CheckTerms(t, s[t][i])
  {
    hide Columns, Nullable, Apart, ReferencesMet, Get, Checks, CheckTerms;
    assert RowsSound(s, t);
    ChecksIff(t, s[t][i]);
  }
}
