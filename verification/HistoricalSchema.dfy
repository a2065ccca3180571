// The relational schema of historical_store.py: tables, keys, references and
// checks, and what one INSERT accepts.
module HistoricalSchema {
  import opened Base

  // In the order in which bundles write them.
  datatype Table =
    | Sources | IngestRuns | Entities | Documents | Representations | Aliases | Claims | Evidence | Relations
    | Events | Participants | Discrepancies | DiscrepancyClaims | Reviews | AuditLog

  const EXPORT_TABLES: seq<Table> :=
    [Sources, IngestRuns, Entities, Documents, Representations, Aliases, Claims, Evidence, Relations,
     Events, Participants, Discrepancies, DiscrepancyClaims, Reviews, AuditLog]

  datatype Value = Null | Int(i: int) | Text(s: string)

  type Row = map<string, Value>

  // A database: the rows of every table, in the order they were inserted.
  type Store = map<Table, seq<Row>>

  // Every table exists.
  ghost predicate Full(s: Store) {
    forall t: Table :: t in s
  }

  lemma AllTables()
    ensures forall t: Table :: t in EXPORT_TABLES
  {
    forall t: Table ensures t in EXPORT_TABLES {
      var k := match t
        case Sources => 0 case IngestRuns => 1 case Entities => 2 case Documents => 3 case Representations => 4
        case Aliases => 5 case Claims => 6 case Evidence => 7 case Relations => 8 case Events => 9
        case Participants => 10 case Discrepancies => 11 case DiscrepancyClaims => 12 case Reviews => 13 case AuditLog => 14;
      assert EXPORT_TABLES[k] == t;
    }
  }

  // A database just created.
  function Empty(): (s: Store)
    ensures Full(s) && forall t :: t in s ==> s[t] == []
  {
    AllTables();
    map t: Table | t in EXPORT_TABLES :: []
  }

  function Columns(t: Table): set<string> {
    match t
    case Sources => {"source_id", "source_type", "title", "custodian", "repository", "locator", "url", "metadata_json", "created_at_utc"}
    case IngestRuns => {"run_id", "engine_version", "prompt_version", "input_sha256", "output_sha256", "mode", "status", "metadata_json", "created_at_utc"}
    case Entities => {"entity_id", "entity_type", "canonical_name", "authority_status", "metadata_json", "created_at_utc"}
    case Documents => {"document_id", "source_id", "title", "document_date", "event_date_start", "event_date_end", "content_sha256", "byte_length", "content_locator", "metadata_json", "created_at_utc"}
    case Representations => {"representation_id", "document_id", "representation_type", "acquisition_state", "mime_type", "content_sha256", "byte_length", "locator", "source_url", "raw_artifact", "preferred_for_review", "metadata_json", "created_at_utc"}
    case Aliases => {"alias_id", "entity_id", "alias", "language", "valid_from", "valid_to", "metadata_json"}
    case Claims => {"claim_id", "document_id", "run_id", "subject_entity_id", "predicate", "object_entity_id", "object_value", "claim_text", "status", "created_by", "metadata_json", "created_at_utc", "promoted_at_utc"}
    case Evidence => {"evidence_id", "claim_id", "document_id", "representation_id", "locator", "excerpt_sha256", "role", "metadata_json", "created_at_utc"}
    case Relations => {"relation_id", "subject_entity_id", "relation_type", "object_entity_id", "valid_from", "valid_to", "status", "source_claim_id", "metadata_json", "created_at_utc"}
    case Events => {"event_id", "event_type", "label", "event_date_start", "event_date_end", "date_precision", "place_entity_id", "status", "source_claim_id", "metadata_json", "created_at_utc"}
    case Participants => {"event_id", "entity_id", "role", "metadata_json"}
    case Discrepancies => {"discrepancy_id", "topic_key", "description", "status", "resolution", "metadata_json", "opened_at_utc", "resolved_at_utc"}
    case DiscrepancyClaims => {"discrepancy_id", "claim_id", "stance"}
    case Reviews => {"review_id", "object_type", "object_id", "decision", "reviewer", "rationale", "metadata_json", "created_at_utc"}
    case AuditLog => {"audit_id", "event_type", "object_type", "object_id", "payload_json", "created_at_utc"}
  }

  function Nullable(t: Table): set<string> {
    match t
    case Sources => {"custodian", "repository", "locator", "url"}
    case IngestRuns => {"engine_version", "prompt_version", "output_sha256"}
    case Entities => {}
    case Documents => {"source_id", "document_date", "event_date_start", "event_date_end", "content_sha256", "byte_length", "content_locator"}
    case Representations => {"mime_type", "content_sha256", "byte_length", "source_url"}
    case Aliases => {"language", "valid_from", "valid_to"}
    case Claims => {"document_id", "run_id", "subject_entity_id", "object_entity_id", "object_value", "promoted_at_utc"}
    case Evidence => {"representation_id", "locator", "excerpt_sha256"}
    case Relations => {"valid_from", "valid_to", "source_claim_id"}
    case Events => {"event_date_start", "event_date_end", "date_precision", "place_entity_id", "source_claim_id"}
    case Participants => {}
    case Discrepancies => {"resolution", "resolved_at_utc"}
    case DiscrepancyClaims => {}
    case Reviews => {}
    case AuditLog => {"object_type", "object_id"}
  }

  const INTEGER_COLUMNS := {"byte_length", "raw_artifact", "preferred_for_review", "audit_id"}

  function Key(t: Table): (columns: seq<string>)
    ensures columns != []
  {
    match t
    case Sources => ["source_id"]
    case IngestRuns => ["run_id"]
    case Entities => ["entity_id"]
    case Documents => ["document_id"]
    case Representations => ["representation_id"]
    case Aliases => ["alias_id"]
    case Claims => ["claim_id"]
    case Evidence => ["evidence_id"]
    case Relations => ["relation_id"]
    case Events => ["event_id"]
    case Participants => ["event_id", "entity_id", "role"]
    case Discrepancies => ["discrepancy_id"]
    case DiscrepancyClaims => ["discrepancy_id", "claim_id"]
    case Reviews => ["review_id"]
    case AuditLog => ["audit_id"]
  }

  // The further UNIQUE constraint of a table, none if empty.
  function Unique(t: Table): seq<string> {
    match t
    case Representations => ["document_id", "representation_type", "locator"]
    case Aliases => ["entity_id", "alias", "language"]
    case _ => []
  }

  // The foreign keys: column, and table whose key it names.
  function References(t: Table): map<string, Table> {
    match t
    case Documents => map["source_id" := Sources]
    case Representations => map["document_id" := Documents]
    case Aliases => map["entity_id" := Entities]
    case Claims => map["document_id" := Documents, "run_id" := IngestRuns, "subject_entity_id" := Entities, "object_entity_id" := Entities]
    case Evidence => map["claim_id" := Claims, "document_id" := Documents, "representation_id" := Representations]
    case Relations => map["subject_entity_id" := Entities, "object_entity_id" := Entities, "source_claim_id" := Claims]
    case Events => map["place_entity_id" := Entities, "source_claim_id" := Claims]
    case Participants => map["event_id" := Events, "entity_id" := Entities]
    case DiscrepancyClaims => map["discrepancy_id" := Discrepancies, "claim_id" := Claims]
    case _ => map[]
  }

  function Get(row: Row, c: string): Value {
    if c in row then row[c] else Null
  }

  predicate HashOrNull(v: Value) {
    v.Text? ==> |v.s| == 64
  }

  const CLAIM_STATES := {"PROPOSED", "VALIDATED", "CANONICAL", "REJECTED", "QUARANTINED"}
  const ACQUISITION_STATES := {"RAW_CAPTURED", "TEXT_SURROGATE", "REMOTE_BLOCKED", "LOCATOR_ONLY", "QUARANTINED"}

  predicate TextIn(v: Value, allowed: set<string>) {
    v.Text? && v.s in allowed
  }

  // The CHECK constraints.
  predicate Checks(t: Table, row: Row) {
    match t
    case Documents => HashOrNull(Get(row, "content_sha256"))
    case IngestRuns => HashOrNull(Get(row, "input_sha256")) && HashOrNull(Get(row, "output_sha256"))
    case Claims => TextIn(Get(row, "status"), CLAIM_STATES)
    case Evidence => TextIn(Get(row, "role"), {"supports", "contradicts", "mentions"}) && HashOrNull(Get(row, "excerpt_sha256"))
    case Discrepancies => TextIn(Get(row, "status"), {"OPEN", "RESOLVED", "CLOSED_NO_RESOLUTION"})
    case Representations =>
      var state, raw := Get(row, "acquisition_state"), Get(row, "raw_artifact");
      && TextIn(state, ACQUISITION_STATES)
      && raw in {Int(0), Int(1)} && Get(row, "preferred_for_review") in {Int(0), Int(1)}
      && HashOrNull(Get(row, "content_sha256"))
      && (Get(row, "byte_length").Int? ==> Get(row, "byte_length").i >= 0)
      && (if state == Text("RAW_CAPTURED")
          then raw == Int(1) && Get(row, "content_sha256") != Null && Get(row, "byte_length") != Null
          else raw == Int(0))
    case _ => true
  }

  // A row has every column of its table, each of its type, and passes the checks.
  predicate WellFormed(t: Table, row: Row) {
    && row.Keys == Columns(t)
    && (forall c :: c in row && row[c] == Null ==> c in Nullable(t))
    && (forall c :: c in row && row[c] != Null ==> (row[c].Int? <==> c in INTEGER_COLUMNS))
    && Checks(t, row)
  }

  function Values(row: Row, columns: seq<string>): seq<Value> {
    seq(|columns|, i requires 0 <= i < |columns| => Get(row, columns[i]))
  }

  function KeyOf(t: Table, row: Row): seq<Value> {
    Values(row, Key(t))
  }

  // Two rows may stand in one table: other keys, and no clash on a UNIQUE
  // constraint; two NULLs never clash.
  predicate Apart(t: Table, a: Row, b: Row) {
    && KeyOf(t, a) != KeyOf(t, b)
    && (Unique(t) != [] && Null !in Values(a, Unique(t)) ==> Values(a, Unique(t)) != Values(b, Unique(t)))
  }

  predicate Holds(s: Store, t: Table, v: Value) {
    t in s && exists i :: 0 <= i < |s[t]| && Get(s[t][i], Key(t)[0]) == v
  }

  predicate ReferencesMet(s: Store, t: Table, row: Row) {
    forall c :: c in References(t) && Get(row, c) != Null ==> Holds(s, References(t)[c], Get(row, c))
  }

  // What INSERT accepts.
  predicate Admits(s: Store, t: Table, row: Row)
    requires t in s
  {
    WellFormed(t, row) && (forall i :: 0 <= i < |s[t]| ==> Apart(t, s[t][i], row)) && ReferencesMet(s, t, row)
  }

  function Insert(s: Store, t: Table, row: Row): (r: Option<Store>)
    requires t in s
    ensures r.Some? ==> r.value.Keys == s.Keys && r.value[t] == s[t] + [row]
  {
    if Admits(s, t, row) then Some(s[t := s[t] + [row]]) else None
  }

  // ----- Integrity

  predicate RowsSound(s: Store, t: Table)
    requires t in s
  {
    && (forall i :: 0 <= i < |s[t]| ==> WellFormed(t, s[t][i]) && ReferencesMet(s, t, s[t][i]))
    && (forall i, k :: 0 <= i < k < |s[t]| ==> Apart(t, s[t][i], s[t][k]))
  }

  ghost predicate Integrity(s: Store) {
    Full(s) && forall t :: t in s ==> RowsSound(s, t)
  }

  lemma EmptyIntegrity()
    ensures Integrity(Empty())
  {
  }

  lemma HoldsMore(s: Store, t: Table, row: Row, u: Table, v: Value)
    requires t in s && Holds(s, u, v)
    ensures Holds(s[t := s[t] + [row]], u, v)
  {
    hide Key, Get;
    var s' := s[t := s[t] + [row]];
    var i :| 0 <= i < |s[u]| && Get(s[u][i], Key(u)[0]) == v;
    assert s'[u][i] == s[u][i];
  }

  lemma ReferencesStay(s: Store, t: Table, row: Row, u: Table, r: Row)
    requires t in s && ReferencesMet(s, u, r)
    ensures ReferencesMet(s[t := s[t] + [row]], u, r)
  {
    hide Holds, References, Get;
    forall c | c in References(u) && Get(r, c) != Null ensures Holds(s[t := s[t] + [row]], References(u)[c], Get(r, c)) {
      HoldsMore(s, t, row, References(u)[c], Get(r, c));
    }
  }

  lemma InsertedOther(s: Store, t: Table, row: Row, u: Table)
    requires t in s && u in s && u != t && RowsSound(s, u)
    ensures RowsSound(s[t := s[t] + [row]], u)
  {
    hide ReferencesMet, WellFormed, Apart;
    var s' := s[t := s[t] + [row]];
    forall i | 0 <= i < |s'[u]| ensures ReferencesMet(s', u, s'[u][i]) {
      ReferencesStay(s, t, row, u, s[u][i]);
    }
  }

  lemma InsertedOwn(s: Store, t: Table, row: Row)
    requires t in s && RowsSound(s, t) && Admits(s, t, row)
    ensures RowsSound(s[t := s[t] + [row]], t)
  {
    hide ReferencesMet, WellFormed, Apart;
    var s' := s[t := s[t] + [row]];
    var n := |s[t]|;
    forall i | 0 <= i <= n ensures WellFormed(t, s'[t][i]) && ReferencesMet(s', t, s'[t][i]) {
      ReferencesStay(s, t, row, t, if i == n then row else s[t][i]);
    }
  }

  lemma InsertedRows(s: Store, t: Table, row: Row, u: Table)
    requires t in s && u in s && RowsSound(s, u) && Admits(s, t, row)
    ensures RowsSound(s[t := s[t] + [row]], u)
  {
    hide RowsSound, Admits;
    if u == t { InsertedOwn(s, t, row); } else { InsertedOther(s, t, row, u); }
  }

  // An accepted INSERT keeps every constraint of every table.
  lemma InsertKeeps(s: Store, t: Table, row: Row)
    requires Integrity(s) && t in s && Admits(s, t, row)
    ensures Integrity(s[t := s[t] + [row]])
  {
    hide RowsSound, Admits;
    forall u | u in s ensures RowsSound(s[t := s[t] + [row]], u) {
      InsertedRows(s, t, row, u);
    }
  }

  // An UPDATE that leaves keys, unique columns and references alone keeps them too.
  predicate SameIdentity(t: Table, a: Row, b: Row) {
    && KeyOf(t, a) == KeyOf(t, b) && Values(a, Unique(t)) == Values(b, Unique(t))
    && Get(a, Key(t)[0]) == Get(b, Key(t)[0])
    && forall c :: c in References(t) ==> Get(a, c) == Get(b, c)
  }

  lemma HoldsAfterUpdate(s: Store, t: Table, i: nat, row: Row, u: Table, v: Value)
    requires t in s && i < |s[t]| && Get(s[t][i], Key(t)[0]) == Get(row, Key(t)[0]) && Holds(s, u, v)
    ensures Holds(s[t := s[t][i := row]], u, v)
  {
    hide Key, Get;
    var k :| 0 <= k < |s[u]| && Get(s[u][k], Key(u)[0]) == v;
    var s' := s[t := s[t][i := row]];
    assert Get(s'[u][k], Key(u)[0]) == v;
  }

  lemma ReferencesAfterUpdate(s: Store, t: Table, i: nat, row: Row, u: Table, was: Row, now: Row)
    requires t in s && i < |s[t]| && Get(s[t][i], Key(t)[0]) == Get(row, Key(t)[0]) && ReferencesMet(s, u, was)
    requires forall c :: c in References(u) ==> Get(was, c) == Get(now, c)
    ensures ReferencesMet(s[t := s[t][i := row]], u, now)
  {
    hide Holds, References, Get, Key;
    var s' := s[t := s[t][i := row]];
    forall c | c in References(u) && Get(now, c) != Null ensures Holds(s', References(u)[c], Get(now, c)) {
      HoldsAfterUpdate(s, t, i, row, References(u)[c], Get(was, c));
    }
  }

  lemma ApartAfterUpdate(t: Table, a: Row, b: Row, a': Row, b': Row)
    requires Apart(t, a, b)
    requires KeyOf(t, a) == KeyOf(t, a') && Values(a, Unique(t)) == Values(a', Unique(t))
    requires KeyOf(t, b) == KeyOf(t, b') && Values(b, Unique(t)) == Values(b', Unique(t))
    ensures Apart(t, a', b')
  {
    hide KeyOf, Values, Unique;
  }

  lemma UpdatedRows(s: Store, t: Table, i: nat, row: Row, u: Table)
    requires u in s && t in s && i < |s[t]| && WellFormed(t, row) && SameIdentity(t, s[t][i], row)
    requires RowsSound(s, u)
    ensures RowsSound(s[t := s[t][i := row]], u)
  {
    hide WellFormed, References, Values, KeyOf, Unique, Key, Get, ReferencesMet, Apart;
    var s' := s[t := s[t][i := row]];
    forall k | 0 <= k < |s'[u]| ensures WellFormed(u, s'[u][k]) && ReferencesMet(s', u, s'[u][k]) {
      ReferencesAfterUpdate(s, t, i, row, u, s[u][k], s'[u][k]);
    }
    forall k, l | 0 <= k < l < |s'[u]| ensures Apart(u, s'[u][k], s'[u][l]) {
      ApartAfterUpdate(u, s[u][k], s[u][l], s'[u][k], s'[u][l]);
    }
  }

  lemma UpdateKeeps(s: Store, t: Table, i: nat, row: Row)
    requires Integrity(s) && t in s && i < |s[t]| && WellFormed(t, row) && SameIdentity(t, s[t][i], row)
    ensures Integrity(s[t := s[t][i := row]])
  {
    hide RowsSound, WellFormed, SameIdentity;
    forall u | u in s ensures RowsSound(s[t := s[t][i := row]], u) {
      UpdatedRows(s, t, i, row, u);
    }
  }
}
