// Deterministic export and reconstruction of the whole store, from
// historical_store_bundle.py.
module StoreBundle {
  import opened Base
  import opened Chains
  import opened HistoricalSchema
  import H = HistoricalStore
  import L = HistoricalLaws

  // Rows of every table, each in key order.
  type Bundle = map<Table, seq<Row>>

  // Where a key stands in the database's sort order, read as a position on a line;
  // and the digest of a bundle's canonical bytes.
  datatype Env = Env(rank: seq<Value> -> real, bundleHash: Bundle -> Digest)

  ghost predicate Sound(env: Env) {
    Injective(env.rank) && Injective(env.bundleHash)
  }

  datatype Error = ShapeMismatch | DestinationNotEmpty | RowRefused | NotCanonical

  // ----- Export

  function RankOf(env: Env, t: Table, row: Row): real {
    env.rank(KeyOf(t, row))
  }

  function Place(env: Env, t: Table, row: Row, sorted: seq<Row>): seq<Row> {
    if sorted == [] || RankOf(env, t, row) < RankOf(env, t, sorted[0]) then [row] + sorted
    else [sorted[0]] + Place(env, t, row, sorted[1..])
  }

  // The rows of a SELECT ordered by the key.
  function Ordered(env: Env, t: Table, rows: seq<Row>): seq<Row> {
    if rows == [] then [] else Place(env, t, rows[|rows| - 1], Ordered(env, t, rows[..|rows| - 1]))
  }

  function Export(env: Env, s: Store): Bundle
    requires Full(s)
  {
    map t: Table | t in EXPORT_TABLES :: Ordered(env, t, s[t])
  }

  // ----- Reconstruction

  // The tables whose row counts the health report gives.
  const COUNTED := {Sources, Documents, Representations, IngestRuns, Entities, Claims, Evidence, Relations, Events,
                    Discrepancies, Reviews, AuditLog}

  predicate Uncounted(s: Store) {
    forall t :: t in COUNTED && t in s ==> s[t] == []
  }

  function InsertAll(s: Store, t: Table, rows: seq<Row>): (r: Option<Store>)
    requires t in s
    ensures r.Some? ==> r.value.Keys == s.Keys
  {
    if rows == [] then Some(s)
    else
      match InsertAll(s, t, rows[..|rows| - 1])
      case None => None
      case Some(x) => Insert(x, t, rows[|rows| - 1])
  }

  function InsertTables(s: Store, bundle: Bundle, n: nat): (r: Option<Store>)
    requires n <= |EXPORT_TABLES| && (forall t :: t in EXPORT_TABLES ==> t in bundle) && Full(s)
    ensures r.Some? ==> r.value.Keys == s.Keys
  {
    if n == 0 then Some(s)
    else
      match InsertTables(s, bundle, n - 1)
      case None => None
      case Some(x) => InsertAll(x, EXPORT_TABLES[n - 1], bundle[EXPORT_TABLES[n - 1]])
  }

  ghost function Reconstruct(env: Env, bundle: Bundle, dest: Store): Result<Store, Error>
    requires Full(dest)
  {
    if !(forall t: Table :: t in bundle) then Err(ShapeMismatch)
    else if !Uncounted(dest) then Err(DestinationNotEmpty)
    else
      match InsertTables(dest, bundle, |EXPORT_TABLES|)
      case None => Err(RowRefused)
      case Some(s) => if env.bundleHash(Export(env, s)) != env.bundleHash(bundle) then Err(NotCanonical) else Ok(s)
  }

  // ----- The order of the tables

  function Position(t: Table): (k: nat)
    ensures k < |EXPORT_TABLES| && EXPORT_TABLES[k] == t
  {
    match t
    case Sources => 0 case IngestRuns => 1 case Entities => 2 case Documents => 3 case Representations => 4
    case Aliases => 5 case Claims => 6 case Evidence => 7 case Relations => 8 case Events => 9
    case Participants => 10 case Discrepancies => 11 case DiscrepancyClaims => 12 case Reviews => 13 case AuditLog => 14
  }

  // Every foreign key leads to a table written earlier.
  lemma TopologicalOrder(t: Table, c: string)
    requires c in References(t)
    ensures Position(References(t)[c]) < Position(t)
  {
  }

  lemma PositionUnique(k: nat)
    requires k < |EXPORT_TABLES|
    ensures Position(EXPORT_TABLES[k]) == k
  {
  }

  // ----- Sorting

  predicate AscendingRows(env: Env, t: Table, rows: seq<Row>) {
    forall i, k :: 0 <= i < k < |rows| ==> RankOf(env, t, rows[i]) < RankOf(env, t, rows[k])
  }

  predicate KeysApart(t: Table, rows: seq<Row>) {
    forall i, k :: 0 <= i < k < |rows| ==> KeyOf(t, rows[i]) != KeyOf(t, rows[k])
  }

  lemma {:induction false} PlaceMembers(env: Env, t: Table, row: Row, sorted: seq<Row>, r: Row)
    ensures r in Place(env, t, row, sorted) <==> r in sorted || r == row
    decreases |sorted|
  {
    hide RankOf;
    if sorted != [] {
      PlaceMembers(env, t, row, sorted[1..], r);
      assert sorted == [sorted[0]] + sorted[1..];
    }
  }

  // A row below all of them stays below when another is placed above it.
  lemma {:induction false} PlaceAbove(env: Env, t: Table, low: Row, row: Row, sorted: seq<Row>)
    requires RankOf(env, t, low) < RankOf(env, t, row)
    requires forall i :: 0 <= i < |sorted| ==> RankOf(env, t, low) < RankOf(env, t, sorted[i])
    ensures forall k :: 0 <= k < |Place(env, t, row, sorted)| ==> RankOf(env, t, low) < RankOf(env, t, Place(env, t, row, sorted)[k])
    decreases |sorted|
  {
    hide RankOf;
    if sorted != [] {
      assert forall i :: 0 <= i < |sorted[1..]| ==> sorted[1..][i] == sorted[i + 1];
      PlaceAbove(env, t, low, row, sorted[1..]);
    }
  }

  lemma {:induction false} PlaceAscends(env: Env, t: Table, row: Row, sorted: seq<Row>)
    requires AscendingRows(env, t, sorted)
    requires forall i :: 0 <= i < |sorted| ==> RankOf(env, t, sorted[i]) != RankOf(env, t, row)
    ensures AscendingRows(env, t, Place(env, t, row, sorted))
    decreases |sorted|
  {
    hide RankOf;
    if sorted != [] && !(RankOf(env, t, row) < RankOf(env, t, sorted[0])) {
      var rest := sorted[1..];
      assert forall i :: 0 <= i < |rest| ==> rest[i] == sorted[i + 1];
      PlaceAscends(env, t, row, rest);
      PlaceAbove(env, t, sorted[0], row, rest);
      hide Place;
      PrependAscends(env, t, sorted[0], Place(env, t, row, rest));
    } else {
      hide Place;
      LowestFirst(env, t, row, sorted);
    }
  }

  lemma PrependAscends(env: Env, t: Table, low: Row, rows: seq<Row>)
    requires AscendingRows(env, t, rows)
    requires forall k :: 0 <= k < |rows| ==> RankOf(env, t, low) < RankOf(env, t, rows[k])
    ensures AscendingRows(env, t, [low] + rows)
  {
    hide RankOf;
  }

  lemma LowestFirst(env: Env, t: Table, row: Row, sorted: seq<Row>)
    requires AscendingRows(env, t, sorted) && (sorted == [] || RankOf(env, t, row) < RankOf(env, t, sorted[0]))
    ensures AscendingRows(env, t, [row] + sorted)
  {
    hide RankOf;
  }

  // Sorting keeps the rows and puts them in strictly ascending key order.
  lemma {:induction false} OrderedKeeps(env: Env, t: Table, rows: seq<Row>)
    requires Injective(env.rank) && KeysApart(t, rows)
    ensures AscendingRows(env, t, Ordered(env, t, rows))
    ensures forall r :: r in Ordered(env, t, rows) <==> r in rows
    decreases |rows|
  {
    if rows != [] {
      var n := |rows| - 1;
      var p := rows[..n];
      OrderedKeeps(env, t, p);
      var o := Ordered(env, t, p);
      forall i | 0 <= i < |o| ensures RankOf(env, t, o[i]) != RankOf(env, t, rows[n]) {
        assert o[i] in p;
        var k :| 0 <= k < n && p[k] == o[i];
        assert KeyOf(t, rows[k]) != KeyOf(t, rows[n]);
      }
      PlaceAscends(env, t, rows[n], o);
      forall r ensures r in Place(env, t, rows[n], o) <==> r in o || r == rows[n] {
        PlaceMembers(env, t, rows[n], o, r);
      }
      assert rows == p + [rows[n]];
    }
  }

  lemma {:induction false} PlaceLast(env: Env, t: Table, row: Row, sorted: seq<Row>)
    requires forall i :: 0 <= i < |sorted| ==> RankOf(env, t, sorted[i]) < RankOf(env, t, row)
    ensures Place(env, t, row, sorted) == sorted + [row]
    decreases |sorted|
  {
    hide RankOf;
    if sorted != [] {
      assert forall i :: 0 <= i < |sorted[1..]| ==> sorted[1..][i] == sorted[i + 1];
      PlaceLast(env, t, row, sorted[1..]);
      assert [sorted[0]] + (sorted[1..] + [row]) == sorted + [row];
    }
  }

  // What is in order already stays as it is.
  lemma {:induction false} OrderedStays(env: Env, t: Table, rows: seq<Row>)
    requires AscendingRows(env, t, rows)
    ensures Ordered(env, t, rows) == rows
    decreases |rows|
  {
    hide RankOf, Place;
    if rows != [] {
      var n := |rows| - 1;
      var p := rows[..n];
      assert forall i :: 0 <= i < n ==> p[i] == rows[i];
      OrderedStays(env, t, p);
      PlaceLast(env, t, rows[n], p);
      assert rows == p + [rows[n]];
    }
  }

  // ----- The round trip

  // The store while it is being rebuilt: n whole tables and j rows of the next.
  ghost function Partial(bundle: Bundle, n: nat, j: nat): Store
    requires forall t: Table :: t in bundle
    requires n < |EXPORT_TABLES| ==> j <= |bundle[EXPORT_TABLES[n]]|
  {
    map t: Table | t in EXPORT_TABLES ::
      if Position(t) < n then bundle[t]
      else if Position(t) == n then bundle[t][..if j <= |bundle[t]| then j else 0]
      else []
  }

  // The bundle's tables hold the rows of a sound store, in key order.
  ghost predicate Exports(env: Env, s: Store, bundle: Bundle) {
    && Integrity(s) && (forall t: Table :: t in bundle)
    && forall t: Table :: AscendingRows(env, t, bundle[t]) && forall r :: r in bundle[t] <==> r in s[t]
  }

  lemma ExportExports(env: Env, s: Store)
    requires Injective(env.rank) && Integrity(s)
    ensures Exports(env, s, Export(env, s))
  {
    hide Apart, Ordered, WellFormed, ReferencesMet, AscendingRows;
    forall t: Table
      ensures t in Export(env, s) && AscendingRows(env, t, Export(env, s)[t]) && forall r :: r in Export(env, s)[t] <==> r in s[t]
    {
      AllTables();
      SoundKeys(s, t);
      OrderedKeeps(env, t, s[t]);
    }
  }

  lemma SoundKeys(s: Store, t: Table)
    requires Integrity(s) && t in s
    ensures KeysApart(t, s[t])
  {
    hide WellFormed, ReferencesMet, KeyOf, Values;
    assert RowsSound(s, t);
  }

  lemma ApartSymmetric(t: Table, a: Row, b: Row)
    requires Apart(t, a, b)
    ensures Apart(t, b, a)
  {
  }

  // Two rows of a sound table with different keys are apart.
  lemma RowsApart(s: Store, t: Table, a: Row, b: Row)
    requires t in s && RowsSound(s, t) && a in s[t] && b in s[t] && KeyOf(t, a) != KeyOf(t, b)
    ensures Apart(t, a, b)
  {
    hide Apart, WellFormed, ReferencesMet, KeyOf;
    var i :| 0 <= i < |s[t]| && s[t][i] == a;
    var k :| 0 <= k < |s[t]| && s[t][k] == b;
    if k < i { ApartSymmetric(t, b, a); }
  }

  lemma PartialTables(bundle: Bundle, n: nat, j: nat, t: Table)
    requires (forall u: Table :: u in bundle) && n < |EXPORT_TABLES| && j <= |bundle[EXPORT_TABLES[n]]|
    ensures t in Partial(bundle, n, j)
    ensures Partial(bundle, n, j)[t] ==
            if Position(t) < n then bundle[t] else if t == EXPORT_TABLES[n] then bundle[t][..j] else []
  {
    hide Position, EXPORT_TABLES;
    PositionIs(t, n);
  }

  lemma PositionIs(t: Table, n: nat)
    requires n < |EXPORT_TABLES|
    ensures t in EXPORT_TABLES && (Position(t) == n <==> t == EXPORT_TABLES[n])
  {
    hide Position;
    PositionUnique(n);
    assert EXPORT_TABLES[Position(t)] == t;
  }

  // Every foreign-key target of a row is already in the partial store.
  lemma TargetsPresent(env: Env, s: Store, bundle: Bundle, n: nat, j: nat, row: Row)
    requires Exports(env, s, bundle) && n < |EXPORT_TABLES| && j <= |bundle[EXPORT_TABLES[n]]|
    requires row in s[EXPORT_TABLES[n]]
    ensures ReferencesMet(Partial(bundle, n, j), EXPORT_TABLES[n], row)
  {
    hide WellFormed, Apart, AscendingRows, Partial, Get;
    var t := EXPORT_TABLES[n];
    PositionUnique(n);
    assert RowsSound(s, t);
    var i :| 0 <= i < |s[t]| && s[t][i] == row;
    forall c | c in References(t) && Get(row, c) != Null
      ensures Holds(Partial(bundle, n, j), References(t)[c], Get(row, c))
    {
      var u := References(t)[c];
      TopologicalOrder(t, c);
      PartialTables(bundle, n, j, u);
      assert Holds(s, u, Get(row, c));
      var k :| 0 <= k < |s[u]| && Get(s[u][k], Key(u)[0]) == Get(row, c);
      assert s[u][k] in bundle[u];
      var l :| 0 <= l < |bundle[u]| && bundle[u][l] == s[u][k];
    }
  }

  lemma RowAdmitted(env: Env, s: Store, bundle: Bundle, n: nat, j: nat)
    requires Exports(env, s, bundle) && n < |EXPORT_TABLES| && j < |bundle[EXPORT_TABLES[n]]|
    ensures var t := EXPORT_TABLES[n];
            t in Partial(bundle, n, j) && Admits(Partial(bundle, n, j), t, bundle[t][j])
  {
    hide WellFormed, Apart, ReferencesMet, Partial, References;
    var t := EXPORT_TABLES[n];
    var row := bundle[t][j];
    assert row in s[t];
    PartialTables(bundle, n, j, t);
    TargetsPresent(env, s, bundle, n, j, row);
    assert RowsSound(s, t);
    var i :| 0 <= i < |s[t]| && s[t][i] == row;
    PositionUnique(n);
    forall i | 0 <= i < j ensures Apart(t, bundle[t][i], row) {
      assert bundle[t][i] in s[t];
      RowsApart(s, t, bundle[t][i], row);
    }
  }

  lemma PartialNext(bundle: Bundle, n: nat, j: nat)
    requires (forall t: Table :: t in bundle) && n < |EXPORT_TABLES| && j < |bundle[EXPORT_TABLES[n]]|
    ensures var t := EXPORT_TABLES[n];
            t in Partial(bundle, n, j)
            && Partial(bundle, n, j)[t := Partial(bundle, n, j)[t] + [bundle[t][j]]] == Partial(bundle, n, j + 1)
  {
    hide Partial;
    var t := EXPORT_TABLES[n];
    PartialTables(bundle, n, j, t);
    assert bundle[t][..j + 1] == bundle[t][..j] + [bundle[t][j]];
    var a, b := Partial(bundle, n, j)[t := Partial(bundle, n, j)[t] + [bundle[t][j]]], Partial(bundle, n, j + 1);
    forall u: Table ensures u in a && u in b && a[u] == b[u] {
      PartialTables(bundle, n, j, u);
      PartialTables(bundle, n, j + 1, u);
    }
  }

  lemma {:induction false} TableRebuilt(env: Env, s: Store, bundle: Bundle, n: nat, j: nat)
    requires Exports(env, s, bundle) && n < |EXPORT_TABLES| && j <= |bundle[EXPORT_TABLES[n]]|
    ensures InsertAll(Partial(bundle, n, 0), EXPORT_TABLES[n], bundle[EXPORT_TABLES[n]][..j]) == Some(Partial(bundle, n, j))
    decreases j
  {
    hide Partial, Admits, Exports;
    BundleFull(env, s, bundle);
    var t := EXPORT_TABLES[n];
    if j > 0 {
      TableRebuilt(env, s, bundle, n, j - 1);
      assert bundle[t][..j][..j - 1] == bundle[t][..j - 1];
      RowAdmitted(env, s, bundle, n, j - 1);
      PartialNext(bundle, n, j - 1);
    }
  }

  lemma BundleFull(env: Env, s: Store, bundle: Bundle)
    requires Exports(env, s, bundle)
    ensures forall t: Table :: t in bundle
  {
  }

  lemma PartialWhole(bundle: Bundle, n: nat)
    requires (forall t: Table :: t in bundle) && n < |EXPORT_TABLES|
    ensures Partial(bundle, n, |bundle[EXPORT_TABLES[n]]|) == Partial(bundle, n + 1, 0)
  {
    hide Position, Partial, EXPORT_TABLES;
    var t := EXPORT_TABLES[n];
    assert bundle[t][..|bundle[t]|] == bundle[t];
    var a, b := Partial(bundle, n, |bundle[t]|), Partial(bundle, n + 1, 0);
    forall u: Table ensures u in a && u in b && a[u] == b[u] {
      PositionIs(u, n);
      PartialAt(bundle, n, |bundle[t]|, u);
      PartialAt(bundle, n + 1, 0, u);
    }
  }

  lemma PartialAt(bundle: Bundle, n: nat, j: nat, t: Table)
    requires forall u: Table :: u in bundle
    requires n < |EXPORT_TABLES| ==> j <= |bundle[EXPORT_TABLES[n]]|
    ensures t in Partial(bundle, n, j)
    ensures Partial(bundle, n, j)[t] ==
            if Position(t) < n then bundle[t]
            else if Position(t) == n then bundle[t][..if j <= |bundle[t]| then j else 0] else []
  {
    hide Position;
    AllTables();
  }

  lemma {:induction false} TablesRebuilt(env: Env, s: Store, bundle: Bundle, n: nat)
    requires Exports(env, s, bundle) && n <= |EXPORT_TABLES|
    ensures forall t: Table :: t in bundle
    ensures InsertTables(Empty(), bundle, n) == Some(Partial(bundle, n, 0))
    decreases n
  {
    hide InsertAll, AscendingRows, Integrity;
    if n == 0 {
      assert Partial(bundle, 0, 0) == Empty();
    } else {
      TablesRebuilt(env, s, bundle, n - 1);
      hide Partial, Exports;
      var t := EXPORT_TABLES[n - 1];
      TableRebuilt(env, s, bundle, n - 1, |bundle[t]|);
      assert bundle[t][..|bundle[t]|] == bundle[t];
      PartialWhole(bundle, n - 1);
    }
  }

  lemma RebuiltIs(bundle: Bundle, t: Table)
    requires forall u: Table :: u in bundle
    ensures t in Partial(bundle, |EXPORT_TABLES|, 0) && Partial(bundle, |EXPORT_TABLES|, 0)[t] == bundle[t]
  {
    AllTables();
  }

  lemma EmptyUncounted()
    ensures Uncounted(Empty())
  {
  }

  lemma RebuiltExports(env: Env, s: Store)
    requires Injective(env.rank) && Integrity(s)
    ensures forall t: Table :: t in Export(env, s)
    ensures var bundle := Export(env, s); var rebuilt := Partial(bundle, |EXPORT_TABLES|, 0);
            Full(rebuilt) && Export(env, rebuilt) == bundle && forall t: Table :: rebuilt[t] == Ordered(env, t, s[t])
  {
    hide Partial, Ordered, RowsSound, AscendingRows;
    var bundle := Export(env, s);
    ExportExports(env, s);
    var rebuilt := Partial(bundle, |EXPORT_TABLES|, 0);
    forall t: Table ensures t in rebuilt && rebuilt[t] == bundle[t] == Ordered(env, t, s[t]) && Ordered(env, t, rebuilt[t]) == bundle[t] {
      AllTables();
      RebuiltIs(bundle, t);
      OrderedStays(env, t, bundle[t]);
    }
  }

  // Every store that meets its constraints survives the round trip: each row goes
  // in with its foreign-key targets already there, and the rebuilt store, whose
  // rows are those of the original in key order, exports the identical bundle.
  lemma RoundTrip(env: Env, s: Store)
    requires Injective(env.rank) && Integrity(s)
    ensures var r := Reconstruct(env, Export(env, s), Empty());
            && r.Ok? && Full(r.value) && Export(env, r.value) == Export(env, s)
            && (forall t: Table :: r.value[t] == Ordered(env, t, s[t]))
  {
    hide Partial, Ordered, InsertTables, RowsSound, AscendingRows, Uncounted, Export, Exports;
    ExportExports(env, s);
    TablesRebuilt(env, s, Export(env, s), |EXPORT_TABLES|);
    EmptyUncounted();
    RebuiltExports(env, s);
  }

  lemma {:induction false} InsertAllKeeps(s: Store, t: Table, rows: seq<Row>)
    requires Integrity(s) && t in s && InsertAll(s, t, rows).Some?
    ensures Integrity(InsertAll(s, t, rows).value)
    decreases |rows|
  {
    hide Integrity, Admits;
    if rows != [] {
      InsertAllKeeps(s, t, rows[..|rows| - 1]);
      InsertKeeps(InsertAll(s, t, rows[..|rows| - 1]).value, t, rows[|rows| - 1]);
    }
  }

  lemma {:induction false} InsertTablesKeeps(s: Store, bundle: Bundle, n: nat)
    requires Integrity(s) && n <= |EXPORT_TABLES| && forall t :: t in EXPORT_TABLES ==> t in bundle
    requires InsertTables(s, bundle, n).Some?
    ensures Integrity(InsertTables(s, bundle, n).value)
    decreases n
  {
    hide RowsSound, InsertAll;
    if n > 0 {
      InsertTablesKeeps(s, bundle, n - 1);
      InsertAllKeeps(InsertTables(s, bundle, n - 1).value, EXPORT_TABLES[n - 1], bundle[EXPORT_TABLES[n - 1]]);
    }
  }

  // What an accepted reconstruction went through.
  lemma ReconstructedFrom(env: Env, bundle: Bundle)
    requires Sound(env) && Reconstruct(env, bundle, Empty()).Ok?
    ensures Integrity(Reconstruct(env, bundle, Empty()).value) && Export(env, Reconstruct(env, bundle, Empty()).value) == bundle
  {
    hide Integrity, InsertTables, Export, Uncounted;
    EmptyIntegrity();
    InsertTablesKeeps(Empty(), bundle, |EXPORT_TABLES|);
  }

  // The bundles that can be reconstructed are exactly the exports of stores that
  // meet their constraints.
  lemma ReconstructExact(env: Env, bundle: Bundle)
    requires Sound(env)
    ensures Reconstruct(env, bundle, Empty()).Ok? <==> exists s :: Integrity(s) && Export(env, s) == bundle
  {
    hide Reconstruct, RowsSound, Export;
    if Reconstruct(env, bundle, Empty()).Ok? {
      ReconstructedFrom(env, bundle);
    }
    if s :| Integrity(s) && Export(env, s) == bundle {
      RoundTrip(env, s);
    }
  }

  // The health report counts twelve of the fifteen tables; in a store that meets
  // its constraints, when those are empty so are the other three.
  lemma CountsSuffice(s: Store)
    requires Integrity(s) && Uncounted(s)
    ensures s == Empty()
  {
    hide RowsSound, WellFormed, ReferencesMet, COUNTED, Empty;
    forall t: Table ensures s[t] == [] {
      if t !in COUNTED && s[t] != [] {
        FirstRowSound(s, t);
        UncountedRefers(s, t);
      }
    }
    EmptyOnly(s);
  }

  lemma FirstRowSound(s: Store, t: Table)
    requires t in s && RowsSound(s, t) && s[t] != []
    ensures WellFormed(t, s[t][0]) && ReferencesMet(s, t, s[t][0])
  {
    hide WellFormed, ReferencesMet, Apart;
  }

  lemma EmptyOnly(s: Store)
    requires Full(s) && forall t: Table :: s[t] == []
    ensures s == Empty()
  {
    forall t: Table ensures t in Empty() && t in s { AllTables(); }
  }

  lemma UncountedRefers(s: Store, t: Table)
    requires Full(s) && t !in COUNTED && s[t] != [] && WellFormed(t, s[t][0]) && ReferencesMet(s, t, s[t][0])
    ensures exists u :: u in COUNTED && s[u] != []
  {
    var c := if t == DiscrepancyClaims then "claim_id" else "entity_id";
    assert c in Columns(t) && c !in Nullable(t) && c in References(t);
    assert Get(s[t][0], c) != Null;
    assert Holds(s, References(t)[c], Get(s[t][0], c));
    assert References(t)[c] in COUNTED;
  }

  // Every store the operations can reach survives the round trip.
  lemma ReachableRoundTrip(env: Env, henv: H.Env, ops: seq<(H.Op, string)>)
    requires Injective(env.rank)
    ensures var s := H.Exec(henv, Empty(), ops); var r := Reconstruct(env, Export(env, s), Empty());
            r.Ok? && Full(r.value) && Export(env, r.value) == Export(env, s)
  {
    L.RunsKeep(henv, ops);
    hide H.Exec, Reconstruct, Export, RowsSound, L.GateHolds, L.StatusHolds, L.ReviewsKnown, L.EvidenceHolds;
    RoundTrip(env, H.Exec(henv, Empty(), ops));
  }

  // The rows of a rebuilt table are those of the original table.
  lemma RebuiltRows(env: Env, s: Store, t: Table)
    requires Injective(env.rank) && Integrity(s)
    ensures t in s && forall r :: r in Ordered(env, t, s[t]) <==> r in s[t]
  {
    SoundKeys(s, t);
    OrderedKeeps(env, t, s[t]);
  }

  // The promotion gate and the evidence rule survive it too, although rows come
  // back in another order.
  lemma RoundTripKeepsGate(env: Env, henv: H.Env, s: Store)
    requires Injective(env.rank) && L.Inv(henv, s)
    ensures var r := Reconstruct(env, Export(env, s), Empty());
            && r.Ok? && Full(r.value)
            && L.GateHolds(henv, r.value[Representations], r.value[Claims])
            && L.EvidenceHolds(r.value[Representations], r.value[Evidence])
  {
    hide RowsSound, Reconstruct, Export, Ordered, L.GateMet, L.CitesOwn;
    RoundTrip(env, s);
    var x := Reconstruct(env, Export(env, s), Empty()).value;
    RebuiltRows(env, s, Representations);
    RebuiltRows(env, s, Claims);
    RebuiltRows(env, s, Evidence);
    forall i | 0 <= i < |x[Claims]| && Get(x[Claims][i], "status") == Text("CANONICAL")
      ensures L.GateMet(henv, x[Representations], x[Claims][i])
    {
      assert x[Claims][i] in s[Claims];
      GateMembers(henv, s[Representations], x[Representations], x[Claims][i]);
    }
    forall i | 0 <= i < |x[Evidence]| ensures L.CitesOwn(x[Representations], x[Evidence][i]) {
      assert x[Evidence][i] in s[Evidence];
      CitesMembers(s[Representations], x[Representations], x[Evidence][i]);
    }
  }

  lemma GateMembers(henv: H.Env, a: seq<Row>, b: seq<Row>, claim: Row)
    requires L.GateMet(henv, a, claim) && forall r :: r in a ==> r in b
    ensures L.GateMet(henv, b, claim)
  {
    hide L.RawCapture, Get;
    var meta := Get(claim, "metadata_json");
    if meta.Text? && henv.readGate(meta.s).blockedUntilRaw {
      var i :| 0 <= i < |a| && L.RawCapture(a[i], Get(claim, "document_id"), henv.readGate(meta.s).required);
      assert a[i] in b;
      var k :| 0 <= k < |b| && b[k] == a[i];
    }
  }

  lemma CitesMembers(a: seq<Row>, b: seq<Row>, evidence: Row)
    requires L.CitesOwn(a, evidence) && forall r :: r in a ==> r in b
    ensures L.CitesOwn(b, evidence)
  {
    hide Get;
    if Get(evidence, "representation_id") != Null {
      var i :| 0 <= i < |a| && Get(a[i], "representation_id") == Get(evidence, "representation_id")
               && Get(a[i], "document_id") == Get(evidence, "document_id");
      assert a[i] in b;
      var k :| 0 <= k < |b| && b[k] == a[i];
    }
  }

  // ----- The operation on a database

  lemma InsertNone(s: Store, t: Table)
    requires t in s
    ensures InsertAll(s, t, []) == Some(s)
  {
  }

  lemma InsertAllNext(s: Store, t: Table, rows: seq<Row>, j: nat)
    requires t in s && j < |rows|
    ensures InsertAll(s, t, rows[..j + 1]) ==
            match InsertAll(s, t, rows[..j]) case None => None case Some(x) => Insert(x, t, rows[j])
  {
    hide Insert;
    assert rows[..j + 1][..j] == rows[..j];
  }

  lemma {:induction false} InsertAllStops(s: Store, t: Table, rows: seq<Row>, j: nat)
    requires t in s && j <= |rows| && InsertAll(s, t, rows[..j]).None?
    ensures InsertAll(s, t, rows).None?
    decreases |rows|
  {
    hide Insert;
    if j < |rows| {
      var p := rows[..|rows| - 1];
      assert p[..j] == rows[..j];
      InsertAllStops(s, t, p, j);
    } else {
      assert rows[..j] == rows;
    }
  }

  lemma {:induction false} InsertTablesStops(s: Store, bundle: Bundle, n: nat, k: nat)
    requires n <= k <= |EXPORT_TABLES| && (forall t :: t in EXPORT_TABLES ==> t in bundle) && Full(s)
    requires InsertTables(s, bundle, n).None?
    ensures InsertTables(s, bundle, k).None?
    decreases k
  {
    hide InsertAll;
    if n < k { InsertTablesStops(s, bundle, n, k - 1); }
  }

  // Inserts the rows of every table, in one transaction, into a database that is
  // empty by its row counts; then compares what it would export.
  method ReconstructInto(env: Env, bundle: Bundle, db: H.HistoricalDatabase) returns (r: Result<(), Error>)
    requires Full(db.tables)
    modifies db
    ensures Full(db.tables)
    ensures match Reconstruct(env, bundle, old(db.tables))
            case Ok(s) => r == Ok(()) && db.tables == s
            case Err(e) => r == Err(e) && (e != NotCanonical ==> db.tables == old(db.tables))
  {
    hide Insert, InsertAll, Ordered, Export, Uncounted;
    if !(forall t: Table :: t in bundle) { return Err(ShapeMismatch); }
    if !Uncounted(db.tables) { return Err(DestinationNotEmpty); }
    var before := db.tables;
    for n := 0 to |EXPORT_TABLES|
      invariant Full(db.tables) && InsertTables(before, bundle, n) == Some(db.tables)
    {
      var t := EXPORT_TABLES[n];
      var rows := bundle[t];
      ghost var start := db.tables;
      InsertNone(start, t);
      for j := 0 to |rows|
        invariant Full(db.tables) && InsertAll(start, t, rows[..j]) == Some(db.tables)
      {
        InsertAllNext(start, t, rows, j);
        var next := Insert(db.tables, t, rows[j]);
        if next.None? {
          InsertAllStops(start, t, rows, j + 1);
          InsertTablesStops(before, bundle, n + 1, |EXPORT_TABLES|);
          db.tables := before;
          return Err(RowRefused);
        }
        db.tables := next.value;
      }
      assert rows[..|rows|] == rows;
    }
    r := if env.bundleHash(Export(env, db.tables)) != env.bundleHash(bundle) then Err(NotCanonical) else Ok(());
  }
}
