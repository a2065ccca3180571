// Fail-closed reconciliation of authority candidates, from
// galia2/authority_reconciliation.py.
module Reconciliation {
  import opened Base
  import opened Chains
  import opened ConflictGraph

  const DECISION_SCHEMA := "GALIA-F22-HUMAN-DECISION/1"

  // The last representable instant, in microseconds; an open interval ends there.
  const LAST_INSTANT: int := 253402300799999999

  type Instant = t: int | t <= LAST_INSTANT witness 0

  datatype Assertion = Active | Revoked

  datatype Core = Core(
    id: Id, provider: string, scope: string, keyId: string, keyHash: Digest, source: Digest, lineage: Digest,
    validFrom: Instant, validUntil: Option<Instant>, assertion: Assertion)

  datatype Candidate = Candidate(core: Core, hash: Digest)

  datatype DecisionCore = DecisionCore(
    schema: string, decision: string, reviewId: string, setHash: Digest, componentHash: Digest, selected: Id)

  datatype Decision = Decision(core: DecisionCore, hash: Digest)

  datatype Env = Env(
    coreHash: Core -> Digest, listHash: seq<(Id, Digest)> -> Digest,
    decisionHash: DecisionCore -> Digest, validHash: Digest -> bool)

  ghost predicate Sound(env: Env) {
    && Injective(env.coreHash) && Injective(env.listHash)
    && (forall c :: env.validHash(env.coreHash(c))) && (forall d :: env.validHash(env.decisionHash(d)))
  }

  datatype Error =
    | TooFew | InvalidCandidate | HashMismatch | DuplicateId | NothingToSelect | WrongSchema | WrongSet
    | SelectedAbsent | WrongComponent | SelectedOutside | NotASelection | BadDecisionHash | Ambiguous

  function End(c: Core): Instant {
    if c.validUntil.Some? then c.validUntil.value else LAST_INSTANT
  }

  predicate ValidCore(env: Env, c: Core) {
    && c.provider != "" && c.scope != "" && c.keyId != ""
    && env.validHash(c.keyHash) && env.validHash(c.source) && env.validHash(c.lineage)
    && (c.validUntil.Some? ==> c.validFrom < c.validUntil.value)
  }

  predicate Sealed(env: Env, c: Candidate) {
    ValidCore(env, c.core) && env.validHash(c.hash) && c.hash == env.coreHash(c.core)
  }

  function Later(a: int, b: int): int {
    if a < b then b else a
  }

  function Earlier(a: int, b: int): int {
    if b < a then b else a
  }

  predicate Overlaps(a: Core, b: Core) {
    && a.provider == b.provider && a.scope == b.scope
    && Later(a.validFrom, b.validFrom) < Earlier(End(a), End(b))
  }

  datatype Kind = Compatible | Corroborated | Conflicting

  function Classify(a: Core, b: Core): Kind {
    if !Overlaps(a, b) then Compatible
    else if a.keyId == b.keyId && a.keyHash == b.keyHash && a.assertion == b.assertion then Corroborated
    else Conflicting
  }

  // The pairs of one kind that two nested loops have met before they come to (i, k).
  function PairsBefore(cs: seq<Candidate>, kind: Kind, i: nat, k: nat): Conflicts
    requires i <= |cs| && i < k && (k <= |cs| || k == i + 1)
    decreases i, k
  {
    if k == i + 1 then if i == 0 then [] else PairsBefore(cs, kind, i - 1, |cs|)
    else
      PairsBefore(cs, kind, i, k - 1)
      + if Classify(cs[i].core, cs[k - 1].core) == kind then [(cs[i].core.id, cs[k - 1].core.id)] else []
  }

  function PairsOf(cs: seq<Candidate>, kind: Kind): Conflicts {
    PairsBefore(cs, kind, |cs|, |cs| + 1)
  }

  function IdsOf(cs: seq<Candidate>): set<Id> {
    set c | c in cs :: c.core.id
  }

  // The candidate of a given identifier, the first one if there are several.
  function HashOf(cs: seq<Candidate>, id: Id): Digest
    requires id in IdsOf(cs)
  {
    if cs[0].core.id == id then cs[0].hash else HashOf(cs[1..], id)
  }

  // The digest of a set of candidates: identifier and hash of each, sorted.
  function SubsetHash(env: Env, cs: seq<Candidate>, ids: set<Id>): Digest
    requires ids <= IdsOf(cs)
  {
    env.listHash(Listing(cs, Sorted(ids)))
  }

  function Listing(cs: seq<Candidate>, order: seq<Id>): seq<(Id, Digest)>
    requires forall x :: x in order ==> x in IdsOf(cs)
  {
    if order == [] then [] else [(order[0], HashOf(cs, order[0]))] + Listing(cs, order[1..])
  }

  datatype ComponentRecord = ComponentRecord(ids: seq<Id>, hash: Digest, resolved: bool)

  datatype AuthorityState = Unresolved | SameKeyCorroborated | NonOverlapping | ReconciledByHuman

  datatype Report = Report(
    setHash: Digest, conflicts: Conflicts, components: seq<ComponentRecord>, corroborations: Conflicts,
    compatible: Conflicts, authority: AuthorityState, actionRequired: bool, selected: Option<Id>,
    reconciledComponent: Option<Digest>)

  // ----- The operations

  function Screen(env: Env, cs: seq<Candidate>): Result<(), Error> {
    if |cs| < 2 then Err(TooFew)
    else if exists c :: c in cs && !Sealed(env, c) then Err(InvalidCandidate)
    else if |IdsOf(cs)| != |cs| then Err(DuplicateId)
    else Ok(())
  }

  predicate Within(cs: seq<Candidate>, components: seq<seq<Id>>) {
    forall i, x :: 0 <= i < |components| && x in components[i] ==> x in IdsOf(cs)
  }

  function Members(q: seq<Id>): set<Id> {
    set x | x in q
  }

  function RecordOf(env: Env, cs: seq<Candidate>, component: seq<Id>): ComponentRecord
    requires forall x :: x in component ==> x in IdsOf(cs)
  {
    ComponentRecord(component, SubsetHash(env, cs, Members(component)), false)
  }

  function Records(env: Env, cs: seq<Candidate>, components: seq<seq<Id>>): seq<ComponentRecord>
    requires Within(cs, components)
  {
    seq(|components|, i requires 0 <= i < |components| => RecordOf(env, cs, components[i]))
  }

  // The report before any human decision.
  function Draft(env: Env, cs: seq<Candidate>, records: seq<ComponentRecord>): Report {
    var conflicts := PairsOf(cs, Conflicting);
    var corroborations := PairsOf(cs, Corroborated);
    Report(SubsetHash(env, cs, IdsOf(cs)), conflicts, records, corroborations, PairsOf(cs, Compatible),
           if conflicts != [] then Unresolved else if corroborations != [] then SameKeyCorroborated else NonOverlapping,
           conflicts != [], None, None)
  }

  // The positions of the records a test picks out.
  function Matching(records: seq<ComponentRecord>, test: ComponentRecord -> bool): seq<nat> {
    if records == [] then []
    else
      var n := |records| - 1;
      Matching(records[..n], test) + if test(records[n]) then [n] else []
  }

  function HasHash(h: Digest): ComponentRecord -> bool {
    (r: ComponentRecord) => r.hash == h
  }

  function HasMember(id: Id): ComponentRecord -> bool {
    (r: ComponentRecord) => id in r.ids
  }

  // The checks on a human decision, and the report it turns a draft into.
  function Decide(env: Env, ids: set<Id>, draft: Report, d: Decision): Result<Report, Error> {
    if draft.conflicts == [] then Err(NothingToSelect)
    else if d.core.schema != DECISION_SCHEMA then Err(WrongSchema)
    else if d.core.setHash != draft.setHash then Err(WrongSet)
    else if d.core.selected !in ids then Err(SelectedAbsent)
    else
      var matching := Matching(draft.components, HasHash(d.core.componentHash));
      if |matching| != 1 then Err(WrongComponent)
      else
        MatchingSound(draft.components, HasHash(d.core.componentHash), 0);
        if d.core.selected !in draft.components[matching[0]].ids then Err(SelectedOutside)
        else if d.core.decision != "SELECT_AUTHORITY" then Err(NotASelection)
        else if !env.validHash(d.hash) || d.hash != env.decisionHash(d.core) then Err(BadDecisionHash)
        else
          var records := draft.components[matching[0] := draft.components[matching[0]].(resolved := true)];
          var open := exists r :: r in records && !r.resolved;
          Ok(draft.(components := records, selected := Some(d.core.selected),
                    reconciledComponent := Some(d.core.componentHash),
                    authority := if open then Unresolved else ReconciledByHuman, actionRequired := open))
  }

  ghost function Reconcile(env: Env, cs: seq<Candidate>, d: Option<Decision>): Result<Report, Error> {
    match Screen(env, cs)
    case Err(e) => Err(e)
    case Ok(_) =>
      ComponentsWithin(cs);
      var draft := Draft(env, cs, Records(env, cs, Components(PairsOf(cs, Conflicting))));
      match d
      case None => Ok(draft)
      case Some(decision) => Decide(env, IdsOf(cs), draft, decision)
  }

  function Selection(env: Env, draft: Report, selected: Id, reviewId: string, component: Option<Digest>): Result<Decision, Error> {
    var holding := Matching(draft.components, HasMember(selected));
    if component.None? && |holding| != 1 then Err(Ambiguous)
    else
      var h := if component.Some? then component.value
               else (MatchingSound(draft.components, HasMember(selected), 0); draft.components[holding[0]].hash);
      var core := DecisionCore(DECISION_SCHEMA, "SELECT_AUTHORITY", reviewId, draft.setHash, h, selected);
      Ok(Decision(core, env.decisionHash(core)))
  }

  ghost function MakeDecision(env: Env, cs: seq<Candidate>, selected: Id, reviewId: string, component: Option<Digest>)
    : Result<Decision, Error>
  {
    match Reconcile(env, cs, None)
    case Err(e) => Err(e)
    case Ok(draft) => Selection(env, draft, selected, reviewId, component)
  }

  method CollectPairs(cs: seq<Candidate>) returns (conflicts: Conflicts, corroborations: Conflicts, compatible: Conflicts)
    ensures conflicts == PairsOf(cs, Conflicting)
    ensures corroborations == PairsOf(cs, Corroborated)
    ensures compatible == PairsOf(cs, Compatible)
  {
    conflicts, corroborations, compatible := [], [], [];
    for i := 0 to |cs|
      invariant conflicts == PairsBefore(cs, Conflicting, i, i + 1)
      invariant corroborations == PairsBefore(cs, Corroborated, i, i + 1)
      invariant compatible == PairsBefore(cs, Compatible, i, i + 1)
    {
      for k := i + 1 to |cs|
        invariant conflicts == PairsBefore(cs, Conflicting, i, k)
        invariant corroborations == PairsBefore(cs, Corroborated, i, k)
        invariant compatible == PairsBefore(cs, Compatible, i, k)
      {
        var a, b := cs[i].core, cs[k].core;
        var pair := (a.id, b.id);
        if !Overlaps(a, b) {
          compatible := compatible + [pair];
        } else if a.keyId == b.keyId && a.keyHash == b.keyHash && a.assertion == b.assertion {
          corroborations := corroborations + [pair];
        } else {
          conflicts := conflicts + [pair];
        }
      }
    }
  }

  method ReconcileCandidates(env: Env, cs: seq<Candidate>, d: Option<Decision>) returns (r: Result<Report, Error>)
    ensures r == Reconcile(env, cs, d)
  {
    var screened := Screen(env, cs);
    if screened.Err? { return Err(screened.error); }
    var conflicts, corroborations, compatible := CollectPairs(cs);
    var components := ConflictComponents(conflicts);
    ComponentsWithin(cs);
    var records: seq<ComponentRecord> := [];
    for i := 0 to |components|
      invariant |records| == i && forall k :: 0 <= k < i ==> records[k] == RecordOf(env, cs, components[k])
    {
      records := records + [RecordOf(env, cs, components[i])];
    }
    assert records == Records(env, cs, components);
    var draft := Draft(env, cs, records);
    r := if d.None? then Ok(draft) else Decide(env, IdsOf(cs), draft, d.value);
  }

  method MakeHumanDecision(env: Env, cs: seq<Candidate>, selected: Id, reviewId: string, component: Option<Digest>)
    returns (r: Result<Decision, Error>)
    ensures r == MakeDecision(env, cs, selected, reviewId, component)
  {
    var report := ReconcileCandidates(env, cs, None);
    if report.Err? { return Err(report.error); }
    r := Selection(env, report.value, selected, reviewId, component);
  }

  // ----- The pairs

  // Two candidates overlap exactly when some instant lies in both their intervals.
  lemma OverlapMeans(a: Core, b: Core)
    ensures Overlaps(a, b) <==>
            a.provider == b.provider && a.scope == b.scope
            && exists t: int {:trigger Later(t, t)} :: a.validFrom <= t < End(a) && b.validFrom <= t < End(b)
    ensures Overlaps(a, b) == Overlaps(b, a) && Classify(a, b) == Classify(b, a)
  {
    if Overlaps(a, b) {
      var t := Later(a.validFrom, b.validFrom);
      assert Later(t, t) == t;
    }
  }

  // Positions m and n hold a pair of the given kind and identifiers.
  predicate PairAt(cs: seq<Candidate>, kind: Kind, e: (Id, Id), m: nat, n: nat) {
    m < n < |cs| && e == (cs[m].core.id, cs[n].core.id) && Classify(cs[m].core, cs[n].core) == kind
  }

  lemma {:induction false} PairsBeforeExact(cs: seq<Candidate>, kind: Kind, i: nat, k: nat, e: (Id, Id))
    requires i <= |cs| && i < k && (k <= |cs| || k == i + 1)
    ensures e in PairsBefore(cs, kind, i, k) <==> exists m: nat, n: nat :: PairAt(cs, kind, e, m, n) && (m < i || (m == i && n < k))
    decreases i, k
  {
    if k > i + 1 {
      PairsBeforeExact(cs, kind, i, k - 1, e);
      assert PairAt(cs, kind, (cs[i].core.id, cs[k - 1].core.id), i, k - 1) <==> Classify(cs[i].core, cs[k - 1].core) == kind;
    } else if i > 0 {
      PairsBeforeExact(cs, kind, i - 1, |cs|, e);
    }
  }

  // A pair is listed under a kind exactly when an earlier and a later candidate
  // are of that kind to each other.
  lemma PairsExact(cs: seq<Candidate>, kind: Kind, e: (Id, Id))
    ensures e in PairsOf(cs, kind) <==> exists m: nat, n: nat :: PairAt(cs, kind, e, m, n)
  {
    PairsBeforeExact(cs, kind, |cs|, |cs| + 1, e);
  }

  lemma ConflictEnds(cs: seq<Candidate>, e: (Id, Id))
    requires e in PairsOf(cs, Conflicting)
    ensures e.0 in IdsOf(cs) && e.1 in IdsOf(cs)
  {
    PairsExact(cs, Conflicting, e);
    var m: nat, n: nat :| PairAt(cs, Conflicting, e, m, n);
    assert cs[m] in cs && cs[n] in cs;
  }

  lemma ComponentsWithin(cs: seq<Candidate>)
    ensures Within(cs, Components(PairsOf(cs, Conflicting)))
  {
    var conflicts := PairsOf(cs, Conflicting);
    forall i, x | 0 <= i < |Components(conflicts)| && x in Components(conflicts)[i] ensures x in IdsOf(cs) {
      ComponentMembers(conflicts, i, x, x);
      var e :| e in conflicts && (e.0 == x || e.1 == x);
      ConflictEnds(cs, e);
    }
  }

  // ----- Digests of sets of candidates

  lemma {:induction false} ListingPins(a: seq<Candidate>, b: seq<Candidate>, p: seq<Id>, q: seq<Id>)
    requires forall x :: x in p ==> x in IdsOf(a)
    requires forall x :: x in q ==> x in IdsOf(b)
    requires Listing(a, p) == Listing(b, q)
    ensures p == q && forall x :: x in p ==> HashOf(a, x) == HashOf(b, x)
    decreases |p|
  {
    if p != [] && q != [] {
      assert Listing(a, p)[0] == Listing(b, q)[0];
      assert Listing(a, p)[1..] == Listing(a, p[1..]) && Listing(b, q)[1..] == Listing(b, q[1..]);
      ListingPins(a, b, p[1..], q[1..]);
      assert p == [p[0]] + p[1..] && q == [q[0]] + q[1..];
    }
  }

  lemma SubsetHashPins(env: Env, a: seq<Candidate>, b: seq<Candidate>, s: set<Id>, t: set<Id>)
    requires Sound(env) && s <= IdsOf(a) && t <= IdsOf(b) && SubsetHash(env, a, s) == SubsetHash(env, b, t)
    ensures s == t && forall x :: x in s ==> HashOf(a, x) == HashOf(b, x)
  {
    var p, q := Sorted(s), Sorted(t);
    assert env.listHash(Listing(a, p)) == env.listHash(Listing(b, q));
    ListingPins(a, b, p, q);
  }

  // ----- Unique identifiers

  predicate UniqueIds(cs: seq<Candidate>) {
    forall i, k :: 0 <= i < k < |cs| ==> cs[i].core.id != cs[k].core.id
  }

  lemma {:induction false} CountUnique(cs: seq<Candidate>)
    ensures |IdsOf(cs)| <= |cs| && (|IdsOf(cs)| == |cs| ==> UniqueIds(cs))
    decreases |cs|
  {
    hide IdsOf;
    if cs == [] {
      NoIds();
    } else {
      var n := |cs| - 1;
      var p := cs[..n];
      CountUnique(p);
      IdsSnoc(p, cs[n]);
      assert cs == p + [cs[n]];
      if |IdsOf(cs)| == |cs| {
        forall i, k | 0 <= i < k < |cs| ensures cs[i].core.id != cs[k].core.id {
          assert cs[i] == p[i];
          if k == n { IdIn(p, i); } else { assert cs[k] == p[k]; }
        }
      }
    }
  }

  lemma NoIds()
    ensures IdsOf([]) == {}
  {
  }

  lemma IdIn(cs: seq<Candidate>, i: nat)
    requires i < |cs|
    ensures cs[i].core.id in IdsOf(cs)
  {
    assert cs[i] in cs;
  }

  lemma IdsSnoc(p: seq<Candidate>, c: Candidate)
    ensures IdsOf(p + [c]) == IdsOf(p) + {c.core.id}
    ensures |IdsOf(p + [c])| == |IdsOf(p)| + if c.core.id in IdsOf(p) then 0 else 1
  {
    assert forall d :: d in p + [c] <==> d in p || d == c;
    assert c in p + [c];
    assert IdsOf(p + [c]) == IdsOf(p) + {c.core.id};
    if c.core.id in IdsOf(p) {
      assert IdsOf(p) + {c.core.id} == IdsOf(p);
    }
  }

  lemma {:induction false} HashOfIs(cs: seq<Candidate>, i: nat)
    requires UniqueIds(cs) && i < |cs|
    ensures cs[i].core.id in IdsOf(cs) && HashOf(cs, cs[i].core.id) == cs[i].hash
    decreases |cs|
  {
    assert cs[i] in cs;
    if i > 0 {
      assert cs[0].core.id != cs[i].core.id;
      HashOfIs(cs[1..], i - 1);
    }
  }

  // ----- Independence of the candidates' order

  // The conflict graph joins exactly the pairs of distinct, conflicting candidates.
  lemma ConflictMeans(env: Env, cs: seq<Candidate>, c: Candidate, d: Candidate)
    requires Screen(env, cs).Ok? && c in cs && d in cs
    ensures Adjacent(PairsOf(cs, Conflicting), c.core.id, d.core.id) <==> Classify(c.core, d.core) == Conflicting
  {
    var i :| 0 <= i < |cs| && cs[i] == c;
    var k :| 0 <= k < |cs| && cs[k] == d;
    PairsExact(cs, Conflicting, (c.core.id, d.core.id));
    PairsExact(cs, Conflicting, (d.core.id, c.core.id));
    OverlapMeans(c.core, d.core);
    CountUnique(cs);
    if Classify(c.core, d.core) == Conflicting {
      assert i != k;
      if i < k { assert PairAt(cs, Conflicting, (c.core.id, d.core.id), i, k); }
      else { assert PairAt(cs, Conflicting, (d.core.id, c.core.id), k, i); }
    }
  }

  ghost predicate SameCandidates(a: seq<Candidate>, b: seq<Candidate>) {
    forall c :: c in a <==> c in b
  }

  lemma SameGraph(env: Env, a: seq<Candidate>, b: seq<Candidate>)
    requires Screen(env, a).Ok? && Screen(env, b).Ok? && SameCandidates(a, b)
    ensures forall x, y :: Adjacent(PairsOf(a, Conflicting), x, y) <==> Adjacent(PairsOf(b, Conflicting), x, y)
  {
    forall x, y ensures Adjacent(PairsOf(a, Conflicting), x, y) <==> Adjacent(PairsOf(b, Conflicting), x, y) {
      if x in IdsOf(a) && y in IdsOf(a) {
        var c :| c in a && c.core.id == x;
        var d :| d in a && d.core.id == y;
        ConflictMeans(env, a, c, d);
        ConflictMeans(env, b, c, d);
      } else {
        NotAdjacent(a, x, y);
        NotAdjacent(b, x, y);
      }
    }
  }

  lemma NotAdjacent(cs: seq<Candidate>, x: Id, y: Id)
    requires x !in IdsOf(cs) || y !in IdsOf(cs)
    ensures !Adjacent(PairsOf(cs, Conflicting), x, y)
  {
    if (x, y) in PairsOf(cs, Conflicting) { ConflictEnds(cs, (x, y)); }
    if (y, x) in PairsOf(cs, Conflicting) { ConflictEnds(cs, (y, x)); }
  }

  lemma SameHashes(env: Env, a: seq<Candidate>, b: seq<Candidate>, x: Id)
    requires Screen(env, a).Ok? && Screen(env, b).Ok? && SameCandidates(a, b) && x in IdsOf(a)
    ensures x in IdsOf(b) && HashOf(a, x) == HashOf(b, x)
  {
    CountUnique(a);
    CountUnique(b);
    var c :| c in a && c.core.id == x;
    var i :| 0 <= i < |a| && a[i] == c;
    var k :| 0 <= k < |b| && b[k] == c;
    HashOfIs(a, i);
    HashOfIs(b, k);
  }

  lemma {:induction false} SameListing(a: seq<Candidate>, b: seq<Candidate>, order: seq<Id>)
    requires forall x :: x in order ==> x in IdsOf(a) && x in IdsOf(b) && HashOf(a, x) == HashOf(b, x)
    ensures Listing(a, order) == Listing(b, order)
    decreases |order|
  {
    if order != [] { SameListing(a, b, order[1..]); }
  }

  lemma SameSubsetHash(env: Env, a: seq<Candidate>, b: seq<Candidate>, ids: set<Id>)
    requires Screen(env, a).Ok? && Screen(env, b).Ok? && SameCandidates(a, b) && ids <= IdsOf(a)
    ensures ids <= IdsOf(b) && SubsetHash(env, a, ids) == SubsetHash(env, b, ids)
  {
    forall x | x in ids ensures x in IdsOf(b) && HashOf(a, x) == HashOf(b, x) {
      SameHashes(env, a, b, x);
    }
    SameListing(a, b, Sorted(ids));
  }

  // The order in which candidates are supplied changes neither the components,
  // nor their digests, nor the digest of the whole set.
  lemma OrderIrrelevant(env: Env, a: seq<Candidate>, b: seq<Candidate>)
    requires Screen(env, a).Ok? && Screen(env, b).Ok? && SameCandidates(a, b)
    ensures Reconcile(env, a, None).Ok? && Reconcile(env, b, None).Ok?
    ensures Reconcile(env, a, None).value.components == Reconcile(env, b, None).value.components
    ensures Reconcile(env, a, None).value.setHash == Reconcile(env, b, None).value.setHash
  {
    hide Screen, PairsOf, Components, Sorted, Records, SubsetHash, IdsOf;
    SameGraph(env, a, b);
    ComponentsOfGraph(PairsOf(a, Conflicting), PairsOf(b, Conflicting));
    ComponentsWithin(a);
    ComponentsWithin(b);
    SameRecords(env, a, b, Components(PairsOf(a, Conflicting)));
  }

  lemma SameRecords(env: Env, a: seq<Candidate>, b: seq<Candidate>, components: seq<seq<Id>>)
    requires Screen(env, a).Ok? && Screen(env, b).Ok? && SameCandidates(a, b)
    requires Within(a, components) && Within(b, components)
    ensures Records(env, a, components) == Records(env, b, components)
    ensures SubsetHash(env, a, IdsOf(a)) == SubsetHash(env, b, IdsOf(b))
  {
    hide Screen, SubsetHash;
    forall i | 0 <= i < |components| ensures RecordOf(env, a, components[i]) == RecordOf(env, b, components[i]) {
      SameSubsetHash(env, a, b, Members(components[i]));
    }
    assert IdsOf(a) == IdsOf(b);
    SameSubsetHash(env, a, b, IdsOf(a));
  }

  // ----- Human decisions

  lemma {:induction false} MatchingSound(records: seq<ComponentRecord>, test: ComponentRecord -> bool, j: nat)
    requires j < |Matching(records, test)|
    ensures Matching(records, test)[j] < |records| && test(records[Matching(records, test)[j]])
    decreases |records|
  {
    var n := |records| - 1;
    if j < |Matching(records[..n], test)| {
      MatchingSound(records[..n], test, j);
    }
  }

  lemma {:induction false} MatchingFinds(records: seq<ComponentRecord>, test: ComponentRecord -> bool, k: nat)
    requires k < |records| && test(records[k])
    ensures k in Matching(records, test)
    decreases |records|
  {
    var n := |records| - 1;
    if k < n {
      MatchingFinds(records[..n], test, k);
    }
  }

  lemma {:induction false} MatchingNone(records: seq<ComponentRecord>, test: ComponentRecord -> bool)
    requires forall k :: 0 <= k < |records| ==> !test(records[k])
    ensures Matching(records, test) == []
    decreases |records|
  {
    if records != [] { MatchingNone(records[..|records| - 1], test); }
  }

  lemma {:induction false} MatchingOne(records: seq<ComponentRecord>, test: ComponentRecord -> bool, i: nat)
    requires i < |records| && test(records[i])
    requires forall k :: 0 <= k < |records| && test(records[k]) ==> k == i
    ensures Matching(records, test) == [i]
    decreases |records|
  {
    var n := |records| - 1;
    if i < n {
      MatchingOne(records[..n], test, i);
    } else {
      MatchingNone(records[..n], test);
    }
  }

  // The draft report of screened candidates, and what a decision is checked against.
  lemma DraftShape(env: Env, cs: seq<Candidate>)
    requires Screen(env, cs).Ok?
    ensures var draft := Reconcile(env, cs, None); var comps := Components(PairsOf(cs, Conflicting));
            && draft.Ok? && |draft.value.components| == |comps|
            && (forall k :: 0 <= k < |comps| ==> draft.value.components[k].ids == comps[k] && !draft.value.components[k].resolved)
            && draft.value.conflicts == PairsOf(cs, Conflicting)
            && draft.value.setHash == SubsetHash(env, cs, IdsOf(cs))
    ensures forall d :: Reconcile(env, cs, Some(d)) == Decide(env, IdsOf(cs), Reconcile(env, cs, None).value, d)
  {
  }

  // The components of a screened list of candidates: what the two matchings find.
  lemma OwnComponent(env: Env, cs: seq<Candidate>, selected: Id, i: nat)
    requires Screen(env, cs).Ok?
    requires var comps := Components(PairsOf(cs, Conflicting)); i < |comps| && selected in comps[i]
    ensures Matching(Reconcile(env, cs, None).value.components, HasMember(selected)) == [i]
  {
    var conflicts := PairsOf(cs, Conflicting);
    var records := Reconcile(env, cs, None).value.components;
    ComponentMembers(conflicts, i, selected, selected);
    ComponentsPartition(conflicts, selected);
    forall k | 0 <= k < |records| && HasMember(selected)(records[k]) ensures k == i {
      assert selected in Components(conflicts)[k];
    }
    MatchingOne(records, HasMember(selected), i);
  }

  // Different components have different digests.
  lemma OwnHash(env: Env, cs: seq<Candidate>, i: nat)
    requires Sound(env) && Screen(env, cs).Ok? && i < |Components(PairsOf(cs, Conflicting))|
    ensures var records := Reconcile(env, cs, None).value.components;
            Matching(records, HasHash(records[i].hash)) == [i]
  {
    var conflicts := PairsOf(cs, Conflicting);
    var comps := Components(conflicts);
    var records := Reconcile(env, cs, None).value.components;
    ComponentsWithin(cs);
    ComponentNonempty(conflicts, i);
    forall k | 0 <= k < |records| && HasHash(records[i].hash)(records[k]) ensures k == i {
      SubsetHashPins(env, cs, cs, Members(comps[i]), Members(comps[k]));
      var x := comps[i][0];
      assert x in Members(comps[i]);
      assert x in comps[i] && x in comps[k];
      ComponentMembers(conflicts, i, x, x);
      ComponentsPartition(conflicts, x);
    }
    MatchingOne(records, HasHash(records[i].hash), i);
  }

  lemma ComponentNonempty(conflicts: Conflicts, i: nat)
    requires i < |Components(conflicts)|
    ensures Components(conflicts)[i] != []
  {
    var root := Sorted(Leaders(conflicts))[i];
    assert root in Sorted(Leaders(conflicts));
    JoinedSelf(conflicts, root);
    assert root in Components(conflicts)[i];
  }

  lemma PositionOf(conflicts: Conflicts, x: Id) returns (i: nat)
    requires x in Nodes(conflicts)
    ensures i < |Components(conflicts)| && x in Components(conflicts)[i]
  {
    ComponentsPartition(conflicts, x);
    i :| 0 <= i < |Components(conflicts)| && x in Components(conflicts)[i];
  }

  // Without a component named, a decision can be made exactly for a candidate that
  // is in a conflict.
  lemma DecisionMadeIff(env: Env, cs: seq<Candidate>, selected: Id, reviewId: string)
    requires Screen(env, cs).Ok?
    ensures MakeDecision(env, cs, selected, reviewId, None).Ok? <==> selected in Nodes(PairsOf(cs, Conflicting))
  {
    var conflicts := PairsOf(cs, Conflicting);
    var records := Reconcile(env, cs, None).value.components;
    if selected in Nodes(conflicts) {
      var i := PositionOf(conflicts, selected);
      OwnComponent(env, cs, selected, i);
    } else {
      forall k | 0 <= k < |records| ensures !HasMember(selected)(records[k]) {
        if selected in Components(conflicts)[k] { ComponentMembers(conflicts, k, selected, selected); }
      }
      MatchingNone(records, HasMember(selected));
    }
  }

  // The report an accepted decision leaves.
  ghost predicate Settled(env: Env, cs: seq<Candidate>, selected: Id, i: nat, report: Report) {
    var draft := Reconcile(env, cs, None);
    && draft.Ok? && i < |draft.value.components| == |report.components|
    && report.selected == Some(selected) && selected in report.components[i].ids
    && (forall k :: 0 <= k < |report.components| ==>
          report.components[k] == draft.value.components[k].(resolved := k == i))
    && (report.authority == ReconciledByHuman <==> |draft.value.components| == 1)
    && (report.actionRequired <==> |draft.value.components| > 1)
    && report.conflicts == draft.value.conflicts
  }

  lemma NodesMeanConflicts(conflicts: Conflicts, x: Id)
    requires x in Nodes(conflicts)
    ensures conflicts != []
  {
  }

  // A selected candidate of component i is in a conflict, and is a candidate.
  lemma SelectedKnown(cs: seq<Candidate>, selected: Id, i: nat)
    requires var comps := Components(PairsOf(cs, Conflicting)); i < |comps| && selected in comps[i]
    ensures PairsOf(cs, Conflicting) != [] && selected in IdsOf(cs)
  {
    var conflicts := PairsOf(cs, Conflicting);
    ComponentMembers(conflicts, i, selected, selected);
    NodesMeanConflicts(conflicts, selected);
    ComponentsWithin(cs);
  }

  // A decision made for the component of the selected candidate is accepted: it
  // resolves that component, leaves the others and the recorded conflicts alone,
  // and settles the whole set exactly when there is one component.
  lemma DecisionAccepted(env: Env, cs: seq<Candidate>, selected: Id, reviewId: string, i: nat)
    requires Sound(env) && Screen(env, cs).Ok?
    requires var comps := Components(PairsOf(cs, Conflicting)); i < |comps| && selected in comps[i]
    ensures MakeDecision(env, cs, selected, reviewId, None).Ok?
    ensures var d := MakeDecision(env, cs, selected, reviewId, None).value;
            && d.core.componentHash == Reconcile(env, cs, None).value.components[i].hash
            && Reconcile(env, cs, Some(d)).Ok? && Settled(env, cs, selected, i, Reconcile(env, cs, Some(d)).value)
  {
    hide Reconcile, Components, PairsOf, Screen, IdsOf, Decide;
    SelectedKnown(cs, selected, i);
    OwnComponent(env, cs, selected, i);
    OwnHash(env, cs, i);
    DraftShape(env, cs);
    var d := MakeDecision(env, cs, selected, reviewId, None).value;
    Resolves(env, IdsOf(cs), Reconcile(env, cs, None).value, d, i);
  }

  lemma Resolves(env: Env, ids: set<Id>, draft: Report, d: Decision, i: nat)
    requires Sound(env) && draft.conflicts != [] && i < |draft.components|
    requires forall k :: 0 <= k < |draft.components| ==> !draft.components[k].resolved
    requires d.core.schema == DECISION_SCHEMA && d.core.decision == "SELECT_AUTHORITY" && d.core.setHash == draft.setHash
    requires d.core.selected in ids && d.core.selected in draft.components[i].ids
    requires d.hash == env.decisionHash(d.core)
    requires Matching(draft.components, HasHash(d.core.componentHash)) == [i]
    ensures var r := Decide(env, ids, draft, d);
            && r.Ok? && |r.value.components| == |draft.components|
            && r.value.selected == Some(d.core.selected) && r.value.conflicts == draft.conflicts
            && (forall k :: 0 <= k < |draft.components| ==>
                  r.value.components[k] == draft.components[k].(resolved := k == i))
            && (r.value.authority == ReconciledByHuman <==> |draft.components| == 1)
            && (r.value.actionRequired <==> |draft.components| > 1)
  {
    var records := Decide(env, ids, draft, d).value.components;
    assert records[i].resolved;
    if |records| > 1 {
      var k := if i == 0 then 1 else 0;
      assert records[k] in records && !records[k].resolved;
    }
  }

  // With a component named, acceptance means it is the selected candidate's own.
  lemma NamedComponent(env: Env, cs: seq<Candidate>, selected: Id, reviewId: string, h: Digest, i: nat)
    requires Sound(env) && Screen(env, cs).Ok?
    requires var comps := Components(PairsOf(cs, Conflicting)); i < |comps| && selected in comps[i]
    ensures MakeDecision(env, cs, selected, reviewId, Some(h)).Ok?
    ensures var d := MakeDecision(env, cs, selected, reviewId, Some(h)).value;
            Reconcile(env, cs, Some(d)).Ok? <==> h == Reconcile(env, cs, None).value.components[i].hash
  {
    hide Reconcile, Components, PairsOf, Screen, IdsOf;
    DraftShape(env, cs);
    var records := Reconcile(env, cs, None).value.components;
    var d := MakeDecision(env, cs, selected, reviewId, Some(h)).value;
    if Reconcile(env, cs, Some(d)).Ok? {
      MatchingSound(records, HasHash(h), 0);
      var k := Matching(records, HasHash(h))[0];
      OnlyComponent(PairsOf(cs, Conflicting), selected, i, k);
    }
    if h == records[i].hash {
      DecisionAccepted(env, cs, selected, reviewId, i);
      assert MakeDecision(env, cs, selected, reviewId, None) == Ok(d);
    }
  }

  lemma OnlyComponent(conflicts: Conflicts, x: Id, i: nat, k: nat)
    requires i < |Components(conflicts)| && k < |Components(conflicts)|
    requires x in Components(conflicts)[i] && x in Components(conflicts)[k]
    ensures i == k
  {
    ComponentMembers(conflicts, i, x, x);
    ComponentsPartition(conflicts, x);
  }

  lemma HashOfMember(env: Env, cs: seq<Candidate>, c: Candidate)
    requires Screen(env, cs).Ok? && c in cs
    ensures c.core.id in IdsOf(cs) && HashOf(cs, c.core.id) == c.hash == env.coreHash(c.core)
  {
    CountUnique(cs);
    var i :| 0 <= i < |cs| && cs[i] == c;
    HashOfIs(cs, i);
    assert Sealed(env, c);
  }

  lemma SetHashPins(env: Env, a: seq<Candidate>, b: seq<Candidate>, c: Candidate)
    requires Sound(env) && Screen(env, a).Ok? && Screen(env, b).Ok? && c in a
    requires SubsetHash(env, a, IdsOf(a)) == SubsetHash(env, b, IdsOf(b))
    ensures c in b
  {
    hide Screen, HashOf, SubsetHash;
    SubsetHashPins(env, a, b, IdsOf(a), IdsOf(b));
    HashOfMember(env, a, c);
    var d :| d in b && d.core.id == c.core.id;
    HashOfMember(env, b, d);
    assert env.coreHash(c.core) == env.coreHash(d.core);
  }

  // An accepted decision names the digest of the set it was accepted on.
  lemma DecidedOn(env: Env, cs: seq<Candidate>, d: Decision)
    requires Reconcile(env, cs, Some(d)).Ok?
    ensures Screen(env, cs).Ok? && d.core.setHash == SubsetHash(env, cs, IdsOf(cs))
  {
    hide Components, PairsOf, Screen, IdsOf, SubsetHash, Matching;
    if Screen(env, cs).Ok? {
      DraftShape(env, cs);
    }
  }

  // A decision is bound to its candidates: no other set accepts it.
  lemma DecisionPinsSet(env: Env, a: seq<Candidate>, b: seq<Candidate>, d: Decision)
    requires Sound(env) && Reconcile(env, a, Some(d)).Ok? && Reconcile(env, b, Some(d)).Ok?
    ensures SameCandidates(a, b)
  {
    hide Reconcile, Screen, IdsOf, SubsetHash;
    DecidedOn(env, a, d);
    DecidedOn(env, b, d);
    forall c ensures c in a <==> c in b {
      if c in a { SetHashPins(env, a, b, c); }
      if c in b { SetHashPins(env, b, a, c); }
    }
  }
}
