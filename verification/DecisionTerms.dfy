// What reconciliation promises, candidate by candidate: which lists are admitted, how
// two candidates stand to each other, what the report says, which decisions are
// accepted and what a decision that is made says.
module DecisionTerms {
  import opened Base
  import opened Chains
  import opened ConflictGraph
  import opened Reconciliation

  // ----- Admission

  // A named authority with proper digests and an interval that is not empty, under the
  // digest of just that.
  predicate CandidateTerms(env: Env, c: Candidate) {
    && c.core.provider != "" && c.core.scope != "" && c.core.keyId != ""
    && env.validHash(c.core.keyHash) && env.validHash(c.core.source) && env.validHash(c.core.lineage)
    && (c.core.validUntil.Some? ==> c.core.validFrom < c.core.validUntil.value)
    && c.hash == env.coreHash(c.core)
  }

  predicate Admitted(env: Env, cs: seq<Candidate>) {
    && |cs| >= 2 && (forall i :: 0 <= i < |cs| ==> CandidateTerms(env, cs[i]))
    && forall i, k :: 0 <= i < k < |cs| ==> cs[i].core.id != cs[k].core.id
  }

  lemma {:induction false} UniqueCount(cs: seq<Candidate>)
    requires UniqueIds(cs)
    ensures |IdsOf(cs)| == |cs|
    decreases |cs|
  {
    hide IdsOf;
    if cs == [] {
      NoIds();
    } else {
      var n := |cs| - 1;
      var p := cs[..n];
      assert cs == p + [cs[n]];
      UniqueCount(p);
      IdsSnoc(p, cs[n]);
      NewId(p, cs[n].core.id);
    }
  }

  lemma NewId(cs: seq<Candidate>, id: Id)
    requires forall i :: 0 <= i < |cs| ==> cs[i].core.id != id
    ensures id !in IdsOf(cs)
  {
  }

  // Admitted are two or more proper candidates, each under its own digest and no two
  // of one identifier.
  lemma ScreenIff(env: Env, cs: seq<Candidate>)
    requires Sound(env)
    ensures Screen(env, cs).Ok? <==> Admitted(env, cs)
  {
    hide IdsOf;
    if UniqueIds(cs) { UniqueCount(cs); }
    CountUnique(cs);
    assert forall i :: 0 <= i < |cs| ==> cs[i] in cs;
    assert forall i :: 0 <= i < |cs| ==> (Sealed(env, cs[i]) <==> CandidateTerms(env, cs[i]));
  }

  // ----- Pairs

  // Some instant lies in both intervals, which run to the last instant when open.
  ghost predicate Meet(a: Core, b: Core) {
    exists t: int :: Inside(a, t) && Inside(b, t)
  }

  predicate Inside(c: Core, t: int) {
    c.validFrom <= t < if c.validUntil.Some? then c.validUntil.value else LAST_INSTANT
  }

  // Candidates of one provider and scope that meet corroborate each other exactly when
  // key and assertion are the same, and conflict otherwise; all others are compatible.
  lemma KindMeans(a: Core, b: Core)
    ensures Classify(a, b) ==
            if a.provider != b.provider || a.scope != b.scope || !Meet(a, b) then Compatible
            else if (a.keyId, a.keyHash, a.assertion) == (b.keyId, b.keyHash, b.assertion) then Corroborated
            else Conflicting
  {
    if Meet(a, b) {
      var t: int :| Inside(a, t) && Inside(b, t);
    }
    if a.provider == b.provider && a.scope == b.scope && Overlaps(a, b) {
      var t := Later(a.validFrom, b.validFrom);
      assert Inside(a, t) && Inside(b, t);
    }
  }

  // Every two candidates are listed once, under one kind.
  lemma EachPairOnce(cs: seq<Candidate>)
    ensures 2 * (|PairsOf(cs, Conflicting)| + |PairsOf(cs, Corroborated)| + |PairsOf(cs, Compatible)|) == |cs| * (|cs| - 1)
  {
    PairsCounted(cs, |cs|, |cs| + 1);
    assert |cs| * (2 * |cs| - 1 - |cs|) == |cs| * (|cs| - 1);
  }

  lemma {:induction false} PairsCounted(cs: seq<Candidate>, i: nat, k: nat)
    requires i <= |cs| && i < k && (k <= |cs| || k == i + 1)
    ensures 2 * (|PairsBefore(cs, Conflicting, i, k)| + |PairsBefore(cs, Corroborated, i, k)| + |PairsBefore(cs, Compatible, i, k)|)
            == i * (2 * |cs| - 1 - i) + 2 * (k - i - 1)
    decreases i, k
  {
    hide Classify;
    if k > i + 1 {
      PairsCounted(cs, i, k - 1);
    } else if i > 0 {
      PairsCounted(cs, i - 1, |cs|);
      assert (i - 1) * (2 * |cs| - i) + 2 * (|cs| - i) == i * (2 * |cs| - 1 - i);
    }
  }

  // ----- The report

  // What the report says besides its components: the pairs of each kind, the standing
  // of the whole, and that nothing has been selected.
  lemma ReportSays(env: Env, cs: seq<Candidate>)
    requires Screen(env, cs).Ok?
    ensures var r := Reconcile(env, cs, None);
            && r.Ok? && r.value.setHash == SubsetHash(env, cs, IdsOf(cs))
            && r.value.conflicts == PairsOf(cs, Conflicting) && r.value.corroborations == PairsOf(cs, Corroborated)
            && r.value.compatible == PairsOf(cs, Compatible)
            && r.value.selected.None? && r.value.reconciledComponent.None?
    ensures var r := Reconcile(env, cs, None).value;
            && (r.actionRequired <==> exists i: nat, k: nat :: Pair(cs, i, k, Conflicting))
            && (r.authority == Unresolved <==> exists i: nat, k: nat :: Pair(cs, i, k, Conflicting))
            && (r.authority == NonOverlapping <==> forall i: nat, k: nat :: i < k < |cs| ==> Pair(cs, i, k, Compatible))
            && (r.authority == SameKeyCorroborated <==>
                (exists i: nat, k: nat :: Pair(cs, i, k, Corroborated)) && !exists i: nat, k: nat :: Pair(cs, i, k, Conflicting))
  {
    hide PairsOf, Screen, IdsOf, SubsetHash, Components, Records, Classify;
    SomePair(cs, Conflicting);
    SomePair(cs, Corroborated);
    AllCompatible(cs);
  }

  lemma AllCompatible(cs: seq<Candidate>)
    ensures (forall i: nat, k: nat :: i < k < |cs| ==> Pair(cs, i, k, Compatible)) <==>
            !(exists i: nat, k: nat :: Pair(cs, i, k, Conflicting)) && !(exists i: nat, k: nat :: Pair(cs, i, k, Corroborated))
  {
    hide Classify;
    if !exists i: nat, k: nat :: Pair(cs, i, k, Conflicting) || Pair(cs, i, k, Corroborated) {
      forall i: nat, k: nat | i < k < |cs| ensures Pair(cs, i, k, Compatible) {
        assert !Pair(cs, i, k, Conflicting) && !Pair(cs, i, k, Corroborated);
      }
    }
    forall i: nat, k: nat
      ensures Pair(cs, i, k, Conflicting) || Pair(cs, i, k, Corroborated) ==> i < k < |cs| && !Pair(cs, i, k, Compatible)
    {
    }
  }

  // The records of the report are the components, each with the digest of its members.
  lemma ComponentsSay(env: Env, cs: seq<Candidate>, i: nat)
    requires Screen(env, cs).Ok? && i < |Components(PairsOf(cs, Conflicting))|
    ensures var r := Reconcile(env, cs, None).value; var comps := Components(PairsOf(cs, Conflicting));
            && |r.components| == |comps| && r.components[i].ids == comps[i] && !r.components[i].resolved
            && Members(comps[i]) <= IdsOf(cs) && r.components[i].hash == SubsetHash(env, cs, Members(comps[i]))
  {
    ComponentsWithin(cs);
    hide PairsOf, Screen, IdsOf, SubsetHash, Components;
  }

  // A digest of a set covers the identifier and hash of each member, in order.
  lemma {:induction false} ListingSays(cs: seq<Candidate>, order: seq<Id>, k: nat)
    requires UniqueIds(cs) && (forall x :: x in order ==> x in IdsOf(cs)) && k < |order|
    ensures |Listing(cs, order)| == |order|
    ensures exists c :: c in cs && c.core.id == order[k] && Listing(cs, order)[k] == (order[k], c.hash)
    decreases |order|
  {
    assert order[0] in order;
    var c :| c in cs && c.core.id == order[0];
    var i :| 0 <= i < |cs| && cs[i] == c;
    HashOfIs(cs, i);
    if |order| > 1 { ListingSays(cs, order[1..], if k > 0 then k - 1 else 0); }
  }

  predicate Pair(cs: seq<Candidate>, i: nat, k: nat, kind: Kind) {
    i < k < |cs| && Classify(cs[i].core, cs[k].core) == kind
  }

  lemma SomePair(cs: seq<Candidate>, kind: Kind)
    ensures PairsOf(cs, kind) != [] <==> exists i: nat, k: nat :: Pair(cs, i, k, kind)
  {
    hide PairsOf, Classify;
    if PairsOf(cs, kind) != [] {
      PairsExact(cs, kind, PairsOf(cs, kind)[0]);
      var i: nat, k: nat :| PairAt(cs, kind, PairsOf(cs, kind)[0], i, k);
      assert Pair(cs, i, k, kind);
    }
    if i: nat, k: nat :| Pair(cs, i, k, kind) {
      var e := (cs[i].core.id, cs[k].core.id);
      PairsExact(cs, kind, e);
      assert PairAt(cs, kind, e, i, k);
    }
  }

  // ----- Decisions

  // A selection on just this set, in component i, under its own digest.
  ghost predicate DecisionTerms(env: Env, draft: Report, d: Decision, i: nat) {
    && d.core.schema == "GALIA-F22-HUMAN-DECISION/1" && d.core.decision == "SELECT_AUTHORITY"
    && d.core.setHash == draft.setHash && d.hash == env.decisionHash(d.core)
    && i < |draft.components| && d.core.componentHash == draft.components[i].hash && d.core.selected in draft.components[i].ids
  }

  // The draft with component i resolved by that selection, and open exactly if there
  // are others.
  ghost predicate DecidedTerms(draft: Report, d: Decision, i: nat, r: Report) {
    && i < |draft.components| && r.setHash == draft.setHash
    && r.conflicts == draft.conflicts && r.corroborations == draft.corroborations && r.compatible == draft.compatible
    && r.selected == Some(d.core.selected) && r.reconciledComponent == Some(d.core.componentHash)
    && |r.components| == |draft.components|
    && (forall k :: 0 <= k < |r.components| ==> r.components[k] == draft.components[k].(resolved := k == i))
    && r.authority == (if |draft.components| == 1 then ReconciledByHuman else Unresolved)
    && (r.actionRequired <==> |draft.components| > 1)
  }

  ghost predicate DecidedAt(env: Env, draft: Report, d: Decision, i: nat, r: Report) {
    DecisionTerms(env, draft, d, i) && DecidedTerms(draft, d, i, r)
  }

  // A decision is accepted exactly when it selects, on an admitted list that it names
  // by digest, a member of the component that it names by digest; the report then has
  // that component resolved, and nothing else changed.
  lemma DecisionIff(env: Env, cs: seq<Candidate>, d: Decision, r: Report)
    requires Sound(env)
    ensures Reconcile(env, cs, Some(d)) == Ok(r) <==>
            Admitted(env, cs) && Reconcile(env, cs, None).Ok? && exists i :: DecidedAt(env, Reconcile(env, cs, None).value, d, i, r)
  {
    hide Screen, PairsOf, Components, Admitted, Records, Decide, DecidedAt;
    ScreenIff(env, cs);
    if Screen(env, cs).Ok? {
      DraftShape(env, cs);
      var draft := Reconcile(env, cs, None).value;
      DecideIff(env, cs, draft, d, r);
    }
  }

  lemma DecideIff(env: Env, cs: seq<Candidate>, draft: Report, d: Decision, r: Report)
    requires Sound(env) && Screen(env, cs).Ok? && Reconcile(env, cs, None) == Ok(draft)
    ensures Decide(env, IdsOf(cs), draft, d) == Ok(r) <==> exists i :: DecidedAt(env, draft, d, i, r)
  {
    hide Screen, PairsOf, Components, IdsOf, Reconcile, Matching, DecidedAt;
    DraftShape(env, cs);
    if Decide(env, IdsOf(cs), draft, d).Ok? {
      var i := Matching(draft.components, HasHash(d.core.componentHash))[0];
      MatchingSound(draft.components, HasHash(d.core.componentHash), 0);
      DecideAt(env, cs, draft, d, i);
      OneReport(env, draft, d, i, Decide(env, IdsOf(cs), draft, d).value, r);
    }
    if i: nat :| DecidedAt(env, draft, d, i, r) {
      TermsOf(env, draft, d, i, r);
      DecideAt(env, cs, draft, d, i);
      OneReport(env, draft, d, i, Decide(env, IdsOf(cs), draft, d).value, r);
    }
  }

  lemma TermsOf(env: Env, draft: Report, d: Decision, i: nat, r: Report)
    requires DecidedAt(env, draft, d, i, r)
    ensures DecisionTerms(env, draft, d, i)
  {
  }

  lemma DecideAt(env: Env, cs: seq<Candidate>, draft: Report, d: Decision, i: nat)
    requires Sound(env) && Screen(env, cs).Ok? && Reconcile(env, cs, None) == Ok(draft)
    requires DecisionTerms(env, draft, d, i)
    ensures Decide(env, IdsOf(cs), draft, d).Ok? && DecidedAt(env, draft, d, i, Decide(env, IdsOf(cs), draft, d).value)
  {
    hide Screen, PairsOf, Components, IdsOf, Reconcile, Matching, Decide;
    DraftShape(env, cs);
    OwnHash(env, cs, i);
    SelectedKnown(cs, d.core.selected, i);
    Resolves(env, IdsOf(cs), draft, d, i);
    Unmoved(env, IdsOf(cs), draft, d);
  }

  // What an accepted decision leaves as it was.
  lemma Unmoved(env: Env, ids: set<Id>, draft: Report, d: Decision)
    ensures var r := Decide(env, ids, draft, d);
            r.Ok? ==> && r.value.setHash == draft.setHash && r.value.corroborations == draft.corroborations
                      && r.value.compatible == draft.compatible && r.value.reconciledComponent == Some(d.core.componentHash)
                      && (r.value.authority == Unresolved || r.value.authority == ReconciledByHuman)
  {
    hide Matching;
    if Decide(env, ids, draft, d).Ok? { MatchingSound(draft.components, HasHash(d.core.componentHash), 0); }
  }

  lemma OneReport(env: Env, draft: Report, d: Decision, i: nat, a: Report, b: Report)
    requires DecidedAt(env, draft, d, i, a)
    ensures DecidedAt(env, draft, d, i, b) <==> a == b
  {
    if DecidedAt(env, draft, d, i, b) {
      assert a.components == b.components;
    }
  }

  // A decision that is made says what was selected, by which review, on which set and
  // in which component, under its own digest: the component asked for, or without one
  // the component of the selected candidate.
  lemma DecisionSays(env: Env, cs: seq<Candidate>, selected: Id, reviewId: string, component: Option<Digest>, d: Decision)
    requires Sound(env)
    ensures MakeDecision(env, cs, selected, reviewId, component) == Ok(d) <==>
            && Admitted(env, cs) && Reconcile(env, cs, None).Ok? && d.hash == env.decisionHash(d.core)
            && d.core.schema == "GALIA-F22-HUMAN-DECISION/1" && d.core.decision == "SELECT_AUTHORITY"
            && d.core.reviewId == reviewId && d.core.selected == selected
            && d.core.setHash == SubsetHash(env, cs, IdsOf(cs))
            && if component.Some? then d.core.componentHash == component.value
               else exists i :: Holds(Reconcile(env, cs, None).value.components, i, selected, d.core.componentHash)
  {
    hide Screen, PairsOf, Components, Admitted, Records, IdsOf, SubsetHash;
    ScreenIff(env, cs);
    if Screen(env, cs).Ok? {
      DraftShape(env, cs);
      SelectionSays(env, cs, Reconcile(env, cs, None).value, selected, reviewId, component, d);
    }
  }

  lemma SelectionSays(env: Env, cs: seq<Candidate>, draft: Report, selected: Id, reviewId: string, component: Option<Digest>, d: Decision)
    requires Screen(env, cs).Ok? && Reconcile(env, cs, None) == Ok(draft)
    ensures Selection(env, draft, selected, reviewId, component) == Ok(d) <==>
            && d.hash == env.decisionHash(d.core)
            && d.core.schema == "GALIA-F22-HUMAN-DECISION/1" && d.core.decision == "SELECT_AUTHORITY"
            && d.core.reviewId == reviewId && d.core.selected == selected && d.core.setHash == draft.setHash
            && if component.Some? then d.core.componentHash == component.value
               else exists i :: Holds(draft.components, i, selected, d.core.componentHash)
  {
    hide Screen, Reconcile, Matching;
    Chosen(env, cs, selected);
    var found := Matching(draft.components, HasMember(selected));
    if |found| == 1 {
      assert Holds(draft.components, found[0], selected, draft.components[found[0]].hash);
    }
  }

  predicate Holds(records: seq<ComponentRecord>, i: nat, id: Id, h: Digest) {
    i < |records| && id in records[i].ids && records[i].hash == h
  }

  // The one record that holds a conflicting candidate is the one the matching finds.
  lemma Chosen(env: Env, cs: seq<Candidate>, selected: Id)
    requires Screen(env, cs).Ok? && Reconcile(env, cs, None).Ok?
    ensures var records := Reconcile(env, cs, None).value.components; var found := Matching(records, HasMember(selected));
            && (|found| == 1 ==> found[0] < |records| && selected in records[found[0]].ids)
            && (forall i: nat, h: Digest :: Holds(records, i, selected, h) ==> found == [i])
  {
    hide Screen, PairsOf, Components, Reconcile, Matching;
    DraftShape(env, cs);
    var records := Reconcile(env, cs, None).value.components;
    if |Matching(records, HasMember(selected))| == 1 { MatchingSound(records, HasMember(selected), 0); }
    forall i: nat, h: Digest | Holds(records, i, selected, h) ensures Matching(records, HasMember(selected)) == [i] {
      OwnComponent(env, cs, selected, i);
    }
  }
}
