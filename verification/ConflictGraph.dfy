// Conflict components by graph search, from galia2/authority_reconciliation.py.
// Candidate identifiers are read as numbers: only their order is ever used.
module ConflictGraph {
  import opened Base

  type Id = nat
  type Conflicts = seq<(Id, Id)>

  // ----- Sorting a set of identifiers

  predicate Ascending(q: seq<Id>) {
    forall i, k :: 0 <= i < k < |q| ==> q[i] < q[k]
  }

  predicate IsMin(s: set<Id>, m: Id) {
    m in s && forall y :: y in s ==> m <= y
  }

  lemma {:induction false} MinExists(s: set<Id>)
    requires s != {}
    ensures exists m :: IsMin(s, m)
    decreases s
  {
    var x :| x in s;
    var rest := s - {x};
    if rest == {} {
      assert s == {x};
      assert IsMin(s, x);
    } else {
      MinExists(rest);
      var m :| IsMin(rest, m);
      MinOf(s, x, m);
    }
  }

  lemma MinOf(s: set<Id>, x: Id, m: Id)
    requires x in s && IsMin(s - {x}, m)
    ensures IsMin(s, if x < m then x else m)
  {
    forall y | y in s ensures x <= y || m <= y {
      assert y == x || y in s - {x};
    }
  }

  function Min(s: set<Id>): (m: Id)
    requires s != {}
    ensures m in s && forall y :: y in s ==> m <= y
  {
    MinExists(s);
    var m :| IsMin(s, m);
    m
  }

  function Sorted(s: set<Id>): (q: seq<Id>)
    ensures Ascending(q) && |q| == |s|
    ensures forall x :: x in q <==> x in s
    decreases |s|
  {
    if s == {} then [] else [Min(s)] + Sorted(s - {Min(s)})
  }

  // An ascending sequence is the sorting of its elements, and of nothing else.
  lemma {:induction false} SortedUnique(q: seq<Id>, s: set<Id>)
    requires Ascending(q) && forall x :: x in q <==> x in s
    ensures q == Sorted(s)
    decreases |q|
  {
    if q == [] {
      assert s == {};
    } else {
      var rest := q[1..];
      assert q == [q[0]] + rest;
      assert Min(s) == q[0] by {
        assert q[0] in s;
        forall x | x in s ensures q[0] <= x {
          var i :| 0 <= i < |q| && q[i] == x;
        }
      }
      assert q[0] !in rest;
      assert forall x :: x in rest <==> x in s - {q[0]};
      SortedUnique(rest, s - {q[0]});
    }
  }

  // ----- The conflict graph

  predicate Adjacent(conflicts: Conflicts, a: Id, b: Id) {
    (a, b) in conflicts || (b, a) in conflicts
  }

  function Nodes(conflicts: Conflicts): set<Id> {
    (set e | e in conflicts :: e.0) + (set e | e in conflicts :: e.1)
  }

  predicate IsPath(conflicts: Conflicts, p: seq<Id>) {
    && p != [] && p[0] in Nodes(conflicts)
    && forall i :: 0 <= i < |p| - 1 ==> Adjacent(conflicts, p[i], p[i + 1])
  }

  ghost predicate Joined(conflicts: Conflicts, a: Id, b: Id) {
    exists p :: IsPath(conflicts, p) && p[0] == a && p[|p| - 1] == b
  }

  ghost function Component(conflicts: Conflicts, root: Id): set<Id> {
    set y | y in Nodes(conflicts) && Joined(conflicts, root, y)
  }

  lemma AdjacentNodes(conflicts: Conflicts, a: Id, b: Id)
    requires Adjacent(conflicts, a, b)
    ensures a in Nodes(conflicts) && b in Nodes(conflicts)
  {
    var e := if (a, b) in conflicts then (a, b) else (b, a);
    assert e in conflicts;
  }

  lemma JoinedSelf(conflicts: Conflicts, a: Id)
    requires a in Nodes(conflicts)
    ensures Joined(conflicts, a, a)
  {
    assert IsPath(conflicts, [a]);
  }

  lemma JoinedNodes(conflicts: Conflicts, a: Id, b: Id)
    requires Joined(conflicts, a, b)
    ensures a in Nodes(conflicts) && b in Nodes(conflicts)
  {
    var p :| IsPath(conflicts, p) && p[0] == a && p[|p| - 1] == b;
    if |p| > 1 {
      assert Adjacent(conflicts, p[|p| - 2], p[|p| - 2 + 1]);
      AdjacentNodes(conflicts, p[|p| - 2], b);
    }
  }

  lemma JoinedStep(conflicts: Conflicts, a: Id, b: Id, c: Id)
    requires Joined(conflicts, a, b) && Adjacent(conflicts, b, c)
    ensures Joined(conflicts, a, c)
  {
    var p :| IsPath(conflicts, p) && p[0] == a && p[|p| - 1] == b;
    assert IsPath(conflicts, p + [c]);
  }

  lemma {:induction false} JoinedBack(conflicts: Conflicts, p: seq<Id>)
    requires IsPath(conflicts, p)
    ensures Joined(conflicts, p[|p| - 1], p[0])
    decreases |p|
  {
    if |p| == 1 {
      JoinedSelf(conflicts, p[0]);
    } else {
      assert Adjacent(conflicts, p[0], p[0 + 1]);
      AdjacentNodes(conflicts, p[0], p[1]);
      assert forall i :: 0 <= i < |p[1..]| ==> p[1..][i] == p[i + 1];
      JoinedBack(conflicts, p[1..]);
      JoinedStep(conflicts, p[|p| - 1], p[1], p[0]);
    }
  }

  lemma JoinedSymmetric(conflicts: Conflicts, a: Id, b: Id)
    requires Joined(conflicts, a, b)
    ensures Joined(conflicts, b, a)
  {
    var p :| IsPath(conflicts, p) && p[0] == a && p[|p| - 1] == b;
    JoinedBack(conflicts, p);
  }

  lemma {:induction false} PathExtends(conflicts: Conflicts, a: Id, p: seq<Id>)
    requires IsPath(conflicts, p) && Joined(conflicts, a, p[0])
    ensures Joined(conflicts, a, p[|p| - 1])
    decreases |p|
  {
    if |p| > 1 {
      var q := p[..|p| - 1];
      PathExtends(conflicts, a, q);
      assert Adjacent(conflicts, p[|p| - 2], p[|p| - 2 + 1]);
      JoinedStep(conflicts, a, p[|p| - 2], p[|p| - 1]);
    }
  }

  lemma JoinedTransitive(conflicts: Conflicts, a: Id, b: Id, c: Id)
    requires Joined(conflicts, a, b) && Joined(conflicts, b, c)
    ensures Joined(conflicts, a, c)
  {
    var p :| IsPath(conflicts, p) && p[0] == b && p[|p| - 1] == c;
    PathExtends(conflicts, a, p);
  }

  // Two joined nodes have one component.
  lemma ComponentShared(conflicts: Conflicts, a: Id, b: Id)
    requires Joined(conflicts, a, b)
    ensures Component(conflicts, a) == Component(conflicts, b)
  {
    JoinedSymmetric(conflicts, a, b);
    forall y | y in Nodes(conflicts) ensures Joined(conflicts, a, y) <==> Joined(conflicts, b, y) {
      if Joined(conflicts, a, y) { JoinedTransitive(conflicts, b, a, y); }
      if Joined(conflicts, b, y) { JoinedTransitive(conflicts, a, b, y); }
    }
  }

  ghost predicate Closed(conflicts: Conflicts, seen: set<Id>) {
    forall x, y :: x in seen && Adjacent(conflicts, x, y) ==> y in seen
  }

  // A set that contains the root and every neighbour of its members contains
  // everything joined to the root.
  lemma {:induction false} ClosedCovers(conflicts: Conflicts, closed: set<Id>, p: seq<Id>)
    requires IsPath(conflicts, p) && p[0] in closed
    requires Closed(conflicts, closed)
    ensures p[|p| - 1] in closed
    decreases |p|
  {
    if |p| > 1 {
      ClosedCovers(conflicts, closed, p[..|p| - 1]);
      assert Adjacent(conflicts, p[|p| - 2], p[|p| - 2 + 1]);
    }
  }

  // ----- The components, by definition: one per node that is least in its own

  ghost predicate Leads(conflicts: Conflicts, x: Id) {
    x in Nodes(conflicts) && forall y :: y in Component(conflicts, x) ==> x <= y
  }

  ghost function Leaders(conflicts: Conflicts): set<Id> {
    set x | x in Nodes(conflicts) && Leads(conflicts, x)
  }

  ghost function ListOf(conflicts: Conflicts, roots: seq<Id>): seq<seq<Id>> {
    seq(|roots|, i requires 0 <= i < |roots| => Sorted(Component(conflicts, roots[i])))
  }

  ghost function Components(conflicts: Conflicts): seq<seq<Id>> {
    ListOf(conflicts, Sorted(Leaders(conflicts)))
  }

  // The least node joined to x leads the component of x.
  lemma LeaderOf(conflicts: Conflicts, x: Id) returns (root: Id)
    requires x in Nodes(conflicts)
    ensures Leads(conflicts, root) && Joined(conflicts, root, x) && Component(conflicts, root) == Component(conflicts, x)
  {
    JoinedSelf(conflicts, x);
    assert x in Component(conflicts, x);
    root := Min(Component(conflicts, x));
    ComponentShared(conflicts, x, root);
    JoinedSymmetric(conflicts, x, root);
  }

  // ----- The search

  // Some order of the members of a set: nothing depends on which.
  method AnyOrder(s: set<Id>) returns (q: seq<Id>)
    ensures forall x :: x in q <==> x in s
  {
    q := [];
    var rest := s;
    while rest != {}
      invariant rest <= s && forall x :: x in q <==> x in s - rest
      decreases rest
    {
      var x :| x in rest;
      q, rest := q + [x], rest - {x};
    }
  }

  // The neighbours of every node of a list of pairs.
  ghost predicate NeighboursOf(conflicts: Conflicts, adjacency: map<Id, set<Id>>) {
    && adjacency.Keys == Nodes(conflicts)
    && forall x :: x in adjacency ==> forall y :: y in adjacency[x] <==> Adjacent(conflicts, x, y)
  }

  function WithNeighbour(adjacency: map<Id, set<Id>>, a: Id, b: Id): map<Id, set<Id>> {
    adjacency[a := (if a in adjacency then adjacency[a] else {}) + {b}]
  }

  method BuildAdjacency(conflicts: Conflicts) returns (adjacency: map<Id, set<Id>>)
    ensures NeighboursOf(conflicts, adjacency)
  {
    hide NeighboursOf, WithNeighbour;
    adjacency := map[];
    NoNeighbours();
    for i := 0 to |conflicts|
      invariant NeighboursOf(conflicts[..i], adjacency)
    {
      var (a, b) := conflicts[i];
      assert conflicts[..i + 1] == conflicts[..i] + [(a, b)];
      PairAdded(conflicts[..i], adjacency, a, b);
      adjacency := WithNeighbour(WithNeighbour(adjacency, a, b), b, a);
    }
    assert conflicts[..|conflicts|] == conflicts;
  }

  lemma NoNeighbours()
    ensures NeighboursOf([], map[])
  {
  }

  lemma PairAdded(conflicts: Conflicts, adjacency: map<Id, set<Id>>, a: Id, b: Id)
    requires NeighboursOf(conflicts, adjacency)
    ensures NeighboursOf(conflicts + [(a, b)], WithNeighbour(WithNeighbour(adjacency, a, b), b, a))
  {
    NodesSnoc(conflicts, (a, b));
    var after := WithNeighbour(WithNeighbour(adjacency, a, b), b, a);
    forall x, y | x in after ensures y in after[x] <==> Adjacent(conflicts + [(a, b)], x, y) {
      AdjacentSnoc(conflicts, a, b, x, y);
      if Adjacent(conflicts, x, y) { AdjacentNodes(conflicts, x, y); }
    }
  }

  lemma AdjacentSnoc(conflicts: Conflicts, a: Id, b: Id, x: Id, y: Id)
    ensures Adjacent(conflicts + [(a, b)], x, y) <==> Adjacent(conflicts, x, y) || (x, y) == (a, b) || (y, x) == (a, b)
  {
    assert (a, b) in conflicts + [(a, b)];
  }

  lemma NodesSnoc(conflicts: Conflicts, e: (Id, Id))
    ensures Nodes(conflicts + [e]) == Nodes(conflicts) + {e.0, e.1}
  {
    assert forall c :: c in conflicts + [e] <==> c in conflicts || c == e;
    assert e in conflicts + [e];
  }

  // The depth-first collection of one component.
  method Collect(conflicts: Conflicts, adjacency: map<Id, set<Id>>, root: Id, seen: set<Id>)
    returns (component: set<Id>, seen': set<Id>)
    requires NeighboursOf(conflicts, adjacency)
    requires root in Nodes(conflicts) && root !in seen
    requires Closed(conflicts, seen)
    ensures component == Component(conflicts, root)
    ensures seen' == seen + component && component !! seen && Closed(conflicts, seen')
  {
    var stack := [root];
    component, seen' := {}, seen;
    JoinedSelf(conflicts, root);
    while stack != []
      invariant seen' == seen + component && component !! seen
      invariant component <= Component(conflicts, root)
      invariant forall x :: x in stack ==> Joined(conflicts, root, x)
      invariant root in component || root in stack
      invariant forall x, y :: x in component && Adjacent(conflicts, x, y) ==> y in seen' || y in stack
      decreases Nodes(conflicts) - seen', |stack|
    {
      var node := stack[|stack| - 1];
      ghost var before := stack;
      stack := stack[..|stack| - 1];
      assert before == stack + [node];
      JoinedNodes(conflicts, root, node);
      if node !in seen' {
        seen', component := seen' + {node}, component + {node};
        var next := AnyOrder(adjacency[node]);
        forall x | x in next ensures Joined(conflicts, root, x) {
          JoinedStep(conflicts, root, node, x);
        }
        stack := stack + next;
      }
    }
    forall x, y | x in component && Adjacent(conflicts, x, y) ensures y in component {
      assert Adjacent(conflicts, y, x);
    }
    forall y | y in Component(conflicts, root) ensures y in component {
      var p :| IsPath(conflicts, p) && p[0] == root && p[|p| - 1] == y;
      ClosedCovers(conflicts, component, p);
    }
  }

  // The nodes seen once the search has passed the first nodes of the sorted list:
  // everything joined to one of them.
  ghost predicate SeenAre(conflicts: Conflicts, seen: set<Id>, passed: seq<Id>) {
    forall x :: x in seen <==> exists r :: r in passed && x in Component(conflicts, r)
  }

  // The loop's own bookkeeping: the roots found so far, among the nodes passed.
  ghost predicate RootsAre(conflicts: Conflicts, roots: seq<Id>, passed: seq<Id>) {
    Ascending(roots) && forall x :: x in roots <==> x in passed && Leads(conflicts, x)
  }

  method ConflictComponents(conflicts: Conflicts) returns (components: seq<seq<Id>>)
    ensures components == Components(conflicts)
  {
    hide Component, Leads, ListOf, SeenAre, RootsAre, Leaders, Ascending, Nodes, Sorted, Components;
    var adjacency := BuildAdjacency(conflicts);
    var order := Sorted(adjacency.Keys);
    components := [];
    var seen: set<Id> := {};
    ghost var roots: seq<Id> := [];
    NothingPassed(conflicts);
    for i := 0 to |order|
      invariant components == ListOf(conflicts, roots)
      invariant RootsAre(conflicts, roots, order[..i])
      invariant SeenAre(conflicts, seen, order[..i]) && Closed(conflicts, seen)
    {
      var root := order[i];
      assert order[..i + 1] == order[..i] + [root];
      RootLeads(conflicts, order, i, seen);
      if root !in seen {
        var component, seen' := Collect(conflicts, adjacency, root, seen);
        SeenMore(conflicts, order[..i], root, seen);
        RootFound(conflicts, roots, order, i);
        components := components + [Sorted(component)];
        roots, seen := roots + [root], seen';
      } else {
        SeenAgain(conflicts, order[..i], root, seen);
        RootKnown(conflicts, roots, order, i);
      }
    }
    assert order[..|order|] == order;
    RootsAreLeaders(conflicts, roots, order);
    ComponentsAre(conflicts);
  }

  lemma NothingPassed(conflicts: Conflicts)
    ensures ListOf(conflicts, []) == [] && RootsAre(conflicts, [], []) && SeenAre(conflicts, {}, [])
  {
  }

  lemma RootFound(conflicts: Conflicts, roots: seq<Id>, order: seq<Id>, i: nat)
    requires i < |order| && Ascending(order) && RootsAre(conflicts, roots, order[..i]) && Leads(conflicts, order[i])
    ensures RootsAre(conflicts, roots + [order[i]], order[..i] + [order[i]])
    ensures ListOf(conflicts, roots + [order[i]]) == ListOf(conflicts, roots) + [Sorted(Component(conflicts, order[i]))]
  {
    var more := roots + [order[i]];
    forall k, l | 0 <= k < l < |more| ensures more[k] < more[l] {
      if l == |roots| { assert roots[k] in roots; }
    }
  }

  lemma RootKnown(conflicts: Conflicts, roots: seq<Id>, order: seq<Id>, i: nat)
    requires i < |order| && RootsAre(conflicts, roots, order[..i]) && !Leads(conflicts, order[i])
    ensures RootsAre(conflicts, roots, order[..i] + [order[i]])
  {
  }

  lemma RootsAreLeaders(conflicts: Conflicts, roots: seq<Id>, order: seq<Id>)
    requires RootsAre(conflicts, roots, order) && forall x :: x in order <==> x in Nodes(conflicts)
    ensures roots == Sorted(Leaders(conflicts))
  {
    SortedUnique(roots, Leaders(conflicts));
  }

  lemma ComponentsAre(conflicts: Conflicts)
    ensures Components(conflicts) == ListOf(conflicts, Sorted(Leaders(conflicts)))
  {
  }

  lemma SeenMore(conflicts: Conflicts, passed: seq<Id>, root: Id, seen: set<Id>)
    requires SeenAre(conflicts, seen, passed)
    ensures SeenAre(conflicts, seen + Component(conflicts, root), passed + [root])
  {
    forall x ensures x in seen + Component(conflicts, root) <==>
                     exists r :: r in passed + [root] && x in Component(conflicts, r)
    {
      if x in seen {
        var r :| r in passed && x in Component(conflicts, r);
        assert r in passed + [root];
      }
      if x in Component(conflicts, root) {
        assert root in passed + [root];
      }
    }
  }

  // In ascending order, the first node of a component to come up is its least.
  lemma RootLeads(conflicts: Conflicts, order: seq<Id>, i: nat, seen: set<Id>)
    requires i < |order| && Ascending(order) && forall x :: x in order <==> x in Nodes(conflicts)
    requires SeenAre(conflicts, seen, order[..i])
    ensures order[i] !in seen <==> Leads(conflicts, order[i])
  {
    var root := order[i];
    assert root in order;
    JoinedSelf(conflicts, root);
    if root in seen {
      var r :| r in order[..i] && root in Component(conflicts, r);
      JoinedSymmetric(conflicts, r, root);
      assert r in Nodes(conflicts) by { assert r in order; }
      assert r in Component(conflicts, root) && r < root;
    } else {
      forall y | y in Component(conflicts, root) ensures root <= y {
        assert y in order;
        if y < root {
          assert y in order[..i];
          JoinedSymmetric(conflicts, root, y);
        }
      }
    }
  }

  lemma SeenAgain(conflicts: Conflicts, passed: seq<Id>, root: Id, seen: set<Id>)
    requires SeenAre(conflicts, seen, passed) && root in seen
    ensures SeenAre(conflicts, seen, passed + [root])
  {
    var r :| r in passed && root in Component(conflicts, r);
    ComponentShared(conflicts, r, root);
  }

  // ----- What the components are

  // Every conflicting candidate is in exactly one component, listed in ascending
  // order, and shares it with exactly the candidates a conflict path joins it to.
  lemma ComponentsPartition(conflicts: Conflicts, x: Id)
    requires x in Nodes(conflicts)
    ensures exists i :: && 0 <= i < |Components(conflicts)| && x in Components(conflicts)[i]
                        && forall k :: 0 <= k < |Components(conflicts)| && x in Components(conflicts)[k] ==> k == i
  {
    var roots := Sorted(Leaders(conflicts));
    var root := LeaderOf(conflicts, x);
    JoinedSelf(conflicts, x);
    assert root in roots;
    var i :| 0 <= i < |roots| && roots[i] == root;
    assert x in Components(conflicts)[i];
    forall k | 0 <= k < |roots| && x in Components(conflicts)[k] ensures k == i {
      assert roots[k] in roots;
      SameLeader(conflicts, roots[i], roots[k], x);
    }
  }

  lemma SameLeader(conflicts: Conflicts, a: Id, b: Id, x: Id)
    requires Leads(conflicts, a) && Leads(conflicts, b)
    requires x in Component(conflicts, a) && x in Component(conflicts, b)
    ensures a == b
  {
    JoinedSymmetric(conflicts, a, x);
    JoinedSymmetric(conflicts, b, x);
    JoinedTransitive(conflicts, a, x, b);
    JoinedTransitive(conflicts, b, x, a);
    assert a in Component(conflicts, b) && b in Component(conflicts, a);
  }

  lemma ComponentMembers(conflicts: Conflicts, i: nat, x: Id, y: Id)
    requires i < |Components(conflicts)| && x in Components(conflicts)[i]
    ensures x in Nodes(conflicts) && Ascending(Components(conflicts)[i])
    ensures y in Components(conflicts)[i] <==> Joined(conflicts, x, y)
  {
    var root := Sorted(Leaders(conflicts))[i];
    assert root in Sorted(Leaders(conflicts));
    ComponentShared(conflicts, root, x);
    if Joined(conflicts, x, y) {
      JoinedNodes(conflicts, x, y);
    }
  }

  // Only which pairs conflict matters: neither the order of the pairs, nor the
  // order inside a pair, nor repetition.
  lemma ComponentsOfGraph(a: Conflicts, b: Conflicts)
    requires forall x, y :: Adjacent(a, x, y) <==> Adjacent(b, x, y)
    ensures Nodes(a) == Nodes(b) && Components(a) == Components(b)
  {
    forall x ensures x in Nodes(a) <==> x in Nodes(b) {
      NodeHasEdge(a, x);
      NodeHasEdge(b, x);
    }
    assert forall p :: IsPath(a, p) <==> IsPath(b, p);
    assert forall x, y :: Joined(a, x, y) <==> Joined(b, x, y);
    forall x ensures Component(a, x) == Component(b, x) {
    }
    assert Leaders(a) == Leaders(b);
  }

  lemma NodeHasEdge(conflicts: Conflicts, x: Id)
    ensures x in Nodes(conflicts) <==> exists y :: Adjacent(conflicts, x, y)
  {
    if x in Nodes(conflicts) {
      var e :| e in conflicts && (e.0 == x || e.1 == x);
      assert Adjacent(conflicts, x, if e.0 == x then e.1 else e.0) by {
        assert e == (e.0, e.1);
      }
    }
    if y :| Adjacent(conflicts, x, y) {
      AdjacentNodes(conflicts, x, y);
    }
  }
}
