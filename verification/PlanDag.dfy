/** The Butler plan validator: Kahn's algorithm over step dependencies, for any number of steps. */
module PlanDag {
  import opened Prelude
  import opened Text

  datatype PlanStep = PlanStep(id: string, dependsOn: seq<string>)

  datatype PlanError = DuplicateIds | UnknownDependency | Cyclic

  /** Each step with the set of steps it depends on. */
  type Graph = map<string, set<string>>

  function IdsOf(steps: seq<PlanStep>): seq<string> {
    seq(|steps|, i requires 0 <= i < |steps| => steps[i].id)
  }

  predicate AllKnown(steps: seq<PlanStep>) {
    forall i, d :: 0 <= i < |steps| && d in steps[i].dependsOn ==> d in IdsOf(steps)
  }

  /** The dependency dictionary; a later entry would replace an earlier one with the same id. */
  function Dependencies(steps: seq<PlanStep>): Graph {
    if steps == [] then map[]
    else
      var last := steps[|steps| - 1];
      Dependencies(steps[..|steps| - 1])[last.id := Elements(last.dependsOn)]
  }

  predicate Closed(g: Graph) {
    forall x :: x in g ==> g[x] <= g.Keys
  }

  lemma {:induction false} DependenciesEntries(steps: seq<PlanStep>)
    ensures Dependencies(steps).Keys == Elements(IdsOf(steps))
    ensures Distinct(IdsOf(steps)) ==> forall i :: 0 <= i < |steps| ==>
              steps[i].id in Dependencies(steps) && Dependencies(steps)[steps[i].id] == Elements(steps[i].dependsOn)
  {
    if steps != [] {
      var n := |steps| - 1;
      DependenciesEntries(steps[..n]);
      assert IdsOf(steps) == IdsOf(steps[..n]) + [steps[n].id];
      assert IdsOf(steps[..n]) == IdsOf(steps)[..n];
      forall i | 0 <= i < |steps| && Distinct(IdsOf(steps))
        ensures steps[i].id in Dependencies(steps)
        ensures Dependencies(steps)[steps[i].id] == Elements(steps[i].dependsOn)
      {
        if i < n {
          assert Distinct(IdsOf(steps[..n]));
          assert IdsOf(steps)[i] != IdsOf(steps)[n];
          assert steps[..n][i] == steps[i];
        }
      }
    }
  }

  lemma ClosedIffKnown(steps: seq<PlanStep>)
    requires Distinct(IdsOf(steps))
    ensures Closed(Dependencies(steps)) <==> AllKnown(steps)
  {
    var g := Dependencies(steps);
    DependenciesEntries(steps);
    if Closed(g) {
      forall i, d | 0 <= i < |steps| && d in steps[i].dependsOn ensures d in IdsOf(steps) {
        assert d in g[steps[i].id];
      }
    }
    if AllKnown(steps) {
      forall x | x in g ensures g[x] <= g.Keys {
        var i :| 0 <= i < |IdsOf(steps)| && IdsOf(steps)[i] == x;
        assert g[x] == Elements(steps[i].dependsOn);
      }
    }
  }

  // ---------------------------------------------------------------- cycles and orders

  /** A walk along dependencies that returns to its first step. */
  ghost predicate Cycle(g: Graph, path: seq<string>) {
    && |path| >= 2
    && path[0] == path[|path| - 1]
    && forall i :: 0 <= i < |path| - 1 ==> path[i] in g && path[i + 1] in g[path[i]]
  }

  ghost predicate Acyclic(g: Graph) {
    forall path :: !Cycle(g, path)
  }

  /** Every step once, each after all the steps it depends on. */
  ghost predicate TopologicalOrder(g: Graph, order: seq<string>) {
    && Distinct(order)
    && Elements(order) == g.Keys
    && forall i :: 0 <= i < |order| ==> g[order[i]] <= Elements(order[..i])
  }

  lemma EarlierIndex(order: seq<string>, i: nat, x: string) returns (j: nat)
    requires i <= |order| && x in Elements(order[..i])
    ensures j < i && order[j] == x
  {
    j :| 0 <= j < i && order[..i][j] == x;
  }

  lemma {:induction false} WalkGoesBack(g: Graph, order: seq<string>, path: seq<string>, i: nat) returns (p: nat, q: nat)
    requires TopologicalOrder(g, order)
    requires 1 <= i < |path| && forall k :: 0 <= k < |path| - 1 ==> path[k] in g && path[k + 1] in g[path[k]]
    ensures q < p < |order| && order[p] == path[0] && order[q] == path[i]
  {
    if i == 1 {
      assert path[0] in Elements(order);
      p :| 0 <= p < |order| && order[p] == path[0];
      q := EarlierIndex(order, p, path[1]);
    } else {
      var r;
      p, r := WalkGoesBack(g, order, path, i - 1);
      assert path[(i - 1) + 1] in g[path[i - 1]];
      q := EarlierIndex(order, r, path[i]);
    }
  }

  /** An ordered graph has no cycle: walking along dependencies only goes back in the order. */
  lemma OrderedIsAcyclic(g: Graph, order: seq<string>)
    requires TopologicalOrder(g, order)
    ensures Acyclic(g)
  {
    forall path | Cycle(g, path)
      ensures false
    {
      var p, q := WalkGoesBack(g, order, path, |path| - 1);
    }
  }

  /** A non-empty set of steps each of which depends on another one of the set. */
  ghost predicate Stuck(g: Graph, u: set<string>) {
    u != {} && u <= g.Keys && forall x :: x in u ==> g[x] * u != {}
  }

  lemma {:induction false} WalkInside(g: Graph, u: set<string>, n: nat) returns (path: seq<string>)
    requires Stuck(g, u) && n >= 1
    ensures |path| == n && Elements(path) <= u
    ensures forall i :: 0 <= i < n - 1 ==> path[i] in g && path[i + 1] in g[path[i]]
  {
    if n == 1 {
      var x :| x in u;
      path := [x];
    } else {
      var front := WalkInside(g, u, n - 1);
      var last := front[n - 2];
      assert last in Elements(front);
      var next :| next in g[last] * u;
      path := front + [next];
    }
  }

  lemma {:induction false} DistinctFits(s: seq<string>, u: set<string>)
    requires Distinct(s) && Elements(s) <= u
    ensures |s| <= |u|
  {
    if s != [] {
      var x := s[|s| - 1];
      var front := s[..|s| - 1];
      assert Elements(front) <= u - {x} by {
        forall y | y in Elements(front) ensures y in u - {x} {
          var i :| 0 <= i < |front| && front[i] == y;
          assert s[i] == y && y in Elements(s);
        }
      }
      assert x in Elements(s);
      DistinctFits(front, u - {x});
    }
  }

  /** Such a set contains a cycle: a walk longer than the set meets some step twice. */
  lemma StuckHasCycle(g: Graph, u: set<string>)
    requires Stuck(g, u)
    ensures !Acyclic(g)
  {
    var path := WalkInside(g, u, |u| + 1);
    if Distinct(path) {
      DistinctFits(path, u);
    }
    var i, j :| 0 <= i < j < |path| && path[i] == path[j];
    var loop := path[i..j + 1];
    forall k | 0 <= k < |loop| - 1
      ensures loop[k] in g && loop[k + 1] in g[loop[k]]
    {
      assert path[(i + k) + 1] in g[path[i + k]];
    }
    assert Cycle(g, loop);
  }

  // ---------------------------------------------------------------- Kahn's algorithm

  /** Steps not visited yet whose dependencies all are. */
  function Ready(g: Graph, visited: set<string>): set<string> {
    set x | x in g && x !in visited && g[x] <= visited
  }

  /** A visit sequence that only ever picks ready steps. */
  ghost predicate Visits(g: Graph, order: seq<string>) {
    forall i :: 0 <= i < |order| ==> order[i] in Ready(g, Elements(order[..i]))
  }

  lemma VisitsDistinct(g: Graph, order: seq<string>)
    requires Visits(g, order)
    ensures Distinct(order) && Elements(order) <= g.Keys
  {
    forall i, j | 0 <= i < j < |order| ensures order[i] != order[j] {
      assert order[j] !in Elements(order[..j]);
      assert order[..j][i] == order[i];
    }
  }

  /** When nothing is ready any more, everything was visited exactly if there is no cycle. */
  lemma FinishedVisit(g: Graph, order: seq<string>)
    requires Closed(g) && Visits(g, order) && Ready(g, Elements(order)) == {}
    ensures Elements(order) == g.Keys ==> TopologicalOrder(g, order)
    ensures Elements(order) == g.Keys <==> Acyclic(g)
  {
    VisitsDistinct(g, order);
    if Elements(order) == g.Keys {
      assert forall i :: 0 <= i < |order| ==> order[i] in Ready(g, Elements(order[..i]));
      OrderedIsAcyclic(g, order);
    } else {
      var u := g.Keys - Elements(order);
      forall x | x in u ensures g[x] * u != {} {
        assert x !in Ready(g, Elements(order));
        var d :| d in g[x] && d !in Elements(order);
        assert d in g[x] * u;
      }
      StuckHasCycle(g, u);
    }
  }

  lemma VisitsInside(g: Graph, first: seq<string>, second: seq<string>, n: nat)
    requires Visits(g, first) && Ready(g, Elements(second)) == {} && n <= |first|
    ensures Elements(first[..n]) <= Elements(second)
  {
    if n > 0 {
      VisitsInside(g, first, second, n - 1);
      var x := first[n - 1];
      assert x in Ready(g, Elements(first[..n - 1]));
      assert x in Elements(second) || x in Ready(g, Elements(second));
      assert first[..n] == first[..n - 1] + [first[n - 1]];
    }
  }

  /** Whichever ready step is picked each time, the visited set, and so acceptance, is the same. */
  lemma PickDoesNotMatter(g: Graph, first: seq<string>, second: seq<string>)
    requires Visits(g, first) && Ready(g, Elements(first)) == {}
    requires Visits(g, second) && Ready(g, Elements(second)) == {}
    ensures Elements(first) == Elements(second)
  {
    VisitsInside(g, first, second, |first|);
    VisitsInside(g, second, first, |second|);
    assert first[..|first|] == first && second[..|second|] == second;
  }

  ghost predicate IsLeast(x: string, s: set<string>) {
    x in s && forall y :: y in s && y != x ==> StringLess(x, y)
  }

  /** min(ready) */
  method Least(s: set<string>) returns (x: string)
    requires s != {}
    ensures IsLeast(x, s)
  {
    x :| x in s;
    var left := s - {x};
    while left != {}
      invariant x in s && left <= s && x !in left
      invariant forall y :: y in s && y !in left && y != x ==> StringLess(x, y)
      decreases left
    {
      var y :| y in left;
      StringTrichotomy(x, y);
      left := left - {y};
      if StringLess(y, x) {
        forall z | z in s && z !in left && z != y ensures StringLess(y, z) {
          if z != x { StringTransitive(y, x, z); }
        }
        x := y;
      }
    }
  }

  /** Each visit took the least ready step. */
  ghost predicate LeastFirst(g: Graph, order: seq<string>) {
    forall i :: 0 <= i < |order| ==> IsLeast(order[i], Ready(g, Elements(order[..i])))
  }

  lemma VisitStep(g: Graph, order: seq<string>, current: string)
    requires Visits(g, order) && LeastFirst(g, order) && IsLeast(current, Ready(g, Elements(order)))
    ensures var longer := order + [current];
            && Visits(g, longer) && LeastFirst(g, longer) && Elements(longer) == Elements(order) + {current}
            && Ready(g, Elements(longer)) == Ready(g, Elements(order)) - {current}
                                            + set x | x in g && x !in Elements(longer) && g[x] <= Elements(longer)
  {
    var longer := order + [current];
    assert forall i :: 0 <= i <= |order| ==> longer[..i] == order[..i];
    assert order[..|order|] == order;
  }

  /** Accepts exactly the plans with unique ids, known dependencies and no cycle. On acceptance the
      visit sequence is a topological order, and each visit took the least ready step. */
  method ValidateDag(steps: seq<PlanStep>) returns (r: Result<(), PlanError>, ghost order: seq<string>)
    ensures r.Ok? <==> Distinct(IdsOf(steps)) && AllKnown(steps) && Acyclic(Dependencies(steps))
    ensures r == Err(DuplicateIds) <==> !Distinct(IdsOf(steps))
    ensures r == Err(UnknownDependency) <==> Distinct(IdsOf(steps)) && !AllKnown(steps)
    ensures r.Ok? ==> TopologicalOrder(Dependencies(steps), order)
    ensures r.Ok? ==> LeastFirst(Dependencies(steps), order)
  {
    order := [];
    var ids := IdsOf(steps);
    var known := Elements(ids);
    SizeOfElements(ids);
    if |ids| != |known| { return Err(DuplicateIds), order; }
    if exists i, d | 0 <= i < |steps| && d in steps[i].dependsOn :: d !in known {
      return Err(UnknownDependency), order;
    }
    var dependencies := Dependencies(steps);
    DependenciesEntries(steps);
    ClosedIffKnown(steps);
    var ready := set x | x in dependencies && dependencies[x] == {};
    var visited: set<string> := {};
    while ready != {}
      invariant visited == Elements(order) && visited <= known
      invariant ready == Ready(dependencies, visited)
      invariant Visits(dependencies, order) && LeastFirst(dependencies, order)
      decreases known - visited
    {
      var current := Least(ready);
      VisitStep(dependencies, order, current);
      ready := ready - {current};
      visited := visited + {current};
      order := order + [current];
      ready := ready + set x | x in dependencies && x !in visited && dependencies[x] <= visited;
    }
    FinishedVisit(dependencies, order);
    if visited != known { return Err(Cyclic), order; }
    return Ok(()), order;
  }

  lemma {:induction false} SizeOfElements(s: seq<string>)
    ensures |Elements(s)| <= |s|
    ensures |Elements(s)| == |s| <==> Distinct(s)
  {
    if s != [] {
      var front, x := s[..|s| - 1], s[|s| - 1];
      SizeOfElements(front);
      assert s == front + [x];
      if x in front {
        assert Elements(s) == Elements(front);
        var i :| 0 <= i < |front| && front[i] == x;
        assert s[i] == s[|s| - 1];
      } else {
        assert Elements(s) == Elements(front) + {x};
        if Distinct(front) {
          forall i, j | 0 <= i < j < |s| ensures s[i] != s[j] {
            if j == |s| - 1 { assert front[i] == s[i]; }
          }
        }
        if Distinct(s) {
          assert forall i, j :: 0 <= i < j < |front| ==> front[i] == s[i] && front[j] == s[j];
        }
      }
    }
  }
}
