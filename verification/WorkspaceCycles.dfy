/** The workspace-cycle search of the architecture checker: a depth-first walk that reports each edge
    back into the current path. */
module WorkspaceCycles {
  import opened Prelude

  type Name = string

  /** Every dependency of a package is itself in the graph. */
  type Graph = g: map<Name, seq<Name>> | Closed(g)

  predicate Closed(g: map<Name, seq<Name>>) {
    forall u :: u in g ==> forall i :: 0 <= i < |g[u]| ==> g[u][i] in g
  }

  predicate Edge(g: Graph, u: Name, v: Name) { u in g && v in g[u] }

  /** A walk along edges that are not cut. */
  predicate Walk(g: Graph, cut: set<(Name, Name)>, p: seq<Name>) {
    forall i :: 0 <= i < |p| - 1 ==> Edge(g, p[i], p[i + 1]) && (p[i], p[i + 1]) !in cut
  }

  predicate Cycle(g: Graph, cut: set<(Name, Name)>, p: seq<Name>) {
    |p| >= 2 && p[0] == p[|p| - 1] && Walk(g, cut, p)
  }

  ghost predicate Acyclic(g: Graph, cut: set<(Name, Name)>) {
    forall p :: !Cycle(g, cut, p)
  }

  /** Each element has its uncut dependencies before it. */
  ghost predicate DependenciesFirst(g: Graph, cut: set<(Name, Name)>, order: seq<Name>) {
    forall i, v :: 0 <= i < |order| && Edge(g, order[i], v) && (order[i], v) !in cut ==> v in order[..i]
  }

  ghost predicate TopologicalOrder(g: Graph, cut: set<(Name, Name)>, order: seq<Name>) {
    Distinct(order) && (forall x :: x in order <==> x in g) && DependenciesFirst(g, cut, order)
  }

  lemma PlaceBefore(order: seq<Name>, i: nat, v: Name)
    requires Distinct(order) && i < |order| && v in order[..i]
    ensures v in order && IndexOf(order, v) < i
  {
    var k :| 0 <= k < i && order[k] == v;
    var place := IndexOf(order, v);
    assert order[place] == order[k];
  }

  lemma FinishedLast(g: Graph, cut: set<(Name, Name)>, order: seq<Name>, name: Name)
    requires DependenciesFirst(g, cut, order) && name in g
    requires forall k :: 0 <= k < |g[name]| ==> g[name][k] in order || (name, g[name][k]) in cut
    ensures DependenciesFirst(g, cut, order + [name])
  {
    var longer := order + [name];
    forall i, v | 0 <= i < |longer| && Edge(g, longer[i], v) && (longer[i], v) !in cut ensures v in longer[..i] {
      if i < |order| {
        assert longer[i] == order[i] && longer[..i] == order[..i];
      } else {
        assert longer[..i] == order;
      }
    }
  }

  /** Along a walk, places in a topological order fall. */
  lemma {:induction false} PlacesFall(g: Graph, cut: set<(Name, Name)>, order: seq<Name>, p: seq<Name>)
    requires TopologicalOrder(g, cut, order) && Walk(g, cut, p) && |p| >= 2
    ensures p[0] in order && p[|p| - 1] in order && IndexOf(order, p[|p| - 1]) < IndexOf(order, p[0])
    decreases |p|
  {
    assert Edge(g, p[0], p[0 + 1]);
    PlaceBefore(order, IndexOf(order, p[0]), p[1]);
    if |p| > 2 {
      forall i | 0 <= i < |p[1..]| - 1 ensures Edge(g, p[1..][i], p[1..][i + 1]) && (p[1..][i], p[1..][i + 1]) !in cut {
        assert Edge(g, p[i + 1], p[i + 1 + 1]);
      }
      PlacesFall(g, cut, order, p[1..]);
    }
  }

  lemma OrderMeansAcyclic(g: Graph, cut: set<(Name, Name)>, order: seq<Name>)
    requires TopologicalOrder(g, cut, order)
    ensures Acyclic(g, cut)
  {
    forall p ensures !Cycle(g, cut, p) {
      if Cycle(g, cut, p) { PlacesFall(g, cut, order, p); }
    }
  }

  /** The edge back that closes a reported list. */
  function ClosingEdge(cycle: seq<Name>): (Name, Name)
    requires |cycle| >= 2
  {
    (cycle[|cycle| - 2], cycle[|cycle| - 1])
  }

  function ClosingEdges(reports: seq<seq<Name>>): set<(Name, Name)> {
    set i | 0 <= i < |reports| && |reports[i]| >= 2 :: ClosingEdge(reports[i])
  }

  /** A reported list is a closed path of the graph that repeats nothing but its ends. */
  predicate IsReport(g: Graph, cycle: seq<Name>) {
    Cycle(g, {}, cycle) && Distinct(cycle[1..])
  }

  lemma CutGrows(g: Graph, reports: seq<seq<Name>>, more: seq<seq<Name>>)
    requires reports <= more
    ensures ClosingEdges(reports) <= ClosingEdges(more)
  {
    forall e | e in ClosingEdges(reports) ensures e in ClosingEdges(more) {
      var i :| 0 <= i < |reports| && |reports[i]| >= 2 && e == ClosingEdge(reports[i]);
      assert more[i] == reports[i];
    }
  }

  /** Taking the top off the stack takes it off the path. */
  lemma Unstack(below: seq<Name>, path: set<Name>, name: Name)
    requires Distinct(below + [name]) && name !in path
    requires forall x :: x in below + [name] <==> x in path + {name}
    ensures forall x :: x in below <==> x in path
  {
    var whole := below + [name];
    assert whole[|below|] == name && forall x :: x in whole <==> x in below || x == name;
    forall x | x in below ensures x != name {
      var i :| 0 <= i < |below| && below[i] == x;
      assert whole[i] == x;
    }
  }

  class CycleDetector {
    const graph: Graph
    var visiting: set<Name>
    var visited: set<Name>
    var stack: seq<Name>
    var violations: seq<seq<Name>>
    ghost var order: seq<Name> // as the visits finished

    constructor (graph: Graph)
      ensures this.graph == graph && Valid() && stack == [] && violations == [] && order == []
    {
      this.graph := graph;
      visiting, visited, stack, violations, order := {}, {}, [], [], [];
    }

    ghost predicate StackOk()
      reads this
    {
      && Distinct(stack) && (forall x :: x in stack <==> x in visiting)
      && visiting <= graph.Keys && Walk(graph, {}, stack)
    }

    ghost predicate OrderOk()
      reads this
    {
      && Distinct(order) && (forall x :: x in order <==> x in visited)
      && visited <= graph.Keys && DependenciesFirst(graph, ClosingEdges(violations), order)
    }

    ghost predicate Valid()
      reads this
    {
      && StackOk() && OrderOk() && visiting !! visited
      && forall i :: 0 <= i < |violations| ==> IsReport(graph, violations[i])
    }

    /** A visit goes down an edge of the current path, or starts one. */
    predicate Reached(name: Name)
      reads this
    {
      name in graph && (stack != [] ==> Edge(graph, stack[|stack| - 1], name))
    }

    /** The edge down to `name` is settled: its end is finished, or it closes a reported cycle. */
    predicate Settled(from: seq<Name>, name: Name)
      reads this
    {
      name in visited || (from != [] && (from[|from| - 1], name) in ClosingEdges(violations))
    }

    /** Reports the cycle closed by an edge from the top of the stack to `name` on it. */
    method Report(name: Name)
      requires Valid() && Reached(name) && name in visiting
      modifies this`violations
      ensures Valid() && old(violations) <= violations && Settled(stack, name)
    {
      var cycleStart := IndexOf(stack, name);
      var cycle := stack[cycleStart..] + [name];
      assert IsReport(graph, cycle);
      violations := violations + [cycle];
      CutGrows(graph, old(violations), violations);
      assert violations[|old(violations)|] == cycle && ClosingEdge(cycle) == (stack[|stack| - 1], name);
    }

    /** Packages not met yet. */
    ghost function Left(): set<Name>
      reads this
    {
      graph.Keys - visiting - visited
    }

    /** `visit`. It terminates: each call that goes deeper leaves one package less in `left`. */
    method Visit(name: Name, ghost left: set<Name>)
      requires Valid() && Reached(name) && Left() <= left
      modifies this
      ensures Valid() && stack == old(stack) && visiting == old(visiting)
      ensures old(visited) <= visited && old(violations) <= violations && Settled(stack, name)
      decreases |left|, 2
    {
      if name in visiting {
        Report(name);
        return;
      }
      if name in visited {
        return;
      }
      Descend(name, left);
    }

    method Descend(name: Name, ghost left: set<Name>)
      requires Valid() && Reached(name) && name !in visiting && name !in visited && Left() <= left
      modifies this
      ensures Valid() && stack == old(stack) && visiting == old(visiting)
      ensures old(visited) <= visited && old(violations) <= violations && name in visited
      decreases |left|, 1
    {
      Enter(name, left);
      Pop(name, old(stack), old(visiting));
    }

    /** Puts the package on the path and visits what it depends on. */
    method Enter(name: Name, ghost left: set<Name>)
      requires Valid() && Reached(name) && name !in visiting && name !in visited && Left() <= left
      modifies this
      ensures Valid() && stack == old(stack) + [name] && visiting == old(visiting) + {name}
      ensures old(visited) <= visited && old(violations) <= violations
      ensures forall k :: 0 <= k < |graph[name]| ==> Settled(stack, graph[name][k])
      decreases |left|, 0
    {
      Push(name);
      VisitDependencies(name, left - {name});
    }

    method VisitDependencies(name: Name, ghost left: set<Name>)
      requires Valid() && stack != [] && stack[|stack| - 1] == name && name in graph && Left() <= left
      modifies this
      ensures Valid() && stack == old(stack) && visiting == old(visiting)
      ensures old(visited) <= visited && old(violations) <= violations
      ensures forall k :: 0 <= k < |graph[name]| ==> Settled(stack, graph[name][k])
      decreases |left|, 3
    {
      var dependencies := graph[name];
      for i := 0 to |dependencies|
        invariant Valid() && stack == old(stack) && visiting == old(visiting)
        invariant old(visited) <= visited && old(violations) <= violations
        invariant forall k :: 0 <= k < i ==> Settled(stack, dependencies[k])
      {
        ghost var reports := violations;
        Visit(dependencies[i], left);
        CutGrows(graph, reports, violations);
      }
    }

    method Push(name: Name)
      requires Valid() && Reached(name) && name !in visiting && name !in visited
      modifies this`visiting, this`stack
      ensures Valid() && stack == old(stack) + [name] && visiting == old(visiting) + {name}
    {
      visiting := visiting + {name};
      stack := stack + [name];
    }

    method Pop(name: Name, ghost below: seq<Name>, ghost path: set<Name>)
      requires Valid() && stack == below + [name] && visiting == path + {name} && name !in path && name in graph
      requires forall k :: 0 <= k < |graph[name]| ==> Settled(stack, graph[name][k])
      modifies this`visiting, this`stack, this`visited, this`order
      ensures Valid() && stack == below && visiting == path
      ensures visited == old(visited) + {name}
    {
      FinishedLast(graph, ClosingEdges(violations), order, name);
      stack := stack[..|stack| - 1];
      assert stack == below;
      visiting := visiting - {name};
      assert visiting == path;
      Unstack(below, path, name);
      visited := visited + {name};
      order := order + [name];
    }

    /** The search over all packages: it reports only real cycles, cutting the closing edge of each
        leaves a graph with a topological order, and it reports nothing exactly when there is no cycle. */
    method Check(names: seq<Name>)
      requires Valid() && stack == [] && violations == [] && forall x :: x in names <==> x in graph
      modifies this
      ensures forall i :: 0 <= i < |violations| ==> IsReport(graph, violations[i])
      ensures TopologicalOrder(graph, ClosingEdges(violations), order)
      ensures Acyclic(graph, ClosingEdges(violations))
      ensures violations == [] <==> Acyclic(graph, {})
    {
      for i := 0 to |names|
        invariant Valid() && stack == []
        invariant forall k :: 0 <= k < i ==> names[k] in visited
      {
        Visit(names[i], graph.Keys);
      }
      assert forall x :: x in order <==> x in graph;
      OrderMeansAcyclic(graph, ClosingEdges(violations), order);
      if violations == [] {
        assert ClosingEdges(violations) == {};
      } else {
        assert Cycle(graph, {}, violations[0]);
      }
    }
  }
}
