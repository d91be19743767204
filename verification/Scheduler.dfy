/** `Pipeline.add_node` and `Pipeline.build_graph`: a depth-first topological sort over
    the registered stages, driven by two mutable sets and an output list. */
module Scheduler {

  /** How `build_graph` ends: normally, or with one of its two exceptions. */
  datatype BuildResult<N> = Built | Cyclic(name: N) | Missing(name: N)

  /** Each element depends directly on the next one. */
  ghost predicate Chain<N>(deps: map<N, seq<N>>, path: seq<N>) {
    forall j :: 0 <= j < |path| - 1 ==> path[j] in deps && path[j + 1] in deps[path[j]]
  }

  ghost predicate OnCycle<N(!new)>(deps: map<N, seq<N>>, n: N) {
    exists path :: Chain(deps, path) && |path| > 1 && path[0] == n == path[|path| - 1]
  }

  ghost predicate DependsOn<N(!new)>(deps: map<N, seq<N>>, n: N, d: N) {
    exists path :: Chain(deps, path) && |path| > 1 && path[0] == n && path[|path| - 1] == d
  }

  ghost predicate Acyclic<N(!new)>(deps: map<N, seq<N>>) {
    forall n :: !OnCycle(deps, n)
  }

  ghost predicate Closed<N>(deps: map<N, seq<N>>) {
    forall n, d :: n in deps && d in deps[n] ==> d in deps
  }

  ghost predicate NoRepeats<N>(s: seq<N>) {
    forall j, k :: 0 <= j < k < |s| ==> s[j] != s[k]
  }

  ghost predicate Within<N>(s: seq<N>, seen: set<N>) {
    forall d <- s :: d in seen
  }

  ghost predicate ReadyAt<N>(deps: map<N, seq<N>>, order: seq<N>, k: nat)
    requires k < |order|
  {
    order[k] in deps && forall d <- deps[order[k]] :: d in order[..k]
  }

  /** Every stage comes after each of its direct dependencies. */
  ghost predicate Topological<N>(deps: map<N, seq<N>>, order: seq<N>) {
    forall k :: 0 <= k < |order| ==> ReadyAt(deps, order, k)
  }

  /** In a topological order the transitive dependencies of a stage precede it as well. */
  lemma {:induction false} ChainRunsBackwards<N(!new)>(deps: map<N, seq<N>>, order: seq<N>, path: seq<N>, k: nat)
    requires Topological(deps, order) && k < |order|
    requires Chain(deps, path) && |path| > 1 && path[0] == order[k]
    ensures path[|path| - 1] in order[..k]
    decreases |path|
  {
    assert ReadyAt(deps, order, k);
    var j :| 0 <= j < k && order[j] == path[1];
    if |path| > 2 {
      ChainRunsBackwards(deps, order, path[1..], j);
    }
  }

  lemma DependenciesComeFirst<N(!new)>(deps: map<N, seq<N>>, order: seq<N>, k: nat, d: N)
    requires Topological(deps, order) && k < |order| && DependsOn(deps, order[k], d)
    ensures d in order[..k]
  {
    var path :| Chain(deps, path) && |path| > 1 && path[0] == order[k] && path[|path| - 1] == d;
    ChainRunsBackwards(deps, order, path, k);
  }

  /** A graph whose nodes can be listed topologically without repeats has no cycle and no dangling dependency. */
  lemma OrderedIsAcyclic<N(!new)>(deps: map<N, seq<N>>, order: seq<N>)
    requires Topological(deps, order) && NoRepeats(order)
    requires forall n <- deps :: n in order
    ensures Acyclic(deps) && Closed(deps)
  {
    forall n ensures !OnCycle(deps, n) {
      if OnCycle(deps, n) {
        var path :| Chain(deps, path) && |path| > 1 && path[0] == n == path[|path| - 1];
        assert n in deps;
        var k :| 0 <= k < |order| && order[k] == n;
        ChainRunsBackwards(deps, order, path, k);
      }
    }
    forall n, d | n in deps && d in deps[n] ensures d in deps {
      var k :| 0 <= k < |order| && order[k] == n;
      assert ReadyAt(deps, order, k);
      var j :| 0 <= j < k && order[j] == d;
      assert ReadyAt(deps, order, j);
    }
  }

  lemma AppendReady<N>(deps: map<N, seq<N>>, order: seq<N>, n: N)
    requires Topological(deps, order) && n in deps && forall d <- deps[n] :: d in order
    ensures Topological(deps, order + [n])
  {
    var longer := order + [n];
    forall k | 0 <= k < |longer| ensures ReadyAt(deps, longer, k) {
      assert k < |order| ==> longer[..k] == order[..k] && ReadyAt(deps, order, k);
      assert longer[..|order|] == order;
    }
  }

  /** Registered stages with their dependency lists, in registration order (a Python
      dict keeps the position of a key that is assigned again). */
  class Pipeline<N(==, !new)> {
    var nodes: map<N, seq<N>>
    var registered: seq<N>
    var executionOrder: seq<N>
    var visited: set<N>
    var tempVisited: set<N>

    ghost predicate Valid()
      reads this
    {
      && NoRepeats(registered)
      && (forall n :: n in registered <==> n in nodes)
    }

    constructor ()
      ensures Valid() && nodes == map[] && registered == [] && executionOrder == []
    {
      nodes, registered, executionOrder, visited, tempVisited := map[], [], [], {}, {};
    }

    method AddNode(name: N, dependencies: seq<N>)
      requires Valid()
      modifies `nodes, `registered
      ensures Valid()
      ensures nodes == old(nodes)[name := dependencies]
      ensures registered == if name in old(nodes) then old(registered) else old(registered) + [name]
    {
      if name !in nodes {
        registered := registered + [name];
      }
      nodes := nodes[name := dependencies];
    }

    /** What holds of the three traversal variables between calls of `Visit`. */
    ghost predicate Traversing()
      reads this
    {
      && NoRepeats(executionOrder)
      && Topological(nodes, executionOrder)
      && (forall n :: n in executionOrder <==> n in visited)
      && visited !! tempVisited
      && tempVisited <= nodes.Keys
    }

    /** One call of the nested `visit`; `stack` lists the unfinished calls, outermost first. */
    method Visit(name: N, ghost stack: seq<N>) returns (r: BuildResult<N>)
      requires Traversing()
      requires Chain(nodes, stack + [name])
      requires forall n :: n in stack <==> n in tempVisited
      modifies `executionOrder, `visited, `tempVisited
      ensures r.Built? ==> Traversing() && name in visited && old(visited) <= visited
                           && tempVisited == old(tempVisited)
      ensures r.Cyclic? ==> OnCycle(nodes, r.name)
      ensures r.Missing? ==> r.name !in nodes && (r.name == name || exists n <- nodes :: r.name in nodes[n])
      ensures name in old(visited) ==> r.Built? && executionOrder == old(executionOrder) && visited == old(visited)
      ensures name !in old(visited + tempVisited) && name in nodes && Within(nodes[name], old(visited))
              ==> r.Built? && executionOrder == old(executionOrder) + [name] && visited == old(visited) + {name}
      decreases nodes.Keys - tempVisited
    {
      if name in tempVisited {
        ghost var j :| 0 <= j < |stack| && stack[j] == name;
        ghost var loop := (stack + [name])[j..];
        assert Chain(nodes, loop) && loop[0] == name == loop[|loop| - 1];
        return Cyclic(name);
      }
      if name !in visited {
        tempVisited := tempVisited + {name};
        if name !in nodes {
          return Missing(name);
        }
        var dependencies := nodes[name];
        for i := 0 to |dependencies|
          invariant Traversing() && old(visited) <= visited
          invariant tempVisited == old(tempVisited) + {name}
          invariant forall d <- dependencies[..i] :: d in visited
          invariant Within(dependencies, old(visited)) ==>
              executionOrder == old(executionOrder) && visited == old(visited)
        {
          assert Chain(nodes, stack + [name] + [dependencies[i]]);
          var inner := Visit(dependencies[i], stack + [name]);
          if !inner.Built? {
            return inner;
          }
        }
        tempVisited := tempVisited - {name};
        visited := visited + {name};
        AppendReady(nodes, executionOrder, name);
        executionOrder := executionOrder + [name];
        assert tempVisited == old(tempVisited);
      }
      return Built;
    }

    /** `build_graph` on a pipeline whose order is still empty: it succeeds exactly on closed
        acyclic graphs, its exceptions name a real culprit, and the order is a topological
        permutation of the stages, the registration order itself when that is topological. */
    method BuildGraph() returns (r: BuildResult<N>)
      requires Valid() && executionOrder == []
      modifies `executionOrder, `visited, `tempVisited
      ensures Valid()
      ensures r.Built? <==> Closed(nodes) && Acyclic(nodes)
      ensures r.Built? ==> NoRepeats(executionOrder) && (forall n :: n in executionOrder <==> n in nodes)
      ensures r.Built? ==> Topological(nodes, executionOrder)
      ensures r.Cyclic? ==> OnCycle(nodes, r.name)
      ensures r.Missing? ==> r.name !in nodes && exists n <- nodes :: r.name in nodes[n]
      ensures Topological(nodes, registered) ==> r.Built? && executionOrder == registered
    {
      visited, tempVisited := {}, {};
      for i := 0 to |registered|
        invariant Traversing() && tempVisited == {}
        invariant visited <= nodes.Keys
        invariant forall n <- registered[..i] :: n in visited
        invariant Topological(nodes, registered) ==> executionOrder == registered[..i]
      {
        assert registered[i] in registered;
        if Topological(nodes, registered) {
          assert ReadyAt(nodes, registered, i);
          assert Within(nodes[registered[i]], visited);
        }
        r := Visit(registered[i], []);
        if !r.Built? {
          return;
        }
        forall n | n in visited ensures n in nodes {
          var k :| 0 <= k < |executionOrder| && executionOrder[k] == n;
          assert ReadyAt(nodes, executionOrder, k);
        }
      }
      assert forall n <- nodes :: n in registered;
      OrderedIsAcyclic(nodes, executionOrder);
      r := Built;
    }
  }
}
