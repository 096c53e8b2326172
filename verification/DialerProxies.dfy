/** validateDialerProxies (config/utils.go): every dialer-proxy exists and no chain of them is circular. */
module DialerProxies {
  import opened Graph
  import opened Options

  datatype Verdict = Valid | NotFound(name: Name, dialer: Name) | Circular(name: Name)

  datatype Colour = OnPath | Finished

  ghost function ChainEdges(graph: map<Name, Name>): Edges {
    set n | n in graph :: (n, graph[n])
  }

  ghost function DialerEdges(proxies: map<Name, Option<Name>>): Edges {
    set n | n in proxies && proxies[n].Some? :: (n, proxies[n].value)
  }

  ghost predicate Dangling(proxies: map<Name, Option<Name>>, n: Name) {
    n in proxies && proxies[n].Some? && proxies[n].value !in proxies
  }

  /** A name has one successor, so whatever cycle it leads to its successor leads to as well. */
  lemma SuccessorToCycle(graph: map<Name, Name>, a: Name)
    requires ToCycle(ChainEdges(graph), a)
    ensures a in graph && ToCycle(ChainEdges(graph), graph[a])
  {
    var E := ChainEdges(graph);
    var c :| Reaches(E, a, c) && OnCycle(E, c);
    var p :| WalkBetween(E, p, a, c);
    var q :| |q| > 1 && WalkBetween(E, q, c, c);
    var r := if |p| > 1 then p else q;
    assert (r[0], r[1]) in E;
    WalkSlice(E, r, 1, |r|);
    assert WalkBetween(E, r[1..|r|], graph[a], c);
    assert Reaches(E, graph[a], c);
  }

  lemma {:induction false} PathNotToCycle(graph: map<Name, Name>, path: seq<Name>)
    requires Walk(ChainEdges(graph), path) && |path| > 0
    requires var last := path[|path| - 1]; last in graph ==> !ToCycle(ChainEdges(graph), graph[last])
    ensures forall n | n in path :: !ToCycle(ChainEdges(graph), n)
  {
    if |path| > 1 {
      var E := ChainEdges(graph);
      WalkSlice(E, path, 1, |path|);
      PathNotToCycle(graph, path[1..]);
      assert (path[0], path[1]) in E && path[1] in path[1..];
    }
    if ToCycle(ChainEdges(graph), path[0]) {
      SuccessorToCycle(graph, path[0]);
    }
  }

  lemma ClosedPathIsCycle(E: Edges, path: seq<Name>, current: Name)
    requires Walk(E, path) && |path| > 0 && current in path && (path[|path| - 1], current) in E
    ensures ToCycle(E, path[0])
  {
    var j :| 0 <= j < |path| && path[j] == current;
    WalkAppend(E, path, current);
    var loop := path + [current];
    WalkSlice(E, loop, j, |loop|);
    WalkSlice(E, loop, 0, j + 1);
    assert WalkBetween(E, loop[j..|loop|], current, current);
    assert WalkBetween(E, loop[0..j + 1], path[0], current);
    assert OnCycle(E, current) && Reaches(E, path[0], current);
  }

  /** What one walk knows: earlier walks are finished, its own names form the path. */
  ghost predicate Colouring(graph: map<Name, Name>, proxies: set<Name>, state: map<Name, Colour>, path: seq<Name>) {
    && state.Keys <= proxies
    && (forall n | n in path :: n in state)
    && (forall n | n in state :: state[n].OnPath? <==> n in path)
    && (forall n | n in state && state[n].Finished? :: !ToCycle(ChainEdges(graph), n))
    && Walk(ChainEdges(graph), path)
  }

  /** `coloured` counts how often a name is put on a path. */
  method ValidateDialerProxies(proxies: map<Name, Option<Name>>) returns (r: Verdict, ghost coloured: nat)
    ensures r.NotFound? <==> exists n :: Dangling(proxies, n)
    ensures r.NotFound? ==> Dangling(proxies, r.name) && proxies[r.name].value == r.dialer
    ensures r.Valid? <==> (forall n :: !Dangling(proxies, n)) && Acyclic(DialerEdges(proxies))
    ensures r.Circular? ==> ToCycle(DialerEdges(proxies), r.name)
    ensures coloured <= |proxies|
  {
    coloured := 0;
    var graph: map<Name, Name> := map[];
    var rest := proxies.Keys;
    while rest != {}
      invariant rest <= proxies.Keys
      invariant forall n | n in graph :: n in proxies && n !in rest && proxies[n] == Some(graph[n])
      invariant forall n | n in proxies && n !in rest :: !Dangling(proxies, n) && (proxies[n].Some? ==> n in graph)
    {
      var name :| name in rest;
      rest := rest - {name};
      if proxies[name].Some? {
        if proxies[name].value !in proxies {
          assert Dangling(proxies, name);
          return NotFound(name, proxies[name].value), coloured;
        }
        graph := graph[name := proxies[name].value];
      }
    }
    assert ChainEdges(graph) == DialerEdges(proxies);
    var state: map<Name, Colour> := map[];
    rest := graph.Keys;
    while rest != {}
      invariant rest <= graph.Keys && Colouring(graph, proxies.Keys, state, [])
      invariant forall n | n in graph && n !in rest :: n in state
      invariant coloured == |state.Keys|
    {
      var name :| name in rest;
      rest := rest - {name};
      var circular;
      circular, state, coloured := WalkChain(graph, proxies.Keys, state, name, coloured);
      if circular {
        NotAcyclic(ChainEdges(graph), name);
        SubsetSize(state.Keys, proxies.Keys);
        return Circular(name), coloured;
      }
    }
    SubsetSize(state.Keys, proxies.Keys);
    forall n | OnCycle(ChainEdges(graph), n) ensures false {
      CycleBothWays(ChainEdges(graph), n);
      SuccessorToCycle(graph, n);
    }
    return Valid, coloured;
  }

  lemma NotAcyclic(E: Edges, n: Name)
    requires ToCycle(E, n)
    ensures !Acyclic(E)
  {
  }

  /** Follows one chain until it ends, meets a finished name, or meets itself. */
  method WalkChain(graph: map<Name, Name>, ghost proxies: set<Name>, state0: map<Name, Colour>, name: Name, ghost coloured0: nat)
    returns (circular: bool, state: map<Name, Colour>, ghost coloured: nat)
    requires name in graph && graph.Keys <= proxies && graph.Values <= proxies
    requires Colouring(graph, proxies, state0, []) && coloured0 == |state0.Keys|
    ensures circular ==> ToCycle(ChainEdges(graph), name)
    ensures !circular ==> Colouring(graph, proxies, state, []) && name in state && state0.Keys <= state.Keys
    ensures state.Keys <= proxies && coloured == |state.Keys|
  {
    state, coloured := state0, coloured0;
    var path: seq<Name> := [];
    var current := Some(name);
    while current.Some? && !(current.value in state && state[current.value].Finished?)
      invariant Colouring(graph, proxies, state, path) && state0.Keys <= state.Keys && coloured == |state.Keys|
      invariant path == [] ==> current == Some(name)
      invariant path != [] ==> path[0] == name
      invariant path != [] ==>
        var last := path[|path| - 1];
        current == if last in graph then Some(graph[last]) else None
      invariant current.Some? ==> current.value in proxies
      decreases proxies - state.Keys, current.Some?
    {
      if current.value in state {
        ClosedPathIsCycle(ChainEdges(graph), path, current.value);
        return true, state, coloured;
      }
      StepColours(graph, proxies, state, path, current.value);
      state := state[current.value := OnPath];
      coloured := coloured + 1;
      path := path + [current.value];
      current := if current.value in graph then Some(graph[current.value]) else None;
    }
    if path != [] {
      PathNotToCycle(graph, path);
    }
    state := FinishPath(graph, proxies, state, path);
    return false, state, coloured;
  }

  lemma StepColours(graph: map<Name, Name>, proxies: set<Name>, state: map<Name, Colour>, path: seq<Name>, n: Name)
    requires Colouring(graph, proxies, state, path) && n in proxies && n !in state
    requires path != [] ==> var last := path[|path| - 1]; last in graph && graph[last] == n
    ensures Colouring(graph, proxies, state[n := OnPath], path + [n])
    ensures (state[n := OnPath]).Keys == state.Keys + {n}
  {
    if path != [] {
      WalkAppend(ChainEdges(graph), path, n);
    }
  }

  /** The names of a path that led to no cycle are finished. */
  method FinishPath(ghost graph: map<Name, Name>, ghost proxies: set<Name>, state0: map<Name, Colour>, path: seq<Name>)
    returns (state: map<Name, Colour>)
    requires Colouring(graph, proxies, state0, path) && forall n | n in path :: !ToCycle(ChainEdges(graph), n)
    ensures Colouring(graph, proxies, state, []) && state.Keys == state0.Keys
  {
    state := state0;
    for k := 0 to |path|
      invariant state.Keys == state0.Keys
      invariant forall n | n in state && state[n].OnPath? :: n in path[k..]
      invariant forall n | n in state && n !in path :: state[n] == state0[n]
    {
      assert path[k] in state0;
      state := state[path[k] := Finished];
    }
  }
}
