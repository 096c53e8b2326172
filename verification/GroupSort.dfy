/** Dependency sorting of proxy groups (config/utils.go) and the group-by-group construction that
    relies on it (config/config.go). A group depends on every name it lists. */
module GroupSort {
  import opened Graph
  import opened Options

  datatype Group = Group(name: Name, proxies: seq<Name>)

  /** `data` is empty for a name that is listed by a group but is not a group itself. */
  datatype Node = Node(indegree: int, data: Option<Group>, outdegree: int, from: seq<Name>)

  datatype SortResult = Sorted | Duplicate(name: Name) | Loop(names: seq<Name>)

  // ----- the dependency graph of a list of groups -----

  ghost predicate DistinctNames(gs: seq<Group>) {
    forall i, j | 0 <= i < j < |gs| :: gs[i].name != gs[j].name
  }

  ghost function EdgesOf(gs: seq<Group>): Edges {
    set i, k | 0 <= i < |gs| && 0 <= k < |gs[i].proxies| :: (gs[i].name, gs[i].proxies[k])
  }

  ghost function Nodes(gs: seq<Group>): set<Name> {
    (set i | 0 <= i < |gs| :: gs[i].name) + (set e | e in EdgesOf(gs) :: e.1)
  }

  /** Each group comes after every group it lists. */
  ghost predicate DependencyOrdered(gs: seq<Group>) {
    forall i, j | 0 <= i < |gs| && 0 <= j < |gs| && gs[j].name in gs[i].proxies :: j < i
  }

  lemma EdgeOf(gs: seq<Group>, a: Name, b: Name)
    ensures (a, b) in EdgesOf(gs) <==> exists i :: 0 <= i < |gs| && gs[i].name == a && b in gs[i].proxies
  {
    if i :| 0 <= i < |gs| && gs[i].name == a && b in gs[i].proxies {
      var k :| 0 <= k < |gs[i].proxies| && gs[i].proxies[k] == b;
      assert (gs[i].name, gs[i].proxies[k]) in EdgesOf(gs);
    }
  }

  ghost function Count(s: seq<Name>, n: Name): nat {
    if s == [] then 0 else Count(s[..|s| - 1], n) + (if s[|s| - 1] == n then 1 else 0)
  }

  lemma CountAppend(s: seq<Name>, x: Name)
    ensures forall n :: Count(s + [x], n) == Count(s, n) + (if x == n then 1 else 0)
  {
    assert (s + [x])[..|s|] == s;
  }

  lemma {:induction false} CountPositive(s: seq<Name>, n: Name)
    ensures Count(s, n) > 0 <==> n in s
  {
    if s != [] {
      CountPositive(s[..|s| - 1], n);
      assert s == s[..|s| - 1] + [s[|s| - 1]];
    }
  }

  /** How often `n` is listed by the groups whose name is still in `R`, with multiplicity. */
  ghost function InDegree(gs: seq<Group>, R: set<Name>, n: Name): nat {
    if gs == [] then 0
    else
      var g := gs[|gs| - 1];
      InDegree(gs[..|gs| - 1], R, n) + (if g.name in R then Count(g.proxies, n) else 0)
  }

  lemma {:induction false} InDegreeWithout(gs: seq<Group>, R: set<Name>, m: Name, n: Name)
    requires forall i | 0 <= i < |gs| :: gs[i].name != m
    ensures InDegree(gs, R - {m}, n) == InDegree(gs, R, n)
  {
    if gs != [] {
      InDegreeWithout(gs[..|gs| - 1], R, m, n);
    }
  }

  lemma {:induction false} InDegreeRemove(gs: seq<Group>, R: set<Name>, i: nat, n: Name)
    requires DistinctNames(gs) && i < |gs| && gs[i].name in R
    ensures InDegree(gs, R, n) == InDegree(gs, R - {gs[i].name}, n) + Count(gs[i].proxies, n)
  {
    if i == |gs| - 1 {
      InDegreeWithout(gs[..|gs| - 1], R, gs[i].name, n);
    } else {
      InDegreeRemove(gs[..|gs| - 1], R, i, n);
    }
  }

  lemma {:induction false} InDegreePositive(gs: seq<Group>, R: set<Name>, n: Name)
    ensures InDegree(gs, R, n) > 0 <==> exists i :: 0 <= i < |gs| && gs[i].name in R && n in gs[i].proxies
  {
    if gs != [] {
      var rest := gs[..|gs| - 1];
      InDegreePositive(rest, R, n);
      CountPositive(gs[|gs| - 1].proxies, n);
      if InDegree(rest, R, n) > 0 {
        var i :| 0 <= i < |rest| && rest[i].name in R && n in rest[i].proxies;
        assert gs[i] == rest[i];
      }
      if i :| 0 <= i < |gs| && gs[i].name in R && n in gs[i].proxies {
        if i < |gs| - 1 {
          assert rest[i] == gs[i];
        }
      }
    }
  }

  // ----- step 1.1: build the graph -----

  ghost predicate HoldsGroups(gs: seq<Group>, graph: map<Name, Node>) {
    && (forall n | n in graph && graph[n].data.Some? :: graph[n].data.value in gs && graph[n].data.value.name == n)
    && (forall i | 0 <= i < |gs| && gs[i].name in graph :: graph[gs[i].name].data == Some(gs[i]))
  }

  ghost predicate CountsInEdges(gs: seq<Group>, graph: map<Name, Node>, R: set<Name>, pending: seq<Name>) {
    forall n | n in graph :: graph[n].indegree == InDegree(gs, R, n) + Count(pending, n)
  }

  /** The graph of the groups read so far. */
  ghost predicate Built(gs: seq<Group>, all: set<Name>, graph: map<Name, Node>) {
    && DistinctNames(gs)
    && graph.Keys == Nodes(gs)
    && HoldsGroups(gs, graph)
    && CountsInEdges(gs, graph, all, [])
    && Fresh(graph)
  }

  method BuildGraph(groups: seq<Group>) returns (duplicate: Option<Name>, graph: map<Name, Node>)
    ensures duplicate.None? <==> DistinctNames(groups)
    ensures duplicate.Some? ==>
      exists i, j :: 0 <= i < j < |groups| && groups[i].name == groups[j].name == duplicate.value
    ensures duplicate.None? ==> Built(groups, Nodes(groups), graph)
  {
    graph := map[];
    for i := 0 to |groups|
      invariant Built(groups[..i], Nodes(groups), graph)
    {
      duplicate, graph := ReadGroup(groups, i, graph);
      if duplicate.Some? {
        return;
      }
    }
    assert groups[..|groups|] == groups;
    return None, graph;
  }

  method ReadGroup(groups: seq<Group>, i: nat, graph0: map<Name, Node>)
    returns (duplicate: Option<Name>, graph: map<Name, Node>)
    requires i < |groups| && Built(groups[..i], Nodes(groups), graph0)
    ensures duplicate.Some? ==>
      && !DistinctNames(groups)
      && exists j, k :: 0 <= j < k < |groups| && groups[j].name == groups[k].name == duplicate.value
    ensures duplicate.None? ==> Built(groups[..i + 1], Nodes(groups), graph)
  {
    var option := groups[i];
    if option.name in graph0 && graph0[option.name].data.Some? {
      NamedTwice(groups, Nodes(groups), graph0, i);
      return Some(option.name), graph0;
    }
    NameIsNode(groups, i);
    graph := AddGroup(groups[..i], Nodes(groups), option, graph0);
    OneMore(groups, i);
    duplicate := None;
  }

  lemma OneMore(groups: seq<Group>, i: nat)
    requires i < |groups|
    ensures groups[..i + 1] == groups[..i] + [groups[i]]
  {
  }

  lemma NamedTwice(groups: seq<Group>, all: set<Name>, graph: map<Name, Node>, i: nat)
    requires i < |groups| && Built(groups[..i], all, graph)
    requires groups[i].name in graph && graph[groups[i].name].data.Some?
    ensures exists j, k :: 0 <= j < k < |groups| && groups[j].name == groups[k].name == groups[i].name
    ensures !DistinctNames(groups)
  {
    var j :| 0 <= j < i && groups[..i][j] == graph[groups[i].name].data.value;
    assert groups[j].name == groups[i].name;
  }

  lemma NameIsNode(groups: seq<Group>, i: nat)
    requires i < |groups|
    ensures groups[i].name in Nodes(groups)
  {
    GroupsAreNodes(groups);
  }

  method AddGroup(ghost done: seq<Group>, ghost all: set<Name>, option: Group, graph0: map<Name, Node>)
    returns (graph: map<Name, Node>)
    requires Built(done, all, graph0) && option.name in all
    requires option.name in graph0 ==> graph0[option.name].data.None?
    ensures Built(done + [option], all, graph)
  {
    GroupsAreNodes(done);
    SetDataHolds(done, graph0, option);
    SetDataCounts(done, all, graph0, option);
    ghost var marked := SetData(graph0, option);
    graph := CountProxies(done, all, option.proxies, SetData(graph0, option));
    StillHolds(done + [option], marked, graph);
    NodesAppend(done, option);
    CountsAppend(done, all, graph, option);
  }

  lemma StillHolds(gs: seq<Group>, before: map<Name, Node>, graph: map<Name, Node>)
    requires HoldsGroups(gs, before) && SameData(graph, before) && before.Keys <= graph.Keys
    requires forall i | 0 <= i < |gs| :: gs[i].name in before
    ensures HoldsGroups(gs, graph)
  {
  }

  lemma CountsAppend(done: seq<Group>, all: set<Name>, graph: map<Name, Node>, option: Group)
    requires option.name in all
    requires CountsInEdges(done, graph, all, option.proxies)
    ensures CountsInEdges(done + [option], graph, all, [])
  {
    assert (done + [option])[..|done|] == done;
  }

  /** Records a group under its name: on a node that earlier groups already listed, or on a new one. */
  function SetData(graph: map<Name, Node>, option: Group): map<Name, Node> {
    if option.name in graph then
      graph[option.name := graph[option.name].(data := Some(option))]
    else
      graph[option.name := Node(0, Some(option), 0, [])]
  }

  lemma SetDataHolds(done: seq<Group>, graph: map<Name, Node>, option: Group)
    requires DistinctNames(done) && HoldsGroups(done, graph)
    requires forall i | 0 <= i < |done| :: done[i].name in graph
    requires option.name in graph ==> graph[option.name].data.None?
    ensures HoldsGroups(done + [option], SetData(graph, option))
    ensures DistinctNames(done + [option])
  {
    var now := SetData(graph, option);
    forall n | n in now && now[n].data.Some?
      ensures now[n].data.value in done + [option] && now[n].data.value.name == n
    {
      if n != option.name {
        assert graph[n].data.value in done;
      }
    }
  }

  lemma SetDataCounts(done: seq<Group>, all: set<Name>, graph: map<Name, Node>, option: Group)
    requires graph.Keys == Nodes(done) && Fresh(graph)
    requires CountsInEdges(done, graph, all, [])
    ensures SetData(graph, option).Keys == graph.Keys + {option.name}
    ensures CountsInEdges(done, SetData(graph, option), all, []) && Fresh(SetData(graph, option))
  {
    if option.name !in graph {
      NotListed(done, all, option.name);
    }
  }

  lemma GroupsAreNodes(gs: seq<Group>)
    ensures forall i | 0 <= i < |gs| :: gs[i].name in Nodes(gs)
  {
  }

  lemma NotListed(gs: seq<Group>, R: set<Name>, n: Name)
    requires n !in Nodes(gs)
    ensures InDegree(gs, R, n) == 0
  {
    InDegreePositive(gs, R, n);
    if InDegree(gs, R, n) > 0 {
      var i :| 0 <= i < |gs| && gs[i].name in R && n in gs[i].proxies;
      var e := (gs[i].name, n);
      assert e.1 == n;
      EdgeOf(gs, e.0, e.1);
      assert false;
    }
  }

  lemma NodesAppend(was: seq<Group>, g: Group)
    ensures Nodes(was + [g]) == Nodes(was) + {g.name} + NamesIn(g.proxies)
  {
    var now, i := was + [g], |was|;
    assert now[i] == g;
    forall n | n in Nodes(now) ensures n in Nodes(was) + {g.name} + NamesIn(g.proxies) {
      if e :| e in EdgesOf(now) && e.1 == n {
        EdgeOf(now, e.0, n);
        var k :| 0 <= k < |now| && now[k].name == e.0 && n in now[k].proxies;
        if k < i {
          assert was[k] == now[k];
          EdgeOf(was, e.0, n);
          assert (e.0, n).1 in Nodes(was);
        }
      } else {
        var k :| 0 <= k < |now| && now[k].name == n;
        if k < i { assert was[k].name == n; }
      }
    }
    forall n | n in Nodes(was) + {g.name} + NamesIn(g.proxies) ensures n in Nodes(now) {
      if n in g.proxies {
        EdgeOf(now, g.name, n);
        assert (g.name, n).1 in Nodes(now);
      } else if n == g.name {
        assert now[i].name == n;
      } else if e :| e in EdgesOf(was) && e.1 == n {
        EdgeOf(was, e.0, n);
        var k :| 0 <= k < |was| && was[k].name == e.0 && n in was[k].proxies;
        assert now[k] == was[k];
        EdgeOf(now, e.0, n);
      } else {
        var k :| 0 <= k < |was| && was[k].name == n;
        assert now[k] == was[k];
      }
    }
  }

  /** One more listing of `proxy` is one more incoming edge of its node, created on first sight. */
  function CountOne(graph: map<Name, Node>, proxy: Name): map<Name, Node> {
    if proxy in graph then
      graph[proxy := graph[proxy].(indegree := graph[proxy].indegree + 1)]
    else
      graph[proxy := Node(1, None, 0, [])]
  }

  lemma CountOneCounts(done: seq<Group>, all: set<Name>, graph: map<Name, Node>, pending: seq<Name>, proxy: Name)
    requires Nodes(done) <= graph.Keys && NamesIn(pending) <= graph.Keys
    requires CountsInEdges(done, graph, all, pending)
    ensures CountsInEdges(done, CountOne(graph, proxy), all, pending + [proxy])
  {
    CountAppend(pending, proxy);
    if proxy !in graph {
      NotListed(done, all, proxy);
      CountPositive(pending, proxy);
    }
  }

  ghost function NamesIn(s: seq<Name>): set<Name> {
    set n | n in s
  }

  lemma CountOneKeeps(graph: map<Name, Node>, proxy: Name)
    ensures CountOne(graph, proxy).Keys == graph.Keys + {proxy}
    ensures Fresh(graph) ==> Fresh(CountOne(graph, proxy))
    ensures SameData(CountOne(graph, proxy), graph)
  {
  }

  ghost predicate Fresh(graph: map<Name, Node>) {
    forall n | n in graph :: graph[n].outdegree == 0 && graph[n].from == []
  }

  ghost predicate SameData(graph: map<Name, Node>, graph0: map<Name, Node>) {
    forall n | n in graph :: graph[n].data == if n in graph0 then graph0[n].data else None
  }

  method CountProxies(ghost done: seq<Group>, ghost all: set<Name>, proxies: seq<Name>, graph0: map<Name, Node>)
    returns (graph: map<Name, Node>)
    requires Nodes(done) <= graph0.Keys
    requires CountsInEdges(done, graph0, all, []) && Fresh(graph0)
    ensures graph.Keys == graph0.Keys + NamesIn(proxies)
    ensures CountsInEdges(done, graph, all, proxies) && Fresh(graph) && SameData(graph, graph0)
  {
    graph := graph0;
    for k := 0 to |proxies|
      invariant graph.Keys == graph0.Keys + NamesIn(proxies[..k])
      invariant CountsInEdges(done, graph, all, proxies[..k])
      invariant Fresh(graph) && SameData(graph, graph0)
    {
      assert proxies[..k + 1] == proxies[..k] + [proxies[k]];
      CountOneCounts(done, all, graph, proxies[..k], proxies[k]);
      CountOneKeeps(graph, proxies[k]);
      graph := CountOne(graph, proxies[k]);
    }
    assert proxies[..|proxies|] == proxies;
  }

  // ----- step 1.2: topological sort -----

  /** The queue holds each removable name once. */
  ghost predicate Ready(graph: map<Name, Node>, queue: seq<Name>) {
    && Distinct(queue)
    && (forall n | n in queue :: n in graph && graph[n].indegree == 0)
    && (forall n | n in graph && graph[n].indegree == 0 :: n in queue)
  }

  /** `order` is what has been removed, `graph` what is left. */
  ghost predicate Removing(gs: seq<Group>, graph: map<Name, Node>, order: seq<Name>) {
    && DistinctNames(gs) && HoldsGroups(gs, graph)
    && CountsInEdges(gs, graph, graph.Keys, [])
    && Distinct(order) && Peeled(EdgesOf(gs), order)
    && (forall n :: n in Nodes(gs) <==> (n in order || n in graph))
    && (forall n | n in order :: n !in graph)
  }

  /** `placed` are the removed groups in removal order; the array is filled with them from its end. */
  ghost predicate Placed(gs: seq<Group>, slots: seq<Group>, order: seq<Name>, placed: seq<Group>) {
    && |slots| == |gs| && |placed| <= |gs| && Distinct(placed)
    && (forall g | g in placed :: g in gs && g.name in order)
    && (forall g | g in gs && g.name in order :: g in placed)
    && (forall i, j | 0 <= i < j < |placed| :: placed[i].name !in placed[j].proxies)
    && (forall k | 0 <= k < |placed| :: slots[|slots| - 1 - k] == placed[k])
  }

  ghost predicate Peeling(gs: seq<Group>, slots: seq<Group>, graph: map<Name, Node>, queue: seq<Name>,
                          order: seq<Name>, placed: seq<Group>)
  {
    Removing(gs, graph, order) && Fresh(graph) && Ready(graph, queue) && Placed(gs, slots, order, placed)
  }

  method TopologicalPeel(groups: array<Group>, graph0: map<Name, Node>)
    returns (graph: map<Name, Node>, ghost order: seq<Name>, ghost placed: seq<Group>)
    requires Built(groups[..], graph0.Keys, graph0)
    modifies groups
    ensures Peeling(old(groups[..]), groups[..], graph, [], order, placed)
  {
    graph, order, placed := graph0, [], [];
    var index := 0;
    var queue := ReadyNames(graph);
    while queue != []
      invariant Peeling(old(groups[..]), groups[..], graph, queue, order, placed) && index == |placed|
      decreases |graph|
    {
      graph, queue, index, order, placed := RemoveHead(groups, graph, queue, index, old(groups[..]), order, placed);
    }
  }

  /** One round of the peel: the head of the queue leaves the graph, and a group takes the last free slot. */
  method RemoveHead(groups: array<Group>, graph0: map<Name, Node>, queue0: seq<Name>, index0: nat,
                    ghost gs: seq<Group>, ghost order0: seq<Name>, ghost placed0: seq<Group>)
    returns (graph: map<Name, Node>, queue: seq<Name>, index: nat, ghost order: seq<Name>, ghost placed: seq<Group>)
    requires Peeling(gs, groups[..], graph0, queue0, order0, placed0) && index0 == |placed0| && queue0 != []
    modifies groups
    ensures Peeling(gs, groups[..], graph, queue, order, placed) && index == |placed|
    ensures |graph| < |graph0|
  {
    var name := queue0[0];
    var node := graph0[name];
    order := order0 + [name];
    NextIsPeeled(gs, graph0, order0, name);
    if node.data.Some? {
      index := index0 + 1;
      placed := placed0 + [node.data.value];
      FillSlot(groups, index, node.data.value, gs, order0, placed0);
      StillClosed(gs, graph0, order0);
      SmallerChildren(gs, graph0, name);
      graph, queue := DropChildren(graph0, queue0, node.data.value.proxies);
    } else {
      SkipNext(gs, groups[..], order0, placed0, graph0, name);
      graph, queue, index, placed := graph0, queue0, index0, placed0;
    }
    RemoveNext(gs, graph0, graph, queue, order0, name);
    RemovalShrinks(graph, name);
    graph, queue := graph - {name}, queue[1..];
  }

  method FillSlot(groups: array<Group>, index: nat, g: Group, ghost gs: seq<Group>, ghost order: seq<Name>, ghost placed: seq<Group>)
    requires Placed(gs, groups[..], order, placed) && DistinctNames(gs) && Peeled(EdgesOf(gs), order)
    requires g in gs && g.name !in order && index == |placed| + 1
    modifies groups
    ensures Placed(gs, groups[..], order + [g.name], placed + [g])
  {
    PlaceNext(gs, groups[..], order, placed, g);
    groups[groups.Length - index] := g;
  }

  lemma RemovalShrinks(graph: map<Name, Node>, name: Name)
    requires name in graph
    ensures |graph - {name}| < |graph.Keys| == |graph|
  {
    assert (graph - {name}).Keys == graph.Keys - {name};
    assert |graph - {name}| == |(graph - {name}).Keys|;
  }

  method ReadyNames(graph: map<Name, Node>) returns (queue: seq<Name>)
    ensures Ready(graph, queue)
  {
    queue := [];
    var rest := graph.Keys;
    while rest != {}
      invariant rest <= graph.Keys
      invariant Distinct(queue) && forall n | n in queue :: n in graph && n !in rest && graph[n].indegree == 0
      invariant forall n | n in graph && graph[n].indegree == 0 :: n in rest || n in queue
    {
      var name :| name in rest;
      rest := rest - {name};
      if graph[name].indegree == 0 {
        queue := queue + [name];
      }
    }
  }

  /** Every child loses one incoming edge per listing and is queued when it loses the last one. */
  method DropChildren(graph0: map<Name, Node>, queue0: seq<Name>, proxies: seq<Name>)
    returns (graph: map<Name, Node>, queue: seq<Name>)
    requires Ready(graph0, queue0)
    requires forall n | n in proxies :: n in graph0
    requires forall n | n in graph0 :: graph0[n].indegree >= Count(proxies, n)
    ensures Dropped(graph0, graph, proxies) && Ready(graph, queue) && queue0 <= queue
  {
    graph, queue := graph0, queue0;
    for k := 0 to |proxies|
      invariant Dropped(graph0, graph, proxies[..k]) && Ready(graph, queue) && queue0 <= queue
    {
      var proxy := proxies[k];
      var child := graph[proxy];
      assert proxies[..k + 1] == proxies[..k] + [proxy];
      CountAppend(proxies[..k], proxy);
      CountPrefix(proxies, k + 1, proxy);
      graph := graph[proxy := child.(indegree := child.indegree - 1)];
      if child.indegree - 1 == 0 {
        queue := queue + [proxy];
      }
    }
    assert proxies[..|proxies|] == proxies;
  }

  ghost predicate Dropped(graph0: map<Name, Node>, graph: map<Name, Node>, done: seq<Name>) {
    && graph.Keys == graph0.Keys
    && forall n | n in graph :: graph[n] == graph0[n].(indegree := graph0[n].indegree - Count(done, n))
  }

  lemma {:induction false} CountPrefix(s: seq<Name>, k: nat, n: Name)
    requires k <= |s|
    ensures Count(s[..k], n) <= Count(s, n)
  {
    if k < |s| {
      CountPrefix(s[..|s| - 1], k, n);
      assert s[..|s| - 1][..k] == s[..k];
    } else {
      assert s[..k] == s;
    }
  }

  lemma NextIsPeeled(gs: seq<Group>, graph: map<Name, Node>, order: seq<Name>, name: Name)
    requires Removing(gs, graph, order)
    requires name in graph && graph[name].indegree == 0
    ensures Distinct(order + [name]) && Peeled(EdgesOf(gs), order + [name])
  {
    var E, next := EdgesOf(gs), order + [name];
    InDegreePositive(gs, graph.Keys, name);
    forall i, m | 0 <= i < |next| && (m, next[i]) in E ensures m in next[..i] {
      if i < |order| {
        assert next[..i] == order[..i];
        assert (m, order[i]) in E;
      } else {
        assert next[..i] == order;
        EdgeOf(gs, m, name);
        var k :| 0 <= k < |gs| && gs[k].name == m && name in gs[k].proxies;
        assert m in Nodes(gs);
      }
    }
  }

  lemma SmallerChildren(gs: seq<Group>, graph: map<Name, Node>, name: Name)
    requires HoldsGroups(gs, graph) && DistinctNames(gs) && CountsInEdges(gs, graph, graph.Keys, [])
    requires Closed(EdgesOf(gs), graph.Keys)
    requires name in graph && graph[name].data.Some?
    ensures forall n | n in graph[name].data.value.proxies :: n in graph
    ensures forall n | n in graph :: graph[n].indegree >= Count(graph[name].data.value.proxies, n)
  {
    var i :| 0 <= i < |gs| && gs[i] == graph[name].data.value;
    forall n | n in gs[i].proxies ensures n in graph {
      EdgeOf(gs, name, n);
      assert (name, n).0 in graph.Keys;
    }
    forall n | n in graph ensures graph[n].indegree >= Count(gs[i].proxies, n) {
      InDegreeRemove(gs, graph.Keys, i, n);
    }
  }

  lemma PeeledPredecessor(E: Edges, order: seq<Name>, m: Name, n: Name)
    requires Peeled(E, order) && n in order && (m, n) in E
    ensures m in order
  {
    var i :| 0 <= i < |order| && order[i] == n;
    assert m in order[..i];
  }

  /** What is left is closed under listing: a removed name has no remaining predecessor. */
  lemma StillClosed(gs: seq<Group>, graph: map<Name, Node>, order: seq<Name>)
    requires Removing(gs, graph, order)
    ensures Closed(EdgesOf(gs), graph.Keys)
  {
    forall e | e in EdgesOf(gs) && e.0 in graph.Keys ensures e.1 in graph.Keys {
      assert e.1 in Nodes(gs);
      if e.1 in order {
        PeeledPredecessor(EdgesOf(gs), order, e.0, e.1);
      }
    }
  }

  lemma PlaceNext(gs: seq<Group>, slots: seq<Group>, order: seq<Name>, placed: seq<Group>, g: Group)
    requires Placed(gs, slots, order, placed) && DistinctNames(gs)
    requires g in gs && g.name !in order
    requires Peeled(EdgesOf(gs), order)
    ensures |placed| < |gs|
    ensures Placed(gs, slots[|gs| - 1 - |placed| := g], order + [g.name], placed + [g])
  {
    DistinctFits(placed, gs, g);
    forall k | 0 <= k < |placed| ensures placed[k].name !in g.proxies {
      NotListedBy(gs, order, placed[k].name, g);
    }
    forall h | h in gs && h.name in order + [g.name] ensures h in placed + [g] {
      SameName(gs, g, h);
    }
    PlacedLonger(placed, g);
    SlotFilled(slots, placed, g);
  }

  lemma PlacedLonger(placed: seq<Group>, g: Group)
    requires Distinct(placed) && g !in placed
    requires forall i, j | 0 <= i < j < |placed| :: placed[i].name !in placed[j].proxies
    requires forall k | 0 <= k < |placed| :: placed[k].name !in g.proxies
    ensures Distinct(placed + [g])
    ensures var p := placed + [g]; forall i, j | 0 <= i < j < |p| :: p[i].name !in p[j].proxies
  {
  }

  lemma SlotFilled(slots: seq<Group>, placed: seq<Group>, g: Group)
    requires |placed| < |slots| && forall k | 0 <= k < |placed| :: slots[|slots| - 1 - k] == placed[k]
    ensures var s, p := slots[|slots| - 1 - |placed| := g], placed + [g];
      |s| == |slots| && forall k | 0 <= k < |p| :: s[|s| - 1 - k] == p[k]
  {
  }

  /** A name removed earlier cannot be listed by a group that is still there. */
  lemma NotListedBy(gs: seq<Group>, order: seq<Name>, n: Name, g: Group)
    requires Peeled(EdgesOf(gs), order) && n in order && g in gs && g.name !in order
    ensures n !in g.proxies
  {
    if n in g.proxies {
      EdgeOf(gs, g.name, n);
      PeeledPredecessor(EdgesOf(gs), order, g.name, n);
    }
  }

  lemma SameName(gs: seq<Group>, g: Group, h: Group)
    requires DistinctNames(gs) && g in gs && h in gs
    ensures g.name == h.name ==> g == h
  {
    var i :| 0 <= i < |gs| && gs[i] == g;
    var j :| 0 <= j < |gs| && gs[j] == h;
  }

  lemma SkipNext(gs: seq<Group>, slots: seq<Group>, order: seq<Name>, placed: seq<Group>, graph: map<Name, Node>, name: Name)
    requires Placed(gs, slots, order, placed)
    requires HoldsGroups(gs, graph) && name in graph && graph[name].data.None?
    ensures Placed(gs, slots, order + [name], placed)
  {
    forall g | g in gs && g.name in order + [name] ensures g in placed {
      var i :| 0 <= i < |gs| && gs[i] == g;
    }
  }

  /** A sequence of distinct members of `gs` that misses one of them is shorter than `gs`. */
  lemma DistinctFits(placed: seq<Group>, gs: seq<Group>, g: Group)
    requires Distinct(placed) && (forall x | x in placed :: x in gs)
    requires g in gs && g !in placed
    ensures |placed| < |gs|
  {
    var members := set x | x in gs;
    SetOfSeq(placed);
    SetOfSeq(placed + [g]);
    CardinalityAtMost(gs);
    SubsetSize((set x | x in placed + [g]), members);
  }

  lemma {:induction false} SetOfSeq<T>(s: seq<T>)
    requires Distinct(s)
    ensures |set x | x in s| == |s|
  {
    if s != [] {
      var rest := s[..|s| - 1];
      SetOfSeq(rest);
      assert s == rest + [s[|s| - 1]];
      assert (set x | x in s) == (set x | x in rest) + {s[|s| - 1]};
    }
  }

  lemma {:induction false} CardinalityAtMost<T>(s: seq<T>)
    ensures |set x | x in s| <= |s|
  {
    if s != [] {
      var rest := s[..|s| - 1];
      CardinalityAtMost(rest);
      assert s == rest + [s[|s| - 1]];
      assert (set x | x in s) == (set x | x in rest) + {s[|s| - 1]};
    }
  }

  lemma RemoveNext(gs: seq<Group>, before: map<Name, Node>, graph: map<Name, Node>, queue: seq<Name>, order: seq<Name>, name: Name)
    requires Removing(gs, before, order) && name in before && before[name].indegree == 0
    requires Distinct(order + [name]) && Peeled(EdgesOf(gs), order + [name])
    requires Dropped(before, graph, if before[name].data.Some? then before[name].data.value.proxies else [])
    requires Ready(graph, queue) && |queue| > 0 && queue[0] == name
    ensures Removing(gs, graph - {name}, order + [name])
    ensures Ready(graph - {name}, queue[1..])
    ensures Fresh(before) ==> Fresh(graph - {name})
  {
    var after := graph - {name};
    forall n | n in after ensures after[n].indegree == InDegree(gs, after.Keys, n) {
      assert after.Keys == before.Keys - {name};
      InDegreeDropped(gs, before, name, n);
    }
    NextReady(graph, queue);
  }

  /** What taking a removed node's listings off makes of the indegree of another node. */
  lemma InDegreeDropped(gs: seq<Group>, graph: map<Name, Node>, name: Name, n: Name)
    requires DistinctNames(gs) && HoldsGroups(gs, graph) && name in graph
    ensures InDegree(gs, graph.Keys, n) == InDegree(gs, graph.Keys - {name}, n) + Count(ProxiesOf(graph[name]), n)
  {
    if graph[name].data.Some? {
      var i :| 0 <= i < |gs| && gs[i] == graph[name].data.value;
      InDegreeRemove(gs, graph.Keys, i, n);
    } else {
      InDegreeWithout(gs, graph.Keys, name, n);
    }
  }

  lemma NextReady(graph: map<Name, Node>, queue: seq<Name>)
    requires Ready(graph, queue) && queue != []
    ensures Ready(graph - {queue[0]}, queue[1..])
  {
    assert forall k | 0 <= k < |queue[1..]| :: queue[1..][k] == queue[k + 1];
  }

  // ----- step 2: locate the loops among the names that could not be removed -----

  function ProxiesOf(node: Node): seq<Name> {
    if node.data.Some? then node.data.value.proxies else []
  }

  /** `outdegree` and `from` account for the listings of `L`, the part of each group read so far. */
  ghost predicate Linked(graph: map<Name, Node>, L: map<Name, seq<Name>>) {
    L.Keys == graph.Keys && forall n {:trigger NodeLinked(graph[n], L, n)} | n in graph :: NodeLinked(graph[n], L, n)
  }

  ghost predicate NodeLinked(node: Node, L: map<Name, seq<Name>>, n: Name)
    requires n in L
  {
    && node.outdegree == |L[n]|
    && (forall f {:trigger Count(node.from, f)} | f in L :: Count(node.from, f) == Count(L[f], n))
    && (forall f | f in node.from :: f in L)
  }

  ghost predicate SameGroups(graph: map<Name, Node>, graph0: map<Name, Node>) {
    graph.Keys == graph0.Keys && forall n | n in graph :: graph[n].data == graph0[n].data
  }

  function LinkOne(graph: map<Name, Node>, name: Name, proxy: Name): map<Name, Node>
    requires name in graph && proxy in graph
  {
    var counted := graph[name := graph[name].(outdegree := graph[name].outdegree + 1)];
    counted[proxy := counted[proxy].(from := counted[proxy].from + [name])]
  }

  lemma LinkOneAt(graph: map<Name, Node>, name: Name, proxy: Name)
    requires name in graph && proxy in graph
    ensures LinkOne(graph, name, proxy).Keys == graph.Keys
    ensures forall n | n in graph :: LinkOne(graph, name, proxy)[n] == graph[n].(
              outdegree := graph[n].outdegree + (if n == name then 1 else 0),
              from := graph[n].from + (if n == proxy then [name] else []))
  {
  }

  lemma LinkOneLinks(graph: map<Name, Node>, L: map<Name, seq<Name>>, name: Name, proxy: Name)
    requires name in graph && proxy in graph && Linked(graph, L)
    ensures Linked(LinkOne(graph, name, proxy), L[name := L[name] + [proxy]])
    ensures SameGroups(LinkOne(graph, name, proxy), graph)
  {
    var after, L' := LinkOne(graph, name, proxy), L[name := L[name] + [proxy]];
    LinkOneAt(graph, name, proxy);
    CountAppend(L[name], proxy);
    forall n | n in after ensures NodeLinked(after[n], L', n) {
      assert NodeLinked(graph[n], L, n);
      CountAppend(graph[n].from, name);
    }
  }

  method LinkBack(graph0: map<Name, Node>) returns (graph: map<Name, Node>)
    requires Fresh(graph0)
    requires forall n, m | n in graph0 && m in ProxiesOf(graph0[n]) :: m in graph0
    ensures SameGroups(graph, graph0)
    ensures Linked(graph, map n | n in graph :: ProxiesOf(graph[n]))
  {
    graph := graph0;
    var rest := graph.Keys;
    ghost var L: map<Name, seq<Name>> := map n | n in graph :: [];
    while rest != {}
      invariant rest <= graph.Keys && SameGroups(graph, graph0) && Linked(graph, L)
      invariant forall n | n in graph :: L[n] == if n in rest then [] else ProxiesOf(graph[n])
    {
      var name :| name in rest;
      if graph[name].data.Some? {
        graph := LinkProxies(graph, L, name, graph[name].data.value.proxies);
        L := L[name := ProxiesOf(graph[name])];
      }
      rest := rest - {name};
    }
    assert L == map n | n in graph :: ProxiesOf(graph[n]);
  }

  method LinkProxies(graph0: map<Name, Node>, ghost L: map<Name, seq<Name>>, name: Name, proxies: seq<Name>)
    returns (graph: map<Name, Node>)
    requires name in graph0 && Linked(graph0, L) && L[name] == []
    requires forall m | m in proxies :: m in graph0
    ensures SameGroups(graph, graph0) && Linked(graph, L[name := proxies])
  {
    graph := graph0;
    assert L[name := proxies[..0]] == L;
    for k := 0 to |proxies|
      invariant SameGroups(graph, graph0) && Linked(graph, L[name := proxies[..k]])
    {
      LinkOneLinks(graph, L[name := proxies[..k]], name, proxies[k]);
      assert proxies[..k + 1] == proxies[..k] + [proxies[k]];
      assert L[name := proxies[..k]][name := proxies[..k + 1]] == L[name := proxies[..k + 1]];
      graph := LinkOne(graph, name, proxies[k]);
    }
    assert proxies[..|proxies|] == proxies;
  }

  /** How many listings of a group point into `K`. */
  ghost function OutDegree(proxies: seq<Name>, K: set<Name>): nat {
    if proxies == [] then 0
    else OutDegree(proxies[..|proxies| - 1], K) + (if proxies[|proxies| - 1] in K then 1 else 0)
  }

  lemma {:induction false} OutDegreeRemove(proxies: seq<Name>, K: set<Name>, n: Name)
    requires n in K
    ensures OutDegree(proxies, K) == OutDegree(proxies, K - {n}) + Count(proxies, n)
  {
    if proxies != [] {
      OutDegreeRemove(proxies[..|proxies| - 1], K, n);
    }
  }

  lemma OutDegreeFacts(proxies: seq<Name>, K: set<Name>)
    ensures OutDegree(proxies, K) > 0 <==> exists m :: m in proxies && m in K
    ensures (forall m | m in proxies :: m in K) ==> OutDegree(proxies, K) == |proxies|
  {
    if OutDegree(proxies, K) > 0 {
      var m := OutDegreeWitness(proxies, K);
    } else if m :| m in proxies && m in K {
      var k :| 0 <= k < |proxies| && proxies[k] == m;
      OutDegreePositive(proxies, K, k);
    }
    if forall m | m in proxies :: m in K {
      OutDegreeFull(proxies, K);
    }
  }

  lemma {:induction false} OutDegreeWitness(proxies: seq<Name>, K: set<Name>) returns (m: Name)
    requires OutDegree(proxies, K) > 0
    ensures m in proxies && m in K
  {
    m := proxies[|proxies| - 1];
    if m !in K {
      m := OutDegreeWitness(proxies[..|proxies| - 1], K);
    }
  }

  lemma {:induction false} OutDegreePositive(proxies: seq<Name>, K: set<Name>, k: nat)
    requires k < |proxies| && proxies[k] in K
    ensures OutDegree(proxies, K) > 0
  {
    if k < |proxies| - 1 {
      OutDegreePositive(proxies[..|proxies| - 1], K, k);
    }
  }

  lemma {:induction false} OutDegreeFull(proxies: seq<Name>, K: set<Name>)
    requires forall m | m in proxies :: m in K
    ensures OutDegree(proxies, K) == |proxies|
  {
    if proxies != [] {
      OutDegreeFull(proxies[..|proxies| - 1], K);
    }
  }

  ghost predicate ReadyOut(graph: map<Name, Node>, queue: seq<Name>) {
    && Distinct(queue)
    && (forall n | n in queue :: n in graph && graph[n].outdegree == 0)
    && (forall n | n in graph && graph[n].outdegree == 0 :: n in queue)
  }

  /** The second peel: `whole` is the graph it started from, `order` what it has removed. */
  ghost predicate Trimming(whole: map<Name, Node>, graph: map<Name, Node>, order: seq<Name>) {
    && (forall n :: n in whole <==> (n in order || n in graph))
    && (forall n | n in order :: n !in graph)
    && (forall n | n in graph :: graph[n].data == whole[n].data && graph[n].from == whole[n].from)
    && (forall n | n in graph :: graph[n].outdegree == OutDegree(ProxiesOf(graph[n]), graph.Keys))
    && Distinct(order) && Peeled(Reverse(Listed(whole)), order)
  }

  /** The edges between the names of a graph, read off its nodes. */
  ghost function Listed(graph: map<Name, Node>): Edges {
    set a, b | a in graph && b in ProxiesOf(graph[a]) && b in graph :: (a, b)
  }

  ghost predicate BackLinked(whole: map<Name, Node>) {
    forall n {:trigger whole[n].from} | n in whole ::
      && (forall f {:trigger Count(whole[n].from, f)} | f in whole :: Count(whole[n].from, f) == Count(ProxiesOf(whole[f]), n))
      && (forall f | f in whole[n].from :: f in whole)
  }

  method Trim(whole: map<Name, Node>) returns (graph: map<Name, Node>, ghost order: seq<Name>)
    requires Trimming(whole, whole, []) && BackLinked(whole)
    ensures Trimming(whole, graph, order)
    ensures forall n | n in graph :: graph[n].outdegree != 0
  {
    graph, order := whole, [];
    var queue := LeafNames(graph);
    while queue != []
      invariant Trimming(whole, graph, order) && ReadyOut(graph, queue)
      decreases |graph|
    {
      var name := queue[0];
      ghost var before := graph;
      LeafIsPeeled(whole, graph, order, name);
      LargerParents(whole, graph, order, name);
      graph, queue := DropParents(graph, queue, graph[name].from);
      RemoveLeaf(whole, before, graph, queue, order, name);
      RemovalShrinks(graph, name);
      order := order + [name];
      graph, queue := graph - {name}, queue[1..];
    }
  }

  method LeafNames(graph: map<Name, Node>) returns (queue: seq<Name>)
    ensures ReadyOut(graph, queue)
  {
    queue := [];
    var rest := graph.Keys;
    while rest != {}
      invariant rest <= graph.Keys
      invariant Distinct(queue) && forall n | n in queue :: n in graph && n !in rest && graph[n].outdegree == 0
      invariant forall n | n in graph && graph[n].outdegree == 0 :: n in rest || n in queue
    {
      var name :| name in rest;
      rest := rest - {name};
      if graph[name].outdegree == 0 {
        queue := queue + [name];
      }
    }
  }

  method DropParents(graph0: map<Name, Node>, queue0: seq<Name>, from: seq<Name>)
    returns (graph: map<Name, Node>, queue: seq<Name>)
    requires ReadyOut(graph0, queue0)
    requires forall f | f in from :: f in graph0
    requires forall n | n in graph0 :: graph0[n].outdegree >= Count(from, n)
    ensures DroppedOut(graph0, graph, from) && ReadyOut(graph, queue) && queue0 <= queue
  {
    graph, queue := graph0, queue0;
    for k := 0 to |from|
      invariant DroppedOut(graph0, graph, from[..k]) && ReadyOut(graph, queue) && queue0 <= queue
    {
      var f := from[k];
      var parent := graph[f];
      assert from[..k + 1] == from[..k] + [f];
      CountAppend(from[..k], f);
      CountPrefix(from, k + 1, f);
      graph := graph[f := parent.(outdegree := parent.outdegree - 1)];
      if parent.outdegree - 1 == 0 {
        queue := queue + [f];
      }
    }
    assert from[..|from|] == from;
  }

  ghost predicate DroppedOut(graph0: map<Name, Node>, graph: map<Name, Node>, done: seq<Name>) {
    && graph.Keys == graph0.Keys
    && forall n | n in graph :: graph[n] == graph0[n].(outdegree := graph0[n].outdegree - Count(done, n))
  }

  lemma LeafIsPeeled(whole: map<Name, Node>, graph: map<Name, Node>, order: seq<Name>, name: Name)
    requires Trimming(whole, graph, order) && name in graph && graph[name].outdegree == 0
    ensures Distinct(order + [name]) && Peeled(Reverse(Listed(whole)), order + [name])
  {
    var E, next := Listed(whole), order + [name];
    OutDegreeFacts(ProxiesOf(graph[name]), graph.Keys);
    forall i, m | 0 <= i < |next| && (m, next[i]) in Reverse(E) ensures m in next[..i] {
      if i < |order| {
        assert next[..i] == order[..i];
        assert (m, order[i]) in Reverse(E);
      } else {
        assert next[..i] == order;
        ReverseEdge(E, m, name);
        assert m in whole;
      }
    }
  }

  lemma LargerParents(whole: map<Name, Node>, graph: map<Name, Node>, order: seq<Name>, name: Name)
    requires Trimming(whole, graph, order) && BackLinked(whole) && name in graph
    ensures forall f | f in graph[name].from :: f in graph
    ensures forall n | n in graph :: graph[n].outdegree >= Count(graph[name].from, n)
  {
    forall f | f in graph[name].from ensures f in graph {
      assert f in whole[name].from;
      CountPositive(whole[name].from, f);
      CountPositive(ProxiesOf(whole[f]), name);
      ReverseEdge(Listed(whole), name, f);
      if f in order {
        PeeledPredecessor(Reverse(Listed(whole)), order, name, f);
      }
    }
    forall n | n in graph ensures graph[n].outdegree >= Count(graph[name].from, n) {
      OutDegreeRemove(ProxiesOf(graph[n]), graph.Keys, name);
      assert Count(whole[name].from, n) == Count(ProxiesOf(whole[n]), name);
    }
  }

  lemma RemoveLeaf(whole: map<Name, Node>, before: map<Name, Node>, graph: map<Name, Node>, queue: seq<Name>,
                   order: seq<Name>, name: Name)
    requires Trimming(whole, before, order) && BackLinked(whole) && name in before && before[name].outdegree == 0
    requires Distinct(order + [name]) && Peeled(Reverse(Listed(whole)), order + [name])
    requires DroppedOut(before, graph, before[name].from)
    requires ReadyOut(graph, queue) && |queue| > 0 && queue[0] == name
    ensures Trimming(whole, graph - {name}, order + [name])
    ensures ReadyOut(graph - {name}, queue[1..])
  {
    var after := graph - {name};
    assert after.Keys == before.Keys - {name};
    forall n | n in after ensures after[n].outdegree == OutDegree(ProxiesOf(after[n]), after.Keys) {
      OutDegreeDropped(whole, before, order, name, n);
    }
    NextLeafReady(graph, queue);
  }

  /** Removing a leaf takes its listings off the outdegree of each group that makes them. */
  lemma OutDegreeDropped(whole: map<Name, Node>, graph: map<Name, Node>, order: seq<Name>, name: Name, n: Name)
    requires Trimming(whole, graph, order) && BackLinked(whole) && name in graph && n in graph
    ensures graph[n].outdegree - Count(graph[name].from, n) == OutDegree(ProxiesOf(graph[n]), graph.Keys - {name})
  {
    OutDegreeRemove(ProxiesOf(graph[n]), graph.Keys, name);
    assert Count(whole[name].from, n) == Count(ProxiesOf(whole[n]), name);
  }

  lemma NextLeafReady(graph: map<Name, Node>, queue: seq<Name>)
    requires ReadyOut(graph, queue) && queue != []
    ensures ReadyOut(graph - {queue[0]}, queue[1..])
  {
    assert forall k | 0 <= k < |queue[1..]| :: queue[1..][k] == queue[k + 1];
  }

  /** The names left in the map, in whatever order. */
  method KeysOf(graph: map<Name, Node>) returns (names: seq<Name>)
    ensures Distinct(names) && forall n :: n in names <==> n in graph
  {
    names := [];
    var rest := graph.Keys;
    while rest != {}
      invariant rest <= graph.Keys && Distinct(names)
      invariant forall n :: n in names <==> n in graph && n !in rest
    {
      var name :| name in rest;
      names, rest := names + [name], rest - {name};
    }
  }

  lemma StillListed(gs: seq<Group>, graph: map<Name, Node>, order: seq<Name>)
    requires Removing(gs, graph, order)
    ensures forall n, m | n in graph && m in ProxiesOf(graph[n]) :: m in graph
  {
    StillClosed(gs, graph, order);
    forall n, m | n in graph && m in ProxiesOf(graph[n]) ensures m in graph {
      EdgeOf(gs, n, m);
      assert (n, m).0 in graph.Keys;
    }
  }

  method LocateLoops(graph0: map<Name, Node>, ghost gs: seq<Group>, ghost order0: seq<Name>) returns (names: seq<Name>)
    requires Removing(gs, graph0, order0) && Fresh(graph0)
    requires forall n | n in graph0 :: graph0[n].indegree != 0
    ensures Distinct(names)
    ensures forall n :: n in names <==> FromCycle(EdgesOf(gs), n) && ToCycle(EdgesOf(gs), n)
    ensures graph0 != map[] ==> names != []
  {
    StillListed(gs, graph0, order0);
    var whole := LinkBack(graph0);
    StartTrimming(whole);
    var graph, order := Trim(whole);
    names := KeysOf(graph);
    TrimIsExact(gs, graph0, order0, whole, graph, order);
    if graph0 != map[] {
      var n :| n in graph0;
      LoopRemains(gs, graph0, order0, n);
    }
  }

  lemma StartTrimming(whole: map<Name, Node>)
    requires Linked(whole, map n | n in whole :: ProxiesOf(whole[n]))
    requires forall n, m | n in whole && m in ProxiesOf(whole[n]) :: m in whole
    ensures Trimming(whole, whole, []) && BackLinked(whole)
  {
    var L := map n | n in whole :: ProxiesOf(whole[n]);
    forall n | n in whole ensures whole[n].outdegree == OutDegree(ProxiesOf(whole[n]), whole.Keys) {
      assert NodeLinked(whole[n], L, n);
      OutDegreeFacts(ProxiesOf(whole[n]), whole.Keys);
    }
    forall n | n in whole
      ensures forall f {:trigger Count(whole[n].from, f)} | f in whole :: Count(whole[n].from, f) == Count(ProxiesOf(whole[f]), n)
      ensures forall f | f in whole[n].from :: f in whole
    {
      assert NodeLinked(whole[n], L, n);
    }
  }

  lemma StillStuck(gs: seq<Group>, graph: map<Name, Node>, order: seq<Name>)
    requires Removing(gs, graph, order)
    requires forall n | n in graph :: graph[n].indegree != 0
    ensures Stuck(EdgesOf(gs), graph.Keys)
  {
    forall n | n in graph.Keys ensures Fed(EdgesOf(gs), graph.Keys, n) {
      InDegreePositive(gs, graph.Keys, n);
      var i :| 0 <= i < |gs| && gs[i].name in graph.Keys && n in gs[i].proxies;
      EdgeOf(gs, gs[i].name, n);
    }
  }

  lemma LoopRemains(gs: seq<Group>, graph: map<Name, Node>, order: seq<Name>, n: Name)
    requires Removing(gs, graph, order) && n in graph
    requires forall n | n in graph :: graph[n].indegree != 0
    ensures exists c :: FromCycle(EdgesOf(gs), c) && ToCycle(EdgesOf(gs), c)
  {
    var E := EdgesOf(gs);
    StillStuck(gs, graph, order);
    StuckFromCycle(E, graph.Keys, n);
    var c :| c in graph.Keys && OnCycle(E, c);
    CycleBothWays(E, c);
  }

  lemma ListedIsRestriction(gs: seq<Group>, graph0: map<Name, Node>, order0: seq<Name>, whole: map<Name, Node>)
    requires Removing(gs, graph0, order0) && SameGroups(whole, graph0)
    ensures Listed(whole) == Restrict(EdgesOf(gs), graph0.Keys)
  {
    forall a, b ensures (a, b) in Listed(whole) <==> (a, b) in Restrict(EdgesOf(gs), graph0.Keys) {
      EdgeOf(gs, a, b);
      if (a, b) in Listed(whole) {
        assert graph0[a].data.value in gs;
      }
    }
  }

  lemma TrimIsExact(gs: seq<Group>, graph0: map<Name, Node>, order0: seq<Name>,
                    whole: map<Name, Node>, graph: map<Name, Node>, order: seq<Name>)
    requires Removing(gs, graph0, order0) && SameGroups(whole, graph0)
    requires forall n | n in graph0 :: graph0[n].indegree != 0
    requires Trimming(whole, graph, order)
    requires forall n | n in graph :: graph[n].outdegree != 0
    ensures forall n :: n in graph <==> FromCycle(EdgesOf(gs), n) && ToCycle(EdgesOf(gs), n)
  {
    var E := EdgesOf(gs);
    StillStuck(gs, graph0, order0);
    StillClosed(gs, graph0, order0);
    ListedIsRestriction(gs, graph0, order0, whole);
    TrimStuck(whole, graph, order);
    forall n ensures n in graph <==> FromCycle(E, n) && ToCycle(E, n) {
      if n in graph0 || n in order0 {
        PeelBothWays(E, order0, graph0.Keys, order, graph.Keys, n);
      } else if ToCycle(E, n) {
        ToCycleIsNode(gs, n);
      }
    }
  }

  lemma TrimStuck(whole: map<Name, Node>, graph: map<Name, Node>, order: seq<Name>)
    requires Trimming(whole, graph, order)
    requires forall n | n in graph :: graph[n].outdegree != 0
    ensures Stuck(Reverse(Listed(whole)), graph.Keys)
  {
    forall n | n in graph.Keys ensures Fed(Reverse(Listed(whole)), graph.Keys, n) {
      OutDegreeFacts(ProxiesOf(graph[n]), graph.Keys);
      var m :| m in ProxiesOf(graph[n]) && m in graph.Keys;
      ReverseEdge(Listed(whole), m, n);
    }
  }

  lemma ToCycleIsNode(gs: seq<Group>, n: Name)
    requires ToCycle(EdgesOf(gs), n)
    ensures n in Nodes(gs)
  {
    var E := EdgesOf(gs);
    var c :| Reaches(E, n, c) && OnCycle(E, c);
    var p :| WalkBetween(E, p, n, c);
    var q :| |q| > 1 && WalkBetween(E, q, c, c);
    var next := if |p| > 1 then p[1] else q[1];
    assert (n, next) in E;
    EdgeOf(gs, n, next);
  }

  /** Step by step: build the graph, peel it into the array, and on failure locate the loops. */
  method ProxyGroupsDagSort(groupsConfig: array<Group>) returns (r: SortResult)
    modifies groupsConfig
    ensures r.Duplicate? <==> !DistinctNames(old(groupsConfig[..]))
    ensures r.Duplicate? ==>
      && groupsConfig[..] == old(groupsConfig[..])
      && exists i, j :: 0 <= i < j < groupsConfig.Length && groupsConfig[i].name == groupsConfig[j].name == r.name
    ensures r.Sorted? <==> DistinctNames(old(groupsConfig[..])) && Acyclic(EdgesOf(old(groupsConfig[..])))
    ensures r.Sorted? ==>
      && multiset(groupsConfig[..]) == multiset(old(groupsConfig[..]))
      && DependencyOrdered(groupsConfig[..])
    ensures r.Loop? ==>
      && r.names != [] && Distinct(r.names)
      && forall n :: n in r.names <==>
           FromCycle(EdgesOf(old(groupsConfig[..])), n) && ToCycle(EdgesOf(old(groupsConfig[..])), n)
  {
    ghost var gs := groupsConfig[..];
    var duplicate, graph0 := BuildGraph(groupsConfig[..]);
    if duplicate.Some? {
      return Duplicate(duplicate.value);
    }
    var graph, order, placed := TopologicalPeel(groupsConfig, graph0);
    if graph == map[] {
      EmptyMeansAcyclic(gs, graph, order);
      AllPlaced(gs, groupsConfig[..], graph, order, placed);
      return Sorted;
    }
    ghost var n :| n in graph;
    StillStuck(gs, graph, order);
    StuckFromCycle(EdgesOf(gs), graph.Keys, n);
    var names := LocateLoops(graph, gs, order);
    return Loop(names);
  }

  lemma EmptyMeansAcyclic(gs: seq<Group>, graph: map<Name, Node>, order: seq<Name>)
    requires Removing(gs, graph, order) && graph == map[]
    ensures Acyclic(EdgesOf(gs))
  {
    var E := EdgesOf(gs);
    forall c | OnCycle(E, c) ensures false {
      CycleBothWays(E, c);
      ToCycleIsNode(gs, c);
      PeeledNotFromCycle(E, order, c);
    }
  }

  lemma AllPlaced(gs: seq<Group>, slots: seq<Group>, graph: map<Name, Node>, order: seq<Name>, placed: seq<Group>)
    requires Removing(gs, graph, order) && graph == map[] && Placed(gs, slots, order, placed)
    ensures multiset(slots) == multiset(gs) && DependencyOrdered(slots)
  {
    GroupsAreNodes(gs);
    assert (set g | g in placed) == (set g | g in gs);
    SetOfSeq(placed);
    SetOfSeq(gs);
    assert |placed| == |slots|;
    forall i, j | 0 <= i < |slots| && 0 <= j < |slots| && slots[j].name in slots[i].proxies ensures j < i {
      assert slots[i] == placed[|slots| - 1 - i] && slots[j] == placed[|slots| - 1 - j];
      if i == j {
        var k := |slots| - 1 - i;
        NoSelfListing(gs, order, placed[k]);
      }
    }
    ReversedMembers(slots, placed);
    SameMembers(slots, gs);
  }

  lemma ReversedMembers(slots: seq<Group>, placed: seq<Group>)
    requires |slots| == |placed| && Distinct(placed)
    requires forall k | 0 <= k < |placed| :: slots[|slots| - 1 - k] == placed[k]
    ensures Distinct(slots) && forall g :: g in slots <==> g in placed
  {
    forall i | 0 <= i < |slots| ensures slots[i] == placed[|slots| - 1 - i] {
      assert slots[|slots| - 1 - (|slots| - 1 - i)] == placed[|slots| - 1 - i];
    }
    forall g ensures g in slots <==> g in placed {
      if g in placed {
        var k :| 0 <= k < |placed| && placed[k] == g;
        assert slots[|slots| - 1 - k] == g;
      }
    }
  }

  lemma NoSelfListing(gs: seq<Group>, order: seq<Name>, g: Group)
    requires Peeled(EdgesOf(gs), order) && Distinct(order) && g in gs && g.name in order
    ensures g.name !in g.proxies
  {
    EdgeOf(gs, g.name, g.name);
  }

  lemma {:induction false} OccursOnce<T>(s: seq<T>, x: T)
    requires Distinct(s)
    ensures multiset(s)[x] == if x in s then 1 else 0
  {
    if s != [] {
      OccursOnce(s[1..], x);
      assert s == [s[0]] + s[1..];
    }
  }

  lemma SameMembers<T>(a: seq<T>, b: seq<T>)
    requires Distinct(a) && Distinct(b) && forall x :: x in a <==> x in b
    ensures multiset(a) == multiset(b)
  {
    forall x ensures multiset(a)[x] == multiset(b)[x] {
      OccursOnce(a, x);
      OccursOnce(b, x);
    }
  }

  // ----- building the groups in sorted order -----

  datatype BuildResult = Complete(proxies: set<Name>) | Missing(member: Name) | Taken(name: Name)

  /** Each group resolves its members among the proxies and groups built before it. On a dependency-ordered
      list with distinct names this succeeds exactly when every listed name exists at all. */
  method BuildGroups(groups: seq<Group>, base: set<Name>) returns (r: BuildResult)
    requires DependencyOrdered(groups) && DistinctNames(groups)
    ensures r.Complete? <==>
      && (forall i, m | 0 <= i < |groups| && m in groups[i].proxies :: m in base || exists j :: 0 <= j < |groups| && groups[j].name == m)
      && (forall i | 0 <= i < |groups| :: groups[i].name !in base)
    ensures r.Complete? ==> r.proxies == base + set i | 0 <= i < |groups| :: groups[i].name
    ensures r.Missing? ==> r.member !in base && forall j | 0 <= j < |groups| :: groups[j].name != r.member
    ensures r.Taken? ==> r.name in base && exists j :: 0 <= j < |groups| && groups[j].name == r.name
  {
    var proxies := base;
    for i := 0 to |groups|
      invariant proxies == base + set k | 0 <= k < i :: groups[k].name
      invariant forall k, m | 0 <= k < i && m in groups[k].proxies :: m in proxies
      invariant forall k | 0 <= k < i :: groups[k].name !in base
    {
      var list := groups[i].proxies;
      for k := 0 to |list|
        invariant forall m | m in list[..k] :: m in proxies
      {
        if list[k] !in proxies {
          assert list[k] in groups[i].proxies;
          return Missing(list[k]);
        }
      }
      assert list[..|list|] == list;
      if groups[i].name in proxies {
        return Taken(groups[i].name);
      }
      proxies := proxies + {groups[i].name};
    }
    return Complete(proxies);
  }
}
