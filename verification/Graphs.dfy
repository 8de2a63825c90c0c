/** Directed graphs of jobs to come: the order in which they can run, and their paths. */
module Graphs {
  import opened Sequences

  /** Every vertex with the set of its neighbours. */
  type Adjacency<V> = map<V, set<V>>

  ghost predicate EdgeClosed<V>(g: Adjacency<V>) {
    forall u :: u in g ==> g[u] <= g.Keys
  }

  /** The vertices that have an edge to `v`. */
  function Parents<V>(g: Adjacency<V>, v: V): set<V> {
    set u | u in g && v in g[u]
  }

  /** `p` goes from vertex to vertex along edges. */
  ghost predicate IsWalk<V>(g: Adjacency<V>, older p: seq<V>) {
    && (forall i :: 0 <= i < |p| ==> p[i] in g)
    && forall i :: 0 <= i < |p| - 1 ==> p[i + 1] in g[p[i]]
  }

  ghost predicate IsCycle<V>(g: Adjacency<V>, older p: seq<V>) {
    IsWalk(g, p) && |p| >= 2 && p[0] == p[|p| - 1]
  }

  ghost predicate Acyclic<V>(g: Adjacency<V>) {
    forall p :: !IsCycle(g, p)
  }

  /** Every vertex of `order` comes after all its parents. */
  ghost predicate ParentsFirst<V>(g: Adjacency<V>, order: seq<V>) {
    forall i {:trigger order[i]} :: 0 <= i < |order| ==> Parents(g, order[i]) <= AsSet(order[..i])
  }

  // ---------------------------------------------------------------- cycles

  /** A walk among vertices that all have a parent among them, as long as one likes. */
  lemma {:induction false} BackWalk<V>(g: Adjacency<V>, stuck: set<V>, n: nat) returns (p: seq<V>)
    requires stuck <= g.Keys && stuck != {}
    requires forall v :: v in stuck ==> Parents(g, v) * stuck != {}
    ensures |p| == n + 1 && IsWalk(g, p) && AsSet(p) <= stuck
  {
    if n == 0 {
      var v :| v in stuck;
      p := [v];
    } else {
      var rest := BackWalk(g, stuck, n - 1);
      assert rest[0] in AsSet(rest);
      var u :| u in Parents(g, rest[0]) * stuck;
      p := [u] + rest;
    }
  }

  /** If each vertex of a non-empty set has a parent in the set, there is a cycle. */
  lemma StuckMeansCycle<V>(g: Adjacency<V>, stuck: set<V>)
    requires stuck <= g.Keys && stuck != {}
    requires forall v :: v in stuck ==> Parents(g, v) * stuck != {}
    ensures !Acyclic(g)
  {
    var p := BackWalk(g, stuck, |stuck|);
    if NoDuplicates(p) {
      DistinctFit(p, stuck);
      assert false;
    }
    var i, k :| 0 <= i < k < |p| && p[i] == p[k];
    assert IsCycle(g, p[i..k + 1]);
  }

  /** Along a walk, the places in an order with parents first go up. */
  lemma {:induction false} WalkGoesUp<V>(g: Adjacency<V>, order: seq<V>, p: seq<V>, i: nat)
    requires ParentsFirst(g, order) && NoDuplicates(order) && IsWalk(g, p) && |p| >= 2
    requires i < |order| && order[i] == p[|p| - 1]
    ensures exists k :: 0 <= k < i && order[k] == p[0]
    decreases |p|
  {
    var u := p[|p| - 2];
    assert u in Parents(g, order[i]);
    var k :| 0 <= k < i && order[k] == u;
    if |p| > 2 {
      WalkGoesUp(g, order, p[..|p| - 1], k);
    }
  }

  /** An order of all vertices with parents first exists only without cycles. */
  lemma OrderMeansAcyclic<V>(g: Adjacency<V>, order: seq<V>)
    requires ParentsFirst(g, order) && NoDuplicates(order) && g.Keys <= AsSet(order)
    ensures Acyclic(g)
  {
    forall p | IsCycle(g, p) ensures false {
      var i :| 0 <= i < |order| && order[i] == p[0];
      WalkGoesUp(g, order, p, i);
    }
  }

  // ---------------------------------------------------------------- sorting

  /** `defaultdict(int)` */
  function Count<V>(m: map<V, int>, v: V): int {
    if v in m then m[v] else 0
  }

  /** Where the edges to `v` come from. */
  ghost function Sources<V>(links: seq<(V, V)>, v: V): set<V> {
    set e | e in links && e.1 == v :: e.0
  }

  method SomeOrder<V(==)>(s: set<V>) returns (r: seq<V>)
    ensures NoDuplicates(r) && AsSet(r) == s
  {
    r := [];
    var rest := s;
    while rest != {}
      invariant rest <= s && NoDuplicates(r) && AsSet(r) == s - rest
    {
      var v :| v in rest;
      AppendAsSet(r, v);
      r := r + [v];
      rest := rest - {v};
    }
  }

  lemma OneMoreSource<V>(links: seq<(V, V)>, i: nat, v: V)
    requires i < |links| && NoDuplicates(links)
    ensures |Sources(links[..i + 1], v)| == |Sources(links[..i], v)| + if v == links[i].1 then 1 else 0
  {
    var e, was := links[i], Sources(links[..i], v);
    assert links[..i + 1] == links[..i] + [e];
    if v == e.1 {
      assert Sources(links[..i + 1], v) == was + {e.0};
      assert e !in links[..i];
    } else {
      assert Sources(links[..i + 1], v) == was;
    }
  }

  ghost predicate CountsEdges<V>(g: Adjacency<V>, links: seq<(V, V)>, depends: map<V, int>) {
    forall v :: v in g ==> Count(depends, v) == |Sources(links, v)|
  }

  lemma OneMoreEdge<V>(g: Adjacency<V>, links: seq<(V, V)>, i: nat, depends: map<V, int>)
    requires i < |links| && NoDuplicates(links) && CountsEdges(g, links[..i], depends)
    ensures CountsEdges(g, links[..i + 1], depends[links[i].1 := Count(depends, links[i].1) + 1])
  {
    forall v | v in g
      ensures |Sources(links[..i + 1], v)| == |Sources(links[..i], v)| + if v == links[i].1 then 1 else 0
    {
      OneMoreSource(links, i, v);
    }
  }

  /** The parents of `v` that are not counted as yielded: for the nodes that are still to be
      decremented, those missing before the last vertex. */
  ghost function Missing<V>(g: Adjacency<V>, order: seq<V>, nodes: set<V>, before: seq<V>, v: V): set<V> {
    Parents(g, v) - AsSet(if v in nodes then before else order)
  }

  ghost predicate NodeCounted<V>(g: Adjacency<V>, order: seq<V>, queue: seq<V>, nodes: set<V>, before: seq<V>,
      depends: map<V, int>, v: V) {
    && Count(depends, v) == |Missing(g, order, nodes, before, v)|
    && (v in AsSet(order + queue) <==> Missing(g, order, nodes, before, v) == {})
  }

  /** What holds in the loops of the sort: the counters are right, and a vertex is in the order or
      in the queue exactly when none of its parents is missing. */
  ghost predicate Sorting<V>(g: Adjacency<V>, order: seq<V>, queue: seq<V>, nodes: set<V>, before: seq<V>,
      depends: map<V, int>) {
    && NoDuplicates(order + queue) && AsSet(order + queue) <= g.Keys
    && ParentsFirst(g, order)
    && forall v :: v in g ==> NodeCounted(g, order, queue, nodes, before, depends, v)
  }

  lemma StartSorting<V>(g: Adjacency<V>, queue: seq<V>, depends: map<V, int>)
    requires NoDuplicates(queue) && AsSet(queue) == set v | v in g && Parents(g, v) == {}
    requires forall v :: v in g ==> Count(depends, v) == |Parents(g, v)|
    ensures Sorting(g, [], queue, {}, [], depends)
  {
    assert [] + queue == queue;
    forall v | v in g ensures NodeCounted(g, [], queue, {}, [], depends, v) {
      assert Missing(g, [], {}, [], v) == Parents(g, v);
    }
  }

  lemma FrontIsNew<V>(order: seq<V>, queue: seq<V>)
    requires NoDuplicates(order + queue) && queue != []
    ensures queue[0] !in AsSet(order) && queue[0] in AsSet(order + queue)
  {
    assert (order + queue)[|order|] == queue[0];
    forall k | 0 <= k < |order| ensures order[k] != queue[0] {
      assert (order + queue)[k] == order[k];
    }
  }

  lemma NextStaysCounted<V>(g: Adjacency<V>, order: seq<V>, queue: seq<V>, depends: map<V, int>, v: V)
    requires queue != [] && queue[0] in g && v in g && NodeCounted(g, order, queue, {}, order, depends, v)
    ensures NodeCounted(g, order + [queue[0]], queue[1..], g[queue[0]], order, depends, v)
  {
    AppendAsSet(order, queue[0]);
    assert order + [queue[0]] + queue[1..] == order + queue;
    assert Missing(g, order + [queue[0]], g[queue[0]], order, v) == Missing(g, order, {}, order, v);
  }

  lemma NextVertex<V>(g: Adjacency<V>, order: seq<V>, queue: seq<V>, depends: map<V, int>)
    requires EdgeClosed(g) && Sorting(g, order, queue, {}, order, depends) && queue != []
    ensures queue[0] in g && queue[0] !in AsSet(order)
    ensures Sorting(g, order + [queue[0]], queue[1..], g[queue[0]], order, depends)
  {
    hide EdgeClosed, ParentsFirst, NoDuplicates;
    var vertex := queue[0];
    var order', queue' := order + [vertex], queue[1..];
    assert order' + queue' == order + queue;
    assert (order + queue)[|order|] == vertex;
    assert vertex in AsSet(order + queue);
    assert NodeCounted(g, order, queue, {}, order, depends, vertex);
    FrontIsNew(order, queue);
    AppendAsSet(order, vertex);
    assert Missing(g, order, {}, order, vertex) == {};
    ParentsStayFirst(g, order, vertex);
    forall v | v in g ensures NodeCounted(g, order', queue', g[vertex], order, depends, v) {
      NextStaysCounted(g, order, queue, depends, v);
    }
  }

  lemma ParentsStayFirst<V>(g: Adjacency<V>, order: seq<V>, v: V)
    requires ParentsFirst(g, order) && Parents(g, v) <= AsSet(order)
    ensures ParentsFirst(g, order + [v])
  {
    var more := order + [v];
    forall i | 0 <= i < |more| ensures Parents(g, more[i]) <= AsSet(more[..i]) {
      assert more[..i] == order[..i];
      if i == |order| {
        assert order[..i] == order;
      } else {
        assert more[i] == order[i];
      }
    }
  }

  lemma StaysDistinct<V>(order: seq<V>, queue: seq<V>, node: V)
    requires NoDuplicates(order + queue) && node !in AsSet(order + queue)
    ensures NoDuplicates(order + (queue + [node]))
  {
    assert order + (queue + [node]) == order + queue + [node];
  }

  lemma OtherStaysCounted<V>(g: Adjacency<V>, order: seq<V>, queue: seq<V>, queue': seq<V>, nodes: set<V>,
      before: seq<V>, depends: map<V, int>, node: V, v: V)
    requires NodeCounted(g, order, queue, nodes, before, depends, v) && v != node
    requires queue' == queue || queue' == queue + [node]
    ensures NodeCounted(g, order, queue', nodes - {node}, before, depends[node := Count(depends, node) - 1], v)
  {
    AppendAsSet(order + queue, node);
    assert order + (queue + [node]) == order + queue + [node];
    assert Missing(g, order, nodes - {node}, before, v) == Missing(g, order, nodes, before, v);
  }

  lemma DecrementedIsCounted<V>(g: Adjacency<V>, before: seq<V>, vertex: V, queue: seq<V>, nodes: set<V>,
      depends: map<V, int>, node: V)
    requires NodeCounted(g, before + [vertex], queue, nodes, before, depends, node)
    requires node in nodes && vertex in Parents(g, node) && vertex !in AsSet(before)
    ensures var less := depends[node := Count(depends, node) - 1];
            var more := if less[node] == 0 then queue + [node] else queue;
            && node !in AsSet(before + [vertex] + queue)
            && NodeCounted(g, before + [vertex], more, nodes - {node}, before, less, node)
  {
    var order := before + [vertex];
    AppendAsSet(before, vertex);
    AppendAsSet(order + queue, node);
    assert order + (queue + [node]) == order + queue + [node];
    assert Missing(g, order, nodes - {node}, before, node) == Missing(g, order, nodes, before, node) - {vertex};
    assert vertex in Missing(g, order, nodes, before, node);
  }

  lemma Decrement<V>(g: Adjacency<V>, before: seq<V>, vertex: V, queue: seq<V>, nodes: set<V>, depends: map<V, int>,
      node: V)
    requires EdgeClosed(g) && Sorting(g, before + [vertex], queue, nodes, before, depends) && vertex !in AsSet(before)
    requires node in nodes && vertex in g && nodes <= g[vertex]
    ensures var less := depends[node := Count(depends, node) - 1];
            var more := if less[node] == 0 then queue + [node] else queue;
            Sorting(g, before + [vertex], more, nodes - {node}, before, less)
  {
    hide ParentsFirst, NoDuplicates, NodeCounted;
    var order := before + [vertex];
    var less := depends[node := Count(depends, node) - 1];
    var queue' := if less[node] == 0 then queue + [node] else queue;
    assert node in g && NodeCounted(g, order, queue, nodes, before, depends, node);
    DecrementedIsCounted(g, before, vertex, queue, nodes, depends, node);
    StaysDistinct(order, queue, node);
    forall v | v in g ensures NodeCounted(g, order, queue', nodes - {node}, before, less, v) {
      if v != node {
        OtherStaysCounted(g, order, queue, queue', nodes, before, depends, node, v);
      }
    }
  }

  lemma NoneWaits<V>(g: Adjacency<V>, order: seq<V>, queue: seq<V>, before: seq<V>, depends: map<V, int>)
    requires Sorting(g, order, queue, {}, before, depends)
    ensures Sorting(g, order, queue, {}, order, depends)
  {
    forall v | v in g ensures NodeCounted(g, order, queue, {}, order, depends, v) {
      assert NodeCounted(g, order, queue, {}, before, depends, v);
    }
  }

  lemma Sorted<V>(g: Adjacency<V>, order: seq<V>, depends: map<V, int>)
    requires EdgeClosed(g) && Sorting(g, order, [], {}, order, depends)
    ensures NoDuplicates(order) && AsSet(order) <= g.Keys && ParentsFirst(g, order)
    ensures AsSet(order) == g.Keys <==> Acyclic(g)
  {
    assert order + [] == order;
    if AsSet(order) == g.Keys {
      OrderMeansAcyclic(g, order);
    } else {
      var stuck := g.Keys - AsSet(order);
      forall v | v in stuck ensures Parents(g, v) * stuck != {} {
        assert NodeCounted(g, order, [], {}, order, depends, v);
        var u :| u in Missing(g, order, {}, order, v);
        assert u in Parents(g, v) * stuck;
      }
      StuckMeansCycle(g, stuck);
    }
  }

  function WithEdge<V>(g: Adjacency<V>, parent: V, child: V): Adjacency<V> {
    var h := if child in g then g else g[child := {}];
    h[parent := (if parent in h then h[parent] else {}) + {child}]
  }

  // ---------------------------------------------------------------- paths

  /** `p` starts with `path`, visits no vertex twice and cannot be continued without doing so. */
  ghost predicate IsMaximalPath<V>(g: Adjacency<V>, older p: seq<V>, path: seq<V>) {
    && IsWalk(g, p) && NoDuplicates(p)
    && path != [] && path <= p
    && g[p[|p| - 1]] <= AsSet(p)
  }

  /** A walk without repeats, with its vertices. */
  ghost predicate IsTraversed<V>(g: Adjacency<V>, path: seq<V>, seen: set<V>) {
    path != [] && IsWalk(g, path) && NoDuplicates(path) && seen == AsSet(path)
  }

  lemma Traverses<V>(g: Adjacency<V>, path: seq<V>, seen: set<V>, n: V)
    requires EdgeClosed(g) && IsTraversed(g, path, seen) && n in g[path[|path| - 1]] && n !in seen
    ensures IsTraversed(g, path + [n], seen + {n}) && n in g
    ensures (path + [n])[..|path + [n]| - 1] == path && seen + {n} - {n} == seen
  {
    AppendAsSet(path, n);
    var p := path + [n];
    assert forall i :: 0 <= i < |path| ==> p[i] == path[i];
    assert p[|path| - 1] == path[|path| - 1];
  }

  lemma ContinuesWith<V>(g: Adjacency<V>, path: seq<V>, n: V, p: seq<V>)
    requires path != []
    ensures IsMaximalPath(g, p, path + [n]) <==> IsMaximalPath(g, p, path) && |p| > |path| && p[|path|] == n
  {
    if path <= p && |p| > |path| && p[|path|] == n {
      assert p[..|path| + 1] == path + [n];
    }
    if path + [n] <= p {
      assert p[..|path|] == path && p[|path|] == n;
    }
  }

  /** The next vertex of a continuation is a neighbour that was not visited. */
  lemma NextIsUnseen<V>(g: Adjacency<V>, path: seq<V>, seen: set<V>, p: seq<V>)
    requires IsTraversed(g, path, seen) && IsMaximalPath(g, p, path) && |p| > |path|
    ensures p[|path|] in g[path[|path| - 1]] && p[|path|] !in seen
  {
    assert p[|path| - 1] == path[|path| - 1];
    assert forall i :: 0 <= i < |path| ==> path[i] == p[i];
  }

  /** The walk itself is maximal exactly at a dead end, and then nothing continues it. */
  lemma DeadEnd<V>(g: Adjacency<V>, path: seq<V>, seen: set<V>)
    requires IsTraversed(g, path, seen)
    ensures IsMaximalPath(g, path, path) <==> g[path[|path| - 1]] <= seen
    ensures forall p :: IsMaximalPath(g, p, path) ==> if |p| == |path| then p == path else |p| > |path|
  {
    forall p | IsMaximalPath(g, p, path) && |p| == |path| ensures p == path {
      assert p == p[..|path|];
    }
  }

  /** The maximal paths through the neighbours that the search is done with. */
  ghost predicate FoundThrough<V>(g: Adjacency<V>, path: seq<V>, neighbours: set<V>, paths: seq<seq<V>>) {
    && NoDuplicates(paths)
    && (forall p :: p in paths ==> IsThrough(g, p, path, neighbours))
    && (forall p :: IsThrough(g, p, path, neighbours) ==> p in paths)
  }

  ghost predicate IsThrough<V>(g: Adjacency<V>, older p: seq<V>, path: seq<V>, neighbours: set<V>) {
    IsMaximalPath(g, p, path) && |p| > |path| && p[|path|] !in neighbours
  }

  lemma SeenAddsNone<V>(g: Adjacency<V>, path: seq<V>, seen: set<V>, neighbours: set<V>, paths: seq<seq<V>>, n: V)
    requires IsTraversed(g, path, seen) && FoundThrough(g, path, neighbours, paths) && n in neighbours && n in seen
    ensures FoundThrough(g, path, neighbours - {n}, paths)
  {
    hide NoDuplicates, IsMaximalPath, IsTraversed;
    forall p | IsThrough(g, p, path, neighbours - {n}) ensures p in paths {
      NextIsUnseen(g, path, seen, p);
      assert IsThrough(g, p, path, neighbours);
    }
    forall p | p in paths ensures IsThrough(g, p, path, neighbours - {n}) {
      assert IsThrough(g, p, path, neighbours);
    }
  }

  lemma BranchAdds<V>(g: Adjacency<V>, path: seq<V>, neighbours: set<V>, paths: seq<seq<V>>, n: V, more: seq<seq<V>>)
    requires path != [] && FoundThrough(g, path, neighbours, paths) && n in neighbours && NoDuplicates(more)
    requires forall p :: p in more <==> IsMaximalPath(g, p, path + [n])
    ensures FoundThrough(g, path, neighbours - {n}, paths + more)
  {
    hide IsMaximalPath;
    forall p ensures p in more <==> IsMaximalPath(g, p, path) && |p| > |path| && p[|path|] == n {
      ContinuesWith(g, path, n, p);
    }
    forall p | p in paths + more ensures IsThrough(g, p, path, neighbours - {n}) {
      assert p in paths ==> IsThrough(g, p, path, neighbours);
    }
    forall p | IsThrough(g, p, path, neighbours - {n}) ensures p in paths + more {
      assert p[|path|] != n ==> IsThrough(g, p, path, neighbours);
    }
    forall p | p in paths ensures p !in more {
      assert IsThrough(g, p, path, neighbours);
    }
    DistinctTogether(paths, more);
  }

  lemma AllFound<V>(g: Adjacency<V>, path: seq<V>, seen: set<V>, paths: seq<seq<V>>)
    requires IsTraversed(g, path, seen) && FoundThrough(g, path, {}, paths)
    ensures var all := if g[path[|path| - 1]] <= seen then paths + [path] else paths;
            NoDuplicates(all) && forall p :: p in all <==> IsMaximalPath(g, p, path)
  {
    hide IsMaximalPath, IsTraversed;
    DeadEnd(g, path, seen);
    forall p | p in paths ensures IsMaximalPath(g, p, path) && |p| > |path| {
      assert IsThrough(g, p, path, {});
    }
    forall p | IsMaximalPath(g, p, path) && |p| > |path| ensures p in paths {
      assert IsThrough(g, p, path, {});
    }
  }

  /** `paths`: the search with the path traversed so far and the vertices in it. */
  class PathSearch<V(==)> {
    const graph: Adjacency<V>
    var path: seq<V>
    var seen: set<V>

    constructor (graph: Adjacency<V>, vertex: V)
      requires EdgeClosed(graph) && vertex in graph
      ensures this.graph == graph && path == [vertex] && IsTraversed(graph, path, seen)
    {
      this.graph, path, seen := graph, [vertex], {vertex};
    }

    /** Yields the maximal paths that continue the present one, each once, and restores it. */
    method Search() returns (paths: seq<seq<V>>)
      requires EdgeClosed(graph) && IsTraversed(graph, path, seen)
      modifies this
      ensures path == old(path) && seen == old(seen)
      ensures NoDuplicates(paths)
      ensures forall p :: p in paths <==> IsMaximalPath(graph, p, path)
      decreases graph.Keys - seen
    {
      hide NoDuplicates, IsMaximalPath, IsTraversed, EdgeClosed, FoundThrough;
      paths := [];
      var deadEnd := true;
      ghost var start, visited := path, seen;
      LastIsVertex(graph, path, seen);
      var neighbours := graph[path[|path| - 1]];
      NothingFound(graph, path, seen);
      while neighbours != {}
        invariant path == start && seen == visited
        invariant neighbours <= graph[path[|path| - 1]]
        invariant deadEnd <==> graph[path[|path| - 1]] <= seen + neighbours
        invariant FoundThrough(graph, path, neighbours, paths)
      {
        var neighbour :| neighbour in neighbours;
        if neighbour !in seen {
          deadEnd := false;
          Traverses(graph, path, seen, neighbour);
          seen := seen + {neighbour};
          path := path + [neighbour];
          var more := Search();
          BranchAdds(graph, start, neighbours, paths, neighbour, more);
          paths := paths + more;
          path := path[..|path| - 1];
          seen := seen - {neighbour};
        } else {
          SeenAddsNone(graph, path, seen, neighbours, paths, neighbour);
        }
        neighbours := neighbours - {neighbour};
      }
      AllFound(graph, path, seen, paths);
      if deadEnd {
        paths := paths + [path];
      }
    }
  }

  lemma LastIsVertex<V>(g: Adjacency<V>, path: seq<V>, seen: set<V>)
    requires IsTraversed(g, path, seen)
    ensures path != [] && path[|path| - 1] in g
  {
  }

  lemma NothingFound<V>(g: Adjacency<V>, path: seq<V>, seen: set<V>)
    requires IsTraversed(g, path, seen)
    ensures FoundThrough(g, path, g[path[|path| - 1]], [])
  {
    forall p | IsMaximalPath(g, p, path) && |p| > |path| ensures p[|path|] in g[path[|path| - 1]] {
      NextIsUnseen(g, path, seen, p);
    }
  }

  // ---------------------------------------------------------------- the graph

  class Graph<V(==)> {
    var graph: Adjacency<V>

    constructor ()
      ensures graph == map[]
    {
      graph := map[];
    }

    method AddVertex(vertex: V)
      modifies this
      ensures graph == if vertex in old(graph) then old(graph) else old(graph)[vertex := {}]
    {
      if vertex !in graph {
        graph := graph[vertex := {}];
      }
    }

    /** Adds the edge, with both its ends; the graph stays closed. */
    method AddEdge(parent: V, child: V)
      modifies this
      ensures old(EdgeClosed(graph)) ==> EdgeClosed(graph)
      ensures graph.Keys == old(graph).Keys + {parent, child}
      ensures forall u :: u in graph ==>
                graph[u] == (if u in old(graph) then old(graph)[u] else {}) + if u == parent then {child} else {}
      ensures graph == WithEdge(old(graph), parent, child)
    {
      AddVertex(child);
      graph := graph[parent := (if parent in graph then graph[parent] else {}) + {child}];
    }

    method Edges() returns (links: seq<(V, V)>)
      ensures NoDuplicates(links)
      ensures forall u, v :: (u, v) in links <==> u in graph && v in graph[u]
    {
      links := [];
      var vertices := graph.Keys;
      while vertices != {}
        invariant vertices <= graph.Keys && NoDuplicates(links)
        invariant forall e :: e in links <==> e.0 in graph && e.0 !in vertices && e.1 in graph[e.0]
      {
        var vertex :| vertex in vertices;
        var neighbours := graph[vertex];
        while neighbours != {}
          invariant neighbours <= graph[vertex] && NoDuplicates(links)
          invariant forall e :: e in links <==>
                      e.0 in graph && e.1 in graph[e.0] && (e.0 !in vertices || (e.0 == vertex && e.1 !in neighbours))
        {
          var neighbour :| neighbour in neighbours;
          links := links + [(vertex, neighbour)];
          neighbours := neighbours - {neighbour};
        }
        vertices := vertices - {vertex};
      }
    }

    /** The vertices that depend on no other. */
    method RootVertices() returns (roots: set<V>)
      ensures roots == set v | v in graph && Parents(graph, v) == {}
    {
      var dependencies: set<V> := {};
      var vertices := graph.Keys;
      while vertices != {}
        invariant vertices <= graph.Keys
        invariant forall v :: v in dependencies <==> exists u :: u in graph && u !in vertices && v in graph[u]
      {
        var vertex :| vertex in vertices;
        dependencies := dependencies + graph[vertex];
        vertices := vertices - {vertex};
      }
      roots := graph.Keys - dependencies;
      forall v | v in graph ensures v in dependencies <==> Parents(graph, v) != {} {
        if v in dependencies {
          var u :| u in graph && v in graph[u];
          assert u in Parents(graph, v);
        }
      }
    }

    /** How many edges lead to each vertex. */
    method DependsPerNode() returns (depends: map<V, int>)
      ensures forall v :: v in graph ==> Count(depends, v) == |Parents(graph, v)|
    {
      depends := map[];
      var links := Edges();
      for i := 0 to |links|
        invariant CountsEdges(graph, links[..i], depends)
      {
        var tail := links[i].1;
        OneMoreEdge(graph, links, i, depends);
        depends := depends[tail := Count(depends, tail) + 1];
      }
      assert links[..|links|] == links;
      forall v | v in graph ensures Sources(links, v) == Parents(graph, v) {
        assert forall u :: u in Sources(links, v) <==> (u, v) in links;
      }
    }

    /** Yields every vertex once all its parents have been yielded. The graph may have cycles: then
        some vertices are not yielded. */
    method TopologicalSort() returns (order: seq<V>)
      requires EdgeClosed(graph)
      ensures NoDuplicates(order) && AsSet(order) <= graph.Keys
      ensures ParentsFirst(graph, order)
      ensures AsSet(order) == graph.Keys <==> Acyclic(graph)
    {
      order := [];
      var depends := DependsPerNode();
      var roots := RootVertices();
      var queue := SomeOrder(roots);
      StartSorting(graph, queue, depends);
      while queue != []
        invariant Sorting(graph, order, queue, {}, order, depends)
        decreases graph.Keys - AsSet(order)
      {
        var vertex := queue[0];
        ghost var before := order;
        NextVertex(graph, order, queue, depends);
        queue := queue[1..];
        order := order + [vertex];
        var nodes := graph[vertex];
        while nodes != {}
          invariant nodes <= graph[vertex] && vertex in graph
          invariant Sorting(graph, order, queue, nodes, before, depends)
        {
          var node :| node in nodes;
          Decrement(graph, before, vertex, queue, nodes, depends, node);
          depends := depends[node := Count(depends, node) - 1];
          if depends[node] == 0 {
            queue := queue + [node];
          }
          nodes := nodes - {node};
        }
        NoneWaits(graph, order, queue, before, depends);
        assert vertex in AsSet(order);
      }
      Sorted(graph, order, depends);
    }

    /** The maximal paths without repeats that start at a vertex. */
    method Paths(vertex: V) returns (paths: seq<seq<V>>)
      requires EdgeClosed(graph) && vertex in graph
      ensures NoDuplicates(paths)
      ensures forall p :: p in paths <==>
                IsWalk(graph, p) && NoDuplicates(p) && p != [] && p[0] == vertex && graph[p[|p| - 1]] <= AsSet(p)
    {
      var search := new PathSearch(graph, vertex);
      paths := search.Search();
    }
  }
}
