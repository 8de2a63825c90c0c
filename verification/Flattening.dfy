/** How the small graphs of delayables, chains and groups become one graph of delayables. */
module Flattening {
  import opened Graphs
  import opened Delays

  /** The graph of every vertex in sight. */
  type World = map<Vertex, Adjacency<Vertex>>

  ghost predicate AllFormed(g: Adjacency<Vertex>) {
    EdgeClosed(g) && forall u :: u in g ==> Formed(u)
  }

  /** The vertex's graph holds what the vertex was made of, in order. */
  ghost predicate HoldsMembers(v: Vertex, g: Adjacency<Vertex>) {
    && (forall m :: m in v.members ==> m in g)
    && (v.shape.Delayable? ==> v in g)
    && (v.shape.Chain? ==> forall i {:trigger v.members[i]} :: 0 <= i < |v.members| - 1 ==>
        v.members[i] in g && v.members[i + 1] in g[v.members[i]])
  }

  ghost predicate VertexOk(w: World, v: Vertex)
    requires v in w
  {
    Formed(v) && w[v].Keys <= w.Keys && AllFormed(w[v]) && HoldsMembers(v, w[v])
  }

  ghost predicate IsWorld(w: World) {
    forall v :: v in w ==> VertexOk(w, v)
  }

  /** From a vertex to the vertices of its graph. */
  ghost function Inside(w: World): Adjacency<Vertex> {
    map v | v in w :: w[v].Keys
  }

  ghost predicate Reached(w: World, start: Vertex, older v: Vertex) {
    exists p :: IsWalk(Inside(w), p) && p != [] && p[0] == start && p[|p| - 1] == v
  }

  ghost function Reach(w: World, start: Vertex): set<Vertex> {
    set v | v in w && Reached(w, start, v)
  }

  lemma StartIsReached(w: World, start: Vertex)
    requires start in w
    ensures start in Reach(w, start)
  {
    assert IsWalk(Inside(w), [start]);
  }

  lemma NextIsReached(w: World, start: Vertex, v: Vertex, u: Vertex)
    requires IsWorld(w) && v in Reach(w, start) && u in w[v]
    ensures u in Reach(w, start)
  {
    assert VertexOk(w, v);
    var p :| IsWalk(Inside(w), p) && p != [] && p[0] == start && p[|p| - 1] == v;
    var q := p + [u];
    assert IsWalk(Inside(w), q) && q[0] == start && q[|q| - 1] == u;
  }

  lemma {:induction false} ClosedHoldsWalk(w: World, s: set<Vertex>, p: seq<Vertex>)
    requires IsWalk(Inside(w), p) && p != [] && p[0] in s && s <= w.Keys
    requires forall v :: v in s ==> w[v].Keys <= s
    ensures p[|p| - 1] in s
  {
    if |p| <= 1 {
    } else {
      ClosedHoldsWalk(w, s, p[..|p| - 1]);
    }
  }

  /** The reached vertices are the least set that has the start and is closed. */
  lemma ReachIsLeast(w: World, start: Vertex, s: set<Vertex>)
    requires IsWorld(w) && start in s && s <= Reach(w, start)
    requires forall v :: v in s ==> w[v].Keys <= s
    ensures s == Reach(w, start)
  {
    forall v | v in Reach(w, start) ensures v in s {
      var p :| IsWalk(Inside(w), p) && p != [] && p[0] == start && p[|p| - 1] == v;
      ClosedHoldsWalk(w, s, p);
    }
  }

  // ---------------------------------------------------------------- merging

  ghost function Behind(g: Adjacency<Vertex>, t: Vertex): set<Vertex> {
    if t in g then g[t] else {}
  }

  /** The tails of the vertices in `us`. */
  ghost function TailsOfSome(g: Adjacency<Vertex>, us: set<Vertex>): set<Vertex>
    requires AllFormed(g) && us <= g.Keys
  {
    set u, t | u in us && t in Tails(u) :: t
  }

  /** The heads of what is linked behind a vertex in `us` of which `t` is a tail. */
  ghost function HeadsAfterSome(g: Adjacency<Vertex>, us: set<Vertex>, t: Vertex): set<Vertex>
    requires AllFormed(g) && us <= g.Keys
  {
    set u, n, h | u in us && n in g[u] && t in Tails(u) && h in Heads(n) :: h
  }

  ghost function MergeSome(m: Adjacency<Vertex>, g: Adjacency<Vertex>, us: set<Vertex>): Adjacency<Vertex>
    requires AllFormed(g) && us <= g.Keys
  {
    map t | t in m.Keys + TailsOfSome(g, us) :: Behind(m, t) + HeadsAfterSome(g, us, t)
  }

  /** The tails of the vertices of `g`, and the heads of what is linked behind such a tail. */
  ghost function TailsOf(g: Adjacency<Vertex>): set<Vertex>
    requires AllFormed(g)
  {
    TailsOfSome(g, g.Keys)
  }

  ghost function HeadsAfter(g: Adjacency<Vertex>, t: Vertex): set<Vertex>
    requires AllFormed(g)
  {
    HeadsAfterSome(g, g.Keys, t)
  }

  ghost function Merge(m: Adjacency<Vertex>, g: Adjacency<Vertex>): Adjacency<Vertex>
    requires AllFormed(g)
  {
    MergeSome(m, g, g.Keys)
  }

  function AllHeads(vs: set<Vertex>): set<Vertex>
    requires forall n :: n in vs ==> Formed(n)
  {
    set n, h | n in vs && h in Heads(n) :: h
  }

  /** These tails get these heads behind them. */
  ghost function Widen(m: Adjacency<Vertex>, tails: set<Vertex>, heads: set<Vertex>): Adjacency<Vertex> {
    map t | t in m.Keys + tails :: if t in tails then Behind(m, t) + heads else m[t]
  }

  /** `_merge_graph` */
  method MergeGraph(into: Graph<Vertex>, graph: Graph<Vertex>)
    requires into != graph && AllFormed(graph.graph)
    modifies into
    ensures into.graph == Merge(old(into.graph), graph.graph)
  {
    hide MergeSome, Widen;
    ghost var m, g := into.graph, graph.graph;
    var vertices := graph.graph.Keys;
    MergeNone(m, g);
    assert g.Keys - vertices == {};
    while vertices != {}
      invariant vertices <= g.Keys && into.graph == MergeSome(m, g, g.Keys - vertices)
    {
      var vertex :| vertex in vertices;
      var neighbours := graph.graph[vertex];
      assert forall n :: n in neighbours ==> n in g && Formed(n);
      var heads := AllHeads(neighbours);
      Connect(into, Tails(vertex), heads);
      MergeOneMore(m, g, g.Keys - vertices, vertex, heads);
      assert g.Keys - (vertices - {vertex}) == g.Keys - vertices + {vertex};
      vertices := vertices - {vertex};
    }
    assert g.Keys - vertices == g.Keys;
  }

  method Connect(into: Graph<Vertex>, tails: set<Vertex>, heads: set<Vertex>)
    modifies into
    ensures into.graph == Widen(old(into.graph), tails, heads)
  {
    ghost var m := into.graph;
    var rest := tails;
    assert Widen(m, tails - rest, heads) == m;
    while rest != {}
      invariant rest <= tails && into.graph == Widen(m, tails - rest, heads)
    {
      var tail :| tail in rest;
      into.graph := into.graph[tail := (if tail in into.graph then into.graph[tail] else {}) + heads];
      assert tails - (rest - {tail}) == tails - rest + {tail};
      rest := rest - {tail};
    }
    assert tails - rest == tails;
  }

  lemma MergeNone(m: Adjacency<Vertex>, g: Adjacency<Vertex>)
    requires AllFormed(g)
    ensures MergeSome(m, g, {}) == m
  {
    assert TailsOfSome(g, {}) == {};
    forall t | t in m ensures MergeSome(m, g, {})[t] == m[t] {
      assert HeadsAfterSome(g, {}, t) == {};
    }
  }

  lemma OneMoreTail(g: Adjacency<Vertex>, us: set<Vertex>, u: Vertex, heads: set<Vertex>, t: Vertex)
    requires AllFormed(g) && us <= g.Keys && u in g
    requires heads == AllHeads(g[u])
    ensures HeadsAfterSome(g, us + {u}, t) == HeadsAfterSome(g, us, t) + if t in Tails(u) then heads else {}
    ensures t in TailsOfSome(g, us + {u}) <==> t in TailsOfSome(g, us) || t in Tails(u)
    ensures t !in TailsOfSome(g, us) ==> HeadsAfterSome(g, us, t) == {}
  {
    var more := us + {u};
    forall h | h in HeadsAfterSome(g, us, t) ensures h in HeadsAfterSome(g, more, t) && t in TailsOfSome(g, us) {
      var v, n :| v in us && n in g[v] && t in Tails(v) && h in Heads(n);
      assert v in more;
    }
    forall h | h in HeadsAfterSome(g, more, t) ensures h in HeadsAfterSome(g, us, t) || (t in Tails(u) && h in heads) {
      var v, n :| v in more && n in g[v] && t in Tails(v) && h in Heads(n);
    }
    if t in Tails(u) {
      forall h | h in heads ensures h in HeadsAfterSome(g, more, t) {
        var n :| n in g[u] && h in Heads(n);
        assert u in more;
      }
    }
  }

  lemma MergeOneMore(m: Adjacency<Vertex>, g: Adjacency<Vertex>, us: set<Vertex>, u: Vertex, heads: set<Vertex>)
    requires AllFormed(g) && us <= g.Keys && u in g
    requires heads == AllHeads(g[u])
    ensures Widen(MergeSome(m, g, us), Tails(u), heads) == MergeSome(m, g, us + {u})
  {
    hide HeadsAfterSome, TailsOfSome;
    var one, all := Widen(MergeSome(m, g, us), Tails(u), heads), MergeSome(m, g, us + {u});
    var ts :| ts == one.Keys + all.Keys;
    forall t | t in ts ensures t in one && t in all && one[t] == all[t] {
      OneMoreTail(g, us, u, heads, t);
    }
  }

  // ---------------------------------------------------------------- the whole graph

  ghost function AllTails(w: World, s: set<Vertex>): set<Vertex>
    requires IsWorld(w) && s <= w.Keys
  {
    set v, t | v in s && t in TailsOf(w[v]) :: t
  }

  ghost function AllHeadsAfter(w: World, s: set<Vertex>, t: Vertex): set<Vertex>
    requires IsWorld(w) && s <= w.Keys
  {
    set v, h | v in s && h in HeadsAfter(w[v], t) :: h
  }

  /** The graphs of these vertices, merged into one graph of delayables: an edge from every tail of
      a linked vertex to every head of what is linked behind it. */
  ghost function Connected(w: World, s: set<Vertex>): Adjacency<Vertex>
    requires IsWorld(w) && s <= w.Keys
  {
    map t | t in AllTails(w, s) :: AllHeadsAfter(w, s, t)
  }

  lemma MergeStep(w: World, s: set<Vertex>, v: Vertex)
    requires IsWorld(w) && s <= w.Keys && v in w
    ensures AllFormed(w[v]) && w[v].Keys <= w.Keys && Merge(Connected(w, s), w[v]) == Connected(w, s + {v})
  {
    hide Merge, Connected;
    assert VertexOk(w, v);
    var one, all := Merge(Connected(w, s), w[v]), Connected(w, s + {v});
    var ts :| ts == one.Keys + all.Keys;
    forall t | t in ts ensures t in one && t in all && one[t] == all[t] {
      MergedTail(w, s, v, t);
    }
  }

  lemma MergedTail(w: World, s: set<Vertex>, v: Vertex, t: Vertex)
    requires IsWorld(w) && s <= w.Keys && v in w
    ensures AllFormed(w[v]) && (t in Merge(Connected(w, s), w[v]) <==> t in Connected(w, s + {v}))
    ensures t in Connected(w, s + {v}) ==> Merge(Connected(w, s), w[v])[t] == Connected(w, s + {v})[t]
  {
    assert VertexOk(w, v);
    assert t in AllTails(w, s + {v}) <==> t in AllTails(w, s) || t in TailsOf(w[v]);
    if t !in AllTails(w, s) {
      forall x | x in s ensures HeadsAfter(w[x], t) == {} {
        assert VertexOk(w, x);
        assert t !in TailsOf(w[x]);
      }
      assert AllHeadsAfter(w, s, t) == {};
    }
    assert AllHeadsAfter(w, s + {v}, t) == AllHeadsAfter(w, s, t) + HeadsAfter(w[v], t);
  }

  ghost function Snapshot(all: set<Vertex>): World
    reads set v | v in all :: v.graph
  {
    map v | v in all :: v.graph.graph
  }

  /** `all` holds every vertex in sight, each with its own graph. */
  ghost predicate InScope(all: set<Vertex>)
    reads set v | v in all :: v.graph
  {
    IsWorld(Snapshot(all)) && forall u, v :: u in all && v in all && u != v ==> u.graph != v.graph
  }

  ghost predicate IsGraphOfSome(vs: set<Vertex>, g: Graph<Vertex>) {
    exists v :: v in vs && v.graph == g
  }

  /** The walk has merged the graphs of `merged`. Of these it has looked into those in `seen`, will
      look into those in `visit`, and is looking into those in `current`. */
  ghost predicate Visiting(w: World, start: Vertex, merged: set<Vertex>, seen: set<Graph<Vertex>>,
      visit: seq<Graph<Vertex>>, current: set<Graph<Vertex>>) {
    && start in merged && merged <= Reach(w, start) && merged <= w.Keys
    && (forall g :: g in visit ==> IsGraphOfSome(merged, g))
    && (forall g :: g in seen ==> IsGraphOfSome(merged, g))
    && (forall g :: g in current ==> IsGraphOfSome(merged, g))
    && (forall v :: v in merged ==> v.graph in seen || v.graph in visit || v.graph in current)
    && (forall v :: v in merged && v.graph in seen ==> w[v].Keys <= merged)
  }

  /** `_connect_graphs` */
  method ConnectGraphs(start: Vertex, ghost all: set<Vertex>) returns (graph: Graph<Vertex>)
    requires start in all && InScope(all)
    ensures fresh(graph)
    ensures graph.graph == Connected(Snapshot(all), Reach(Snapshot(all), start))
  {
    hide Connected, Merge, VertexOk, AllFormed, Reached, Visiting;
    ghost var w := Snapshot(all);
    graph := new Graph();
    VisitStarts(w, start);
    MergeStep(w, {}, start);
    NothingConnected(w);
    MergeGraph(graph, start.graph);
    assert {} + {start} == {start};
    var seen: set<Graph<Vertex>> := {};
    var visit := [start.graph];
    ghost var merged := {start};
    ghost var graphs := set v | v in all :: v.graph;
    while visit != []
      invariant Snapshot(all) == w && seen <= graphs && merged <= w.Keys
      invariant Visiting(w, start, merged, seen, visit, {})
      invariant graph.graph == Connected(w, merged)
      decreases graphs - seen, |visit|
    {
      var current := visit[0];
      ghost var at := VisitNext(w, start, merged, seen, visit);
      visit := visit[1..];
      if current !in seen {
        var vertices := current.graph.Keys;
        while vertices != {}
          invariant Snapshot(all) == w && merged <= w.Keys && at in merged && vertices <= w[at].Keys
          invariant Visiting(w, start, merged, seen, visit, {current})
          invariant w[at].Keys - vertices <= merged
          invariant graph.graph == Connected(w, merged)
        {
          var vertex :| vertex in vertices;
          MergedIsReached(w, start, merged, seen, visit, {current});
          NextIsReached(w, start, at, vertex);
          MergeStep(w, merged, vertex);
          MergeGraph(graph, vertex.graph);
          VisitMore(w, start, merged, seen, visit, current, vertex);
          visit := visit + [vertex.graph];
          vertices := vertices - {vertex};
          merged := merged + {vertex};
        }
        VisitDone(w, start, merged, seen, visit, at);
        seen := seen + {current};
      }
    }
    VisitedAll(w, start, merged, seen);
  }

  lemma VisitNext(w: World, start: Vertex, merged: set<Vertex>, seen: set<Graph<Vertex>>, visit: seq<Graph<Vertex>>)
      returns (at: Vertex)
    requires Visiting(w, start, merged, seen, visit, {}) && visit != []
    ensures at in merged && at.graph == visit[0]
    ensures Visiting(w, start, merged, seen, visit[1..], if visit[0] in seen then {} else {visit[0]})
  {
    hide Reach;
    assert visit[0] in visit && IsGraphOfSome(merged, visit[0]);
    at :| at in merged && at.graph == visit[0];
    assert forall g :: g in visit <==> g == visit[0] || g in visit[1..];
  }

  lemma VisitMore(w: World, start: Vertex, merged: set<Vertex>, seen: set<Graph<Vertex>>, visit: seq<Graph<Vertex>>,
      current: Graph<Vertex>, v: Vertex)
    requires Visiting(w, start, merged, seen, visit, {current}) && v in Reach(w, start) && v in w
    requires forall u :: u in w && u.graph == v.graph ==> u == v
    ensures Visiting(w, start, merged + {v}, seen, visit + [v.graph], {current})
  {
    hide Reach;
    forall g: Graph<Vertex> | IsGraphOfSome(merged, g) || g == v.graph ensures IsGraphOfSome(merged + {v}, g) {
      if g == v.graph {
        assert v in merged + {v};
      } else {
        var u :| u in merged && u.graph == g;
        assert u in merged + {v};
      }
    }
  }

  lemma VisitDone(w: World, start: Vertex, merged: set<Vertex>, seen: set<Graph<Vertex>>, visit: seq<Graph<Vertex>>,
      at: Vertex)
    requires Visiting(w, start, merged, seen, visit, {at.graph}) && at in merged && w[at].Keys <= merged
    requires forall v :: v in w && v.graph == at.graph ==> v == at
    ensures Visiting(w, start, merged, seen + {at.graph}, visit, {})
  {
    hide Reach;
  }

  lemma VisitedAll(w: World, start: Vertex, merged: set<Vertex>, seen: set<Graph<Vertex>>)
    requires IsWorld(w) && Visiting(w, start, merged, seen, [], {})
    ensures merged == Reach(w, start)
  {
    ReachIsLeast(w, start, merged);
  }

  lemma MergedIsReached(w: World, start: Vertex, merged: set<Vertex>, seen: set<Graph<Vertex>>,
      visit: seq<Graph<Vertex>>, current: set<Graph<Vertex>>)
    requires Visiting(w, start, merged, seen, visit, current)
    ensures merged <= Reach(w, start)
  {
  }

  lemma VisitStarts(w: World, start: Vertex)
    requires start in w
    ensures Visiting(w, start, {start}, {}, [start.graph], {})
  {
    StartIsReached(w, start);
  }

  lemma NothingConnected(w: World)
    requires IsWorld(w)
    ensures Connected(w, {}) == map[]
  {
  }
}
