/** What the flattened graph of a nesting is, and that it keeps the order the nesting asks for. */
module FlatteningTheorems {
  import opened Sequences
  import opened Graphs
  import opened Delays
  import opened Flattening

  /** `n` is linked behind `u` in one of these vertices' graphs. */
  ghost predicate IsLink(w: World, s: set<Vertex>, u: Vertex, n: Vertex) {
    exists v :: v in s && v in w && u in w[v] && n in w[v][u]
  }

  ghost function Whole(w: World, start: Vertex): Adjacency<Vertex>
    requires IsWorld(w)
  {
    Connected(w, Reach(w, start))
  }

  // ---------------------------------------------------------------- vertices and edges

  lemma {:induction false} EndsAreLeaves(v: Vertex)
    requires Formed(v)
    ensures Heads(v) <= Leaves(v) && Tails(v) <= Leaves(v)
    ensures forall d :: d in Leaves(v) ==> d.shape.Delayable? && Formed(d)
    decreases v.rank
  {
    forall m | m in v.members
      ensures Heads(m) <= Leaves(m) && Tails(m) <= Leaves(m) && forall d :: d in Leaves(m) ==>
          d.shape.Delayable? && Formed(d)
    {
      EndsAreLeaves(m);
    }
  }

  /** What is inside a reached vertex is reached. */
  lemma {:induction false} LeavesAreReached(w: World, start: Vertex, v: Vertex)
    requires IsWorld(w) && v in Reach(w, start)
    ensures Formed(v) && Leaves(v) <= Reach(w, start)
    decreases v.rank
  {
    assert VertexOk(w, v);
    forall m | m in v.members ensures Leaves(m) <= Reach(w, start) {
      NextIsReached(w, start, v, m);
      LeavesAreReached(w, start, m);
    }
  }

  /** The flattened graph has exactly the reached delayables as its vertices. */
  lemma VerticesAreDelayables(w: World, start: Vertex)
    requires IsWorld(w)
    ensures Whole(w, start).Keys == set d | d in Reach(w, start) && d.shape.Delayable?
  {
    var r := Reach(w, start);
    forall t | t in AllTails(w, r) ensures t in r && t.shape.Delayable? {
      var v, u :| v in r && u in w[v] && t in Tails(u);
      NextIsReached(w, start, v, u);
      LeavesAreReached(w, start, u);
      EndsAreLeaves(u);
    }
    forall d | d in r && d.shape.Delayable? ensures d in AllTails(w, r) {
      assert VertexOk(w, d) && d in w[d] && d in Tails(d) && d in TailsOf(w[d]);
    }
  }

  /** `u` and `n` make an edge from `t` to `h`: they are linked, and `t` is a tail of the one and
      `h` a head of the other. */
  ghost predicate MakesEdge(w: World, s: set<Vertex>, u: Vertex, n: Vertex, t: Vertex, h: Vertex) {
    Formed(u) && Formed(n) && IsLink(w, s, u, n) && t in Tails(u) && h in Heads(n)
  }

  /** The edges are exactly those that linked vertices make. */
  lemma EdgesAreTailsToHeads(w: World, start: Vertex, t: Vertex, h: Vertex)
    requires IsWorld(w)
    ensures h in Behind(Whole(w, start), t) <==>
        exists u, n :: u in w && n in w && MakesEdge(w, Reach(w, start), u, n, t, h)
  {
    hide Whole, Reach, IsLink, Heads, Tails, IsWorld;
    if h in Behind(Whole(w, start), t) {
      var u, n := EdgeHasLink(w, start, t, h);
    }
    if u, n :| u in w && n in w && MakesEdge(w, Reach(w, start), u, n, t, h) {
      LinkGivesEdge(w, start, u, n, t, h);
    }
  }

  lemma EdgeHasLink(w: World, start: Vertex, t: Vertex, h: Vertex) returns (u: Vertex, n: Vertex)
    requires IsWorld(w) && h in Behind(Whole(w, start), t)
    ensures u in w && n in w && MakesEdge(w, Reach(w, start), u, n, t, h)
    ensures u in Reach(w, start) && n in Reach(w, start)
  {
    var r := Reach(w, start);
    assert h in AllHeadsAfter(w, r, t);
    var v :| v in r && h in HeadsAfter(w[v], t);
    u, n :| u in w[v] && n in w[v][u] && t in Tails(u) && h in Heads(n);
    assert VertexOk(w, v);
    assert IsLink(w, r, u, n);
    NextIsReached(w, start, v, u);
    NextIsReached(w, start, v, n);
  }

  lemma LinkGivesEdge(w: World, start: Vertex, u: Vertex, n: Vertex, t: Vertex, h: Vertex)
    requires IsWorld(w) && IsLink(w, Reach(w, start), u, n) && Formed(u) && Formed(n)
    requires t in Tails(u) && h in Heads(n)
    ensures t in Whole(w, start) && h in Whole(w, start)[t]
  {
    var r := Reach(w, start);
    var v :| v in r && v in w && u in w[v] && n in w[v][u];
    assert VertexOk(w, v);
    assert t in TailsOf(w[v]) && h in HeadsAfter(w[v], t);
    assert t in AllTails(w, r) && h in AllHeadsAfter(w, r, t);
  }

  /** Every edge leads to a vertex: the graph can be sorted. */
  lemma EdgesLeadToVertices(w: World, start: Vertex)
    requires IsWorld(w)
    ensures EdgeClosed(Whole(w, start))
  {
    var g := Whole(w, start);
    VerticesAreDelayables(w, start);
    forall t, h | t in g && h in g[t] ensures h in g {
      var u, n := EdgeHasLink(w, start, t, h);
      LeavesAreReached(w, start, n);
      EndsAreLeaves(n);
    }
  }

  // ---------------------------------------------------------------- paths, and nestings without odd ends

  /** No chain of several members inside. */
  ghost predicate Flat(v: Vertex)
    requires Formed(v)
    decreases v.rank
  {
    (v.shape.Chain? ==> |v.members| == 1) && forall m :: m in v.members ==> Flat(m)
  }

  /** No empty group inside, and flat first and last members in every chain. */
  ghost predicate Orderly(v: Vertex)
    requires Formed(v)
    decreases v.rank
  {
    && (v.shape.Group? ==> v.members != [])
    && (forall m :: m in v.members ==> Orderly(m))
    && (v.shape.Chain? ==> Flat(v.members[0]) && Flat(v.members[|v.members| - 1]))
  }

  /** A path of one edge or more. */
  ghost predicate Leads(g: Adjacency<Vertex>, a: Vertex, b: Vertex) {
    exists p :: IsWalk(g, p) && |p| >= 2 && p[0] == a && p[|p| - 1] == b
  }

  lemma EdgeLeads(g: Adjacency<Vertex>, a: Vertex, b: Vertex)
    requires EdgeClosed(g) && a in g && b in g[a]
    ensures Leads(g, a, b)
  {
    assert IsWalk(g, [a, b]);
  }

  lemma LeadsOn(g: Adjacency<Vertex>, a: Vertex, b: Vertex, c: Vertex)
    requires Leads(g, a, b) && Leads(g, b, c)
    ensures Leads(g, a, c)
  {
    var p :| IsWalk(g, p) && |p| >= 2 && p[0] == a && p[|p| - 1] == b;
    var q :| IsWalk(g, q) && |q| >= 2 && q[0] == b && q[|q| - 1] == c;
    var r := p + q[1..];
    assert forall i :: |p| - 1 <= i < |r| ==> r[i] == q[i - |p| + 1];
    assert IsWalk(g, r) && r[0] == a && r[|r| - 1] == c;
  }

  lemma {:induction false} FlatEnds(v: Vertex)
    requires Formed(v) && Flat(v)
    ensures Heads(v) == Leaves(v) == Tails(v)
    decreases v.rank
  {
    forall m | m in v.members ensures Heads(m) == Leaves(m) == Tails(m) {
      FlatEnds(m);
    }
    if v.shape.Chain? {
      assert v.members == [v.members[0]];
      assert Leaves(v) == Leaves(v.members[0]);
    }
  }

  lemma {:induction false} OrderlyHasLeaf(v: Vertex) returns (d: Vertex)
    requires Formed(v) && Orderly(v)
    ensures d in Leaves(v)
    decreases v.rank
  {
    if v.shape.Delayable? {
      d := v;
    } else {
      assert v.members[0] in v.members;
      d := OrderlyHasLeaf(v.members[0]);
    }
  }

  lemma MembersAreReached(w: World, start: Vertex, v: Vertex)
    requires IsWorld(w) && v in Reach(w, start)
    ensures forall m :: m in v.members ==> m in Reach(w, start)
    ensures v.shape.Chain? ==> forall i {:trigger v.members[i]} :: 0 <= i < |v.members| - 1 ==>
        IsLink(w, Reach(w, start), v.members[i], v.members[i + 1])
  {
    assert VertexOk(w, v);
    forall m | m in v.members ensures m in Reach(w, start) {
      NextIsReached(w, start, v, m);
    }
  }

  /** `on_done` leaves the vertices in order, keeps all links and adds its own. */
  lemma OnDoneKeepsWorld(w: World, v: Vertex, ns: set<Vertex>, g: Adjacency<Vertex>)
    requires IsWorld(w) && v in w && ns <= w.Keys && IsLinkedMore(w[v], LinkedFrom(v), ns, g)
    ensures IsWorld(w[v := g])
    ensures forall u, n :: u in LinkedFrom(v) && n in ns ==> u in g && n in g[u]
    ensures forall u, n :: u in w[v] && n in w[v][u] ==> u in g && n in g[u]
  {
    var w' := w[v := g];
    assert VertexOk(w, v);
    forall x | x in w' ensures VertexOk(w', x) {
      assert VertexOk(w, x);
      if x == v {
        LinkedStaysOk(w, v, ns, g);
      }
    }
  }

  lemma LinkedStaysOk(w: World, v: Vertex, ns: set<Vertex>, g: Adjacency<Vertex>)
    requires IsWorld(w) && v in w && ns <= w.Keys && IsLinkedMore(w[v], LinkedFrom(v), ns, g)
    ensures g.Keys <= w.Keys && AllFormed(g) && HoldsMembers(v, g)
  {
    assert VertexOk(w, v);
    forall u | u in g ensures g[u] <= g.Keys && u in w && Formed(u) {
      assert u in w[v] || u in ns;
      assert VertexOk(w, u);
    }
    if v.shape.Chain? {
      forall i {:trigger v.members[i]} | 0 <= i < |v.members| - 1 ensures v.members[i] in g
          && v.members[i + 1] in g[v.members[i]] {
        assert v.members[i] in w[v];
      }
    }
  }

  /** In an order with parents first, what is led to comes later. */
  lemma LedToIsLater(g: Adjacency<Vertex>, order: seq<Vertex>, a: Vertex, b: Vertex, k: nat)
    requires ParentsFirst(g, order) && NoDuplicates(order) && Leads(g, a, b) && k < |order| && order[k] == b
    ensures exists i :: 0 <= i < k && order[i] == a
  {
    var p :| IsWalk(g, p) && |p| >= 2 && p[0] == a && p[|p| - 1] == b;
    WalkGoesUp(g, order, p, k);
  }
}
