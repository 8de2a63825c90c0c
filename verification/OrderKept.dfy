/** The flattened graph keeps the order that links between nestings ask for, in any world. */
module OrderKept {
  import opened Sequences
  import opened Graphs
  import opened Delays
  import opened Flattening
  import opened FlatteningTheorems
  import opened Nestings
  import opened ComesAfter
  import opened ComesBefore

  /** From `a` to a tail of `u`, along an edge to a head of `n`, and on to `b`. */
  lemma EdgeJoins(w: World, start: Vertex, u: Vertex, n: Vertex, a: Vertex, t: Vertex, b: Vertex)
    requires IsWorld(w) && IsLink(w, Reach(w, start), u, n) && n in Reach(w, start) && Formed(u) && Formed(n)
    requires t in Tails(u) && (a == t || Leads(Whole(w, start), a, t)) && b in AfterHeads(n)
    ensures Leads(Whole(w, start), a, b)
  {
    hide IsWorld, Reach, IsLink, AfterHeads, Whole, Leads;
    var h := HeadLeads(w, start, n, b);
    LinkGivesEdge(w, start, u, n, t, h);
    EdgesLeadToVertices(w, start);
    EdgeLeads(Whole(w, start), t, h);
    Joined(Whole(w, start), a, t, h);
    Joined(Whole(w, start), a, h, b);
  }

  /** If `n` is linked behind `u`, what comes before the tails of `u` leads to what comes after the
      heads of `n`. */
  lemma LeadsAcross(w: World, start: Vertex, u: Vertex, n: Vertex, a: Vertex, b: Vertex)
    requires IsWorld(w) && IsLink(w, Reach(w, start), u, n) && u in Reach(w, start) && n in Reach(w, start)
    requires Formed(u) && Formed(n) && a in BeforeTails(u) && b in AfterHeads(n)
    ensures Leads(Whole(w, start), a, b)
  {
    var t := LeadsToTail(w, start, u, a);
    EdgeJoins(w, start, u, n, a, t, b);
  }

  /** If `n` is linked behind `u` and both are orderly, every delayable inside `u` leads to every
      delayable inside `n`. */
  lemma LinkKeepsOrder(w: World, start: Vertex, u: Vertex, n: Vertex, a: Vertex, b: Vertex)
    requires IsWorld(w) && IsLink(w, Reach(w, start), u, n) && u in Reach(w, start) && n in Reach(w, start)
    requires Formed(u) && Orderly(u) && Formed(n) && Orderly(n) && a in Leaves(u) && b in Leaves(n)
    ensures Leads(Whole(w, start), a, b)
  {
    OrderlyIsBeforeTails(u);
    OrderlyIsAfterHeads(n);
    LeadsAcross(w, start, u, n, a, b);
  }

  /** In a chain, what comes before member `k` leads to what comes after the heads of that member. */
  lemma LeadsAlongChain(w: World, start: Vertex, c: Vertex, k: nat, a: Vertex, b: Vertex)
    requires IsWorld(w) && c in Reach(w, start) && Formed(c) && c.shape.Chain? && k < |c.members|
    requires Formed(c.members[k]) && a in BeforeLink(c, k) && b in AfterHeads(c.members[k])
    ensures Leads(Whole(w, start), a, b)
  {
    hide IsWorld, Reach, IsLink, AfterHeads, BeforeLink, Whole, Leads;
    MembersAreReached(w, start, c);
    var t := LeadsToLink(w, start, c, k, a);
    assert c.members[k - 1] in c.members && c.members[k] in c.members;
    EdgeJoins(w, start, c.members[k - 1], c.members[k], a, t, b);
  }

  /** Every delayable inside an earlier member of a chain leads to every one inside a later member. */
  lemma ChainKeepsOrder(w: World, start: Vertex, c: Vertex, i: nat, k: nat, a: Vertex, b: Vertex)
    requires IsWorld(w) && c in Reach(w, start) && Formed(c) && Orderly(c) && c.shape.Chain?
    requires i < k < |c.members| && a in Leaves(c.members[i]) && b in Leaves(c.members[k])
    ensures Leads(Whole(w, start), a, b)
  {
    forall m | m in c.members ensures BeforeTails(m) == Leaves(m) && AfterHeads(m) == Leaves(m) {
      OrderlyIsBeforeTails(m);
      OrderlyIsAfterHeads(m);
    }
    OrderlyLeadsOn(c, k, i);
    assert c.members[k] in c.members;
    LeadsAlongChain(w, start, c, k, a, b);
  }

  lemma SourcesAreLinked(w: World, start: Vertex, v: Vertex, n: Vertex)
    requires IsWorld(w) && v in Reach(w, start) && n in w && forall u :: u in LinkedFrom(v) ==>
        u in w[v] && n in w[v][u]
    ensures forall u :: u in LinkedFrom(v) ==>
        u in Reach(w, start) && n in Reach(w, start) && IsLink(w, Reach(w, start), u, n)
  {
    assert VertexOk(w, v);
    forall u | u in LinkedFrom(v) ensures u in Reach(w, start) && n in Reach(w, start)
        && IsLink(w, Reach(w, start), u, n) {
      NextIsReached(w, start, v, u);
      NextIsReached(w, start, v, n);
    }
  }

  /** What comes before the end of `v` leads to what comes after the heads of what was passed to
      its `on_done`. */
  lemma LeadsAcrossOnDone(w: World, start: Vertex, v: Vertex, n: Vertex, a: Vertex, b: Vertex)
    requires IsWorld(w) && v in Reach(w, start) && n in w
    requires forall u :: u in LinkedFrom(v) ==> u in w[v] && n in w[v][u]
    requires Formed(v) && Formed(n) && a in BeforeEnd(v) && b in AfterHeads(n)
    ensures Leads(Whole(w, start), a, b)
  {
    hide IsWorld, Reach, IsLink, AfterHeads, BeforeEnd, Whole, Leads;
    SourcesAreLinked(w, start, v, n);
    var u, t := LeadsToEnd(w, start, v, a);
    EdgeJoins(w, start, u, n, a, t, b);
  }

  /** All inside `v` leads to all inside what was passed to its `on_done`. */
  lemma OnDoneKeepsOrder(w: World, start: Vertex, v: Vertex, n: Vertex, a: Vertex, b: Vertex)
    requires IsWorld(w) && v in Reach(w, start) && n in w
    requires forall u :: u in LinkedFrom(v) ==> u in w[v] && n in w[v][u]
    requires Formed(v) && Orderly(v) && Formed(n) && Orderly(n) && a in Leaves(v) && b in Leaves(n)
    ensures Leads(Whole(w, start), a, b)
  {
    OrderlyIsBeforeEnd(v);
    OrderlyIsAfterHeads(n);
    LeadsAcrossOnDone(w, start, v, n, a, b);
  }
}
