/** Exactly which delayables lead to which across one use of `on_done`. Behind a chain that links to
    the tails of its last member, which need not be the tails of the chain. */
module OnDoneOrder {
  import opened Sequences
  import opened Graphs
  import opened Delays
  import opened Flattening
  import opened FlatteningTheorems
  import opened Nestings
  import opened ComesAfter
  import opened ComesBefore
  import opened OrderKept
  import opened NestedOrder

  /** `ns` are passed to the `on_done` of `v`, whose graph becomes `g`. Nothing else was linked, and no
      delayable is in two places. */
  ghost predicate IsOnDone(v: Vertex, ns: set<Vertex>, g: Adjacency<Vertex>) {
    && Formed(v) && IsTree(v) && (forall n :: n in ns ==> Formed(n) && IsTree(n) && Leaves(n) !! Leaves(v))
    && (forall n, m :: n in ns && m in ns && n != m ==> Leaves(n) !! Leaves(m))
    && IsLinkedMore(Own(v), LinkedFrom(v), ns, g)
  }

  /** All that is in sight. */
  ghost function Sight(v: Vertex, ns: set<Vertex>): set<Vertex>
    requires Formed(v) && forall n :: n in ns ==> Formed(n)
  {
    Subs(v) + set n, s | n in ns && s in Subs(n) :: s
  }

  lemma SightIsFormed(v: Vertex, ns: set<Vertex>)
    requires Formed(v) && forall n :: n in ns ==> Formed(n)
    ensures forall s :: s in Sight(v, ns) ==> Formed(s) && AsSet(s.members) <= Sight(v, ns)
  {
    SubsAreFormed(v);
    forall n | n in ns ensures forall s :: s in Subs(n) ==> Formed(s) && AsSet(s.members) <= Subs(n) {
      SubsAreFormed(n);
    }
    forall s | s in Sight(v, ns) ensures Formed(s) && AsSet(s.members) <= Sight(v, ns) {
      if s !in Subs(v) {
        var n :| n in ns && s in Subs(n);
      }
    }
  }

  /** The graphs before the call. */
  ghost function Unlinked(v: Vertex, ns: set<Vertex>): World
    requires Formed(v) && forall n :: n in ns ==> Formed(n)
  {
    SightIsFormed(v, ns);
    map x | x in Sight(v, ns) :: Own(x)
  }

  lemma UnlinkedIsWorld(v: Vertex, ns: set<Vertex>)
    requires Formed(v) && forall n :: n in ns ==> Formed(n)
    ensures IsWorld(Unlinked(v, ns)) && v in Unlinked(v, ns) && ns <= Unlinked(v, ns).Keys
  {
    SightIsFormed(v, ns);
    var w := Unlinked(v, ns);
    forall x | x in w ensures VertexOk(w, x) {
      OwnIsOk(x);
    }
    forall n | n in ns ensures n in w {
      assert n in Subs(n);
    }
  }

  /** And those after it. */
  ghost function Linked(v: Vertex, ns: set<Vertex>, g: Adjacency<Vertex>): World
    requires IsOnDone(v, ns, g)
  {
    Unlinked(v, ns)[v := g]
  }

  lemma LinkedIsWorld(v: Vertex, ns: set<Vertex>, g: Adjacency<Vertex>)
    requires IsOnDone(v, ns, g)
    ensures IsWorld(Linked(v, ns, g)) && v in Reach(Linked(v, ns, g), v) && ns <= Linked(v, ns, g).Keys
    ensures forall u, n :: u in LinkedFrom(v) && n in ns ==> u in g && n in g[u]
  {
    UnlinkedIsWorld(v, ns);
    assert v in Subs(v);
    OnDoneKeepsWorld(Unlinked(v, ns), v, ns, g);
    StartIsReached(Linked(v, ns, g), v);
  }

  /** The one graph that all become when `v` is delayed. */
  ghost function FlattenedOnDone(v: Vertex, ns: set<Vertex>, g: Adjacency<Vertex>): Adjacency<Vertex>
    requires IsOnDone(v, ns, g)
  {
    LinkedIsWorld(v, ns, g);
    Whole(Linked(v, ns, g), v)
  }

  // ---------------------------------------------------------------- edges

  /** An edge is made inside a chain, or it goes from before the end of `v` to a head of what was
      passed. */
  lemma EdgeOfOnDone(v: Vertex, ns: set<Vertex>, g: Adjacency<Vertex>, t: Vertex, h: Vertex)
      returns (inside: bool, d: Vertex, i: nat)
    requires IsOnDone(v, ns, g) && h in Behind(FlattenedOnDone(v, ns, g), t)
    ensures inside ==> d in Sight(v, ns) && LinksInside(d, i, t, h)
    ensures !inside ==> d in ns && t in BeforeEnd(v) && h in Heads(d)
  {
    hide Whole, Reach, IsWorld, Tails, Heads, Own, Sight, IsTree, Leaves, LinkedFrom, BeforeEnd;
    UnlinkedIsWorld(v, ns);
    LinkedIsWorld(v, ns, g);
    SightIsFormed(v, ns);
    EndIsInside(v);
    var w := Linked(v, ns, g);
    var u, n := EdgeHasLink(w, v, t, h);
    d :| d in Reach(w, v) && d in w && u in w[d] && n in w[d][u];
    inside := u in Own(d) && n in Own(d)[u];
    i := 0;
    if inside {
      i := OwnLink(d, u, n);
    } else {
      d := n;
    }
  }

  /** What holds a delayable of `v`, or of one of `ns`, is itself inside there. */
  lemma InSight(v: Vertex, ns: set<Vertex>, g: Adjacency<Vertex>, n: Vertex, d: Vertex, h: Vertex)
    requires IsOnDone(v, ns, g) && n in ns && d in Sight(v, ns) && Formed(d) && h in Leaves(d)
    ensures h in Leaves(v) ==> d in Subs(v)
    ensures h in Leaves(n) ==> d in Subs(n) && Leaves(d) <= Leaves(n)
  {
    SubsAreFormed(v);
    SubsAreFormed(n);
    if d !in Subs(v) {
      var m :| m in ns && d in Subs(m);
      SubsAreFormed(m);
    }
  }

  lemma LinkIsInside(d: Vertex, i: nat, t: Vertex, h: Vertex)
    requires LinksInside(d, i, t, h)
    ensures Formed(d) && t in Leaves(d) && h in Leaves(d)
  {
    LeavesOfMember(d, i);
    LeavesOfMember(d, i + 1);
    EndsAreLeaves(d.members[i]);
    EndsAreLeaves(d.members[i + 1]);
  }

  lemma LinksStayBeforeEnd(v: Vertex, d: Vertex, i: nat, t: Vertex, h: Vertex)
    requires Formed(v) && IsTree(v) && d in Subs(v) && LinksInside(d, i, t, h) && h in BeforeEnd(v)
    ensures t in BeforeEnd(v)
  {
    if v.shape.Chain? {
      LinksStayBeforeLink(v, |v.members|, d, i, h);
    } else {
      LinksStayBefore(v, false, d, i, h);
    }
  }

  // ---------------------------------------------------------------- who leads to whom

  lemma EndIsClosed(v: Vertex, ns: set<Vertex>, g: Adjacency<Vertex>, n: Vertex)
    requires IsOnDone(v, ns, g) && n in ns
    ensures BackClosed(FlattenedOnDone(v, ns, g), BeforeEnd(v) + Leaves(n))
  {
    hide FlattenedOnDone, Sight, Subs, IsTree, Leaves, Heads, BeforeEnd, LinksInside;
    var whole := FlattenedOnDone(v, ns, g);
    EndIsInside(v);
    forall t, h | t in whole && h in whole[t] && h in BeforeEnd(v) + Leaves(n) ensures t in BeforeEnd(v) + Leaves(n) {
      var inside, d, i := EdgeOfOnDone(v, ns, g, t, h);
      if inside {
        LinkIsInside(d, i, t, h);
        InSight(v, ns, g, n, d, h);
        if h in BeforeEnd(v) {
          LinksStayBeforeEnd(v, d, i, t, h);
        }
      }
    }
  }

  lemma PassedIsClosed(v: Vertex, ns: set<Vertex>, g: Adjacency<Vertex>, n: Vertex)
    requires IsOnDone(v, ns, g) && n in ns
    ensures BackClosed(FlattenedOnDone(v, ns, g), Leaves(n) - AfterHeads(n))
  {
    hide FlattenedOnDone, Sight, Subs, IsTree, Leaves, Heads, AfterHeads, BeforeEnd;
    var whole := FlattenedOnDone(v, ns, g);
    AfterIsInside(n);
    forall t, h | t in whole && h in whole[t] && h in Leaves(n) - AfterHeads(n) ensures t in Leaves(n) - AfterHeads(n) {
      var inside, d, i := EdgeOfOnDone(v, ns, g, t, h);
      if inside {
        LinkIsInside(d, i, t, h);
        InSight(v, ns, g, n, d, h);
        if t in AfterHeads(n) {
          LinksStayAfter(n, false, d, i, t);
        }
      } else {
        EndsAreLeaves(d);
      }
    }
  }

  /** A delayable inside `v` leads to one inside what was passed to its `on_done` exactly if the one
      comes before the end of `v` and the other after the heads of what was passed. */
  lemma LeadsExactlyOnDone(v: Vertex, ns: set<Vertex>, g: Adjacency<Vertex>, n: Vertex, a: Vertex, b: Vertex)
    requires IsOnDone(v, ns, g) && n in ns && a in Leaves(v) && b in Leaves(n)
    ensures Leads(FlattenedOnDone(v, ns, g), a, b) <==> a in BeforeEnd(v) && b in AfterHeads(n)
  {
    hide Leaves, AfterHeads, BeforeEnd, IsTree, Leads, BackClosed, Whole, IsWorld, Reach;
    LinkedIsWorld(v, ns, g);
    var whole := FlattenedOnDone(v, ns, g);
    if a in BeforeEnd(v) && b in AfterHeads(n) {
      LeadsAcrossOnDone(Linked(v, ns, g), v, v, n, a, b);
    }
    if Leads(whole, a, b) {
      EndIsClosed(v, ns, g, n);
      PassedIsClosed(v, ns, g, n);
      LeadsFrom(whole, BeforeEnd(v) + Leaves(n), a, b);
      if b !in AfterHeads(n) {
        LeadsFrom(whole, Leaves(n) - AfterHeads(n), a, b);
        assert false;
      }
    }
  }

  /** So everything passed waits for all of `v` if and only if all of `v` comes before its end and all
      that was passed after its heads. */
  lemma OnDoneKeepsOrderExactlyIf(v: Vertex, ns: set<Vertex>, g: Adjacency<Vertex>, n: Vertex)
    requires IsOnDone(v, ns, g) && n in ns && Leaves(v) != {} && Leaves(n) != {}
    ensures (forall a, b :: a in Leaves(v) && b in Leaves(n) ==> Leads(FlattenedOnDone(v, ns, g), a, b)) <==>
            BeforeEnd(v) == Leaves(v) && AfterHeads(n) == Leaves(n)
  {
    hide AfterHeads, BeforeEnd, FlattenedOnDone, Leads, Leaves;
    AfterIsInside(n);
    EndIsInside(v);
    forall a, b | a in Leaves(v) && b in Leaves(n)
      ensures Leads(FlattenedOnDone(v, ns, g), a, b) <==> a in BeforeEnd(v) && b in AfterHeads(n)
    {
      LeadsExactlyOnDone(v, ns, g, n, a, b);
    }
    Rectangle(Leaves(v), Leaves(n), BeforeEnd(v), AfterHeads(n), FlattenedOnDone(v, ns, g));
  }
}
