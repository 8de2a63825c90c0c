/** Exactly which delayables lead to which in the flattened graph of a nesting. The head of a chain is
    the tail of its first member and its tail the head of its last one, so chains that begin or end
    with a chain do not wait, or are not waited for, as a whole. */
module NestedOrder {
  import opened Sequences
  import opened Graphs
  import opened Delays
  import opened Flattening
  import opened FlatteningTheorems
  import opened Nestings
  import opened ComesAfter
  import opened ComesBefore
  import opened OrderKept

  /** Somewhere in the sequence `u` is followed by `k`. */
  ghost predicate Follow(s: seq<Vertex>, u: Vertex, k: Vertex) {
    exists i :: 0 <= i < |s| - 1 && s[i] == u && s[i + 1] == k
  }

  /** The graph of a chain links exactly the members that follow each other. */
  lemma {:induction false} LinksAreSteps(s: seq<Vertex>)
    requires s != []
    ensures Links(s).Keys == AsSet(s)
    ensures forall u, k :: u in s && k in s ==> (k in Behind(Links(s), u) <==> Follow(s, u, k))
    ensures EdgeClosed(Links(s))
  {
    if |s| <= 1 {
    } else {
      var init, last := s[..|s| - 1], s[|s| - 1];
      LinksAreSteps(init);
      assert s == init + [last];
      AppendAsSet(init, last);
      assert init[|init| - 1] in init;
      hide Follow;
      forall u, k | u in s && k in s ensures k in Behind(Links(s), u) <==> Follow(s, u, k) {
        OneMoreLinkStep(init, last, u, k);
      }
    }
  }

  lemma OneMoreLinkStep(init: seq<Vertex>, last: Vertex, u: Vertex, k: Vertex)
    requires init != [] && Links(init).Keys == AsSet(init) && EdgeClosed(Links(init))
    requires u in init && k in init ==> (k in Behind(Links(init), u) <==> Follow(init, u, k))
    ensures k in Behind(Links(init + [last]), u) <==> Follow(init + [last], u, k)
  {
    var s := init + [last];
    assert s[..|s| - 1] == init;
    OneMoreStep(init, last, u, k);
    hide Follow;
    assert init[|init| - 1] in init;
  }

  lemma OneMoreStep(init: seq<Vertex>, last: Vertex, u: Vertex, k: Vertex)
    requires init != []
    ensures Follow(init + [last], u, k) <==> Follow(init, u, k) || (u == init[|init| - 1] && k == last)
    ensures Follow(init, u, k) ==> u in init && k in init
  {
    var s := init + [last];
    if Follow(init, u, k) {
      var i :| 0 <= i < |init| - 1 && init[i] == u && init[i + 1] == k;
      assert s[i] == u && s[i + 1] == k;
    }
    if u == init[|init| - 1] && k == last {
      assert s[|init| - 1] == u && s[|init| - 1 + 1] == k;
    }
    if Follow(s, u, k) {
      var i :| 0 <= i < |s| - 1 && s[i] == u && s[i + 1] == k;
      if i < |init| - 1 {
        assert init[i] == u && init[i + 1] == k;
      }
    }
  }

  lemma OwnIsOk(v: Vertex)
    requires Formed(v)
    ensures AllFormed(Own(v)) && HoldsMembers(v, Own(v)) && Own(v).Keys <= AsSet(v.members) + {v}
  {
    if v.shape.Chain? {
      LinksAreSteps(v.members);
      forall i {:trigger v.members[i]} | 0 <= i < |v.members| - 1 ensures v.members[i] in Own(v)
          && v.members[i + 1] in Own(v)[v.members[i]] {
        assert v.members[i] in v.members && v.members[i + 1] in v.members;
        assert Follow(v.members, v.members[i], v.members[i + 1]);
      }
    }
  }

  /** The graphs of a nesting as it was made, when nothing else was linked. */
  ghost function Made(c: Vertex): World
    requires Formed(c)
  {
    SubsAreFormed(c);
    map v | v in Subs(c) :: Own(v)
  }

  lemma MadeIsWorld(c: Vertex)
    requires Formed(c)
    ensures IsWorld(Made(c)) && c in Reach(Made(c), c)
  {
    SubsAreFormed(c);
    var w := Made(c);
    forall v | v in w ensures VertexOk(w, v) {
      OwnIsOk(v);
    }
    StartIsReached(w, c);
  }

  /** And the one graph that they become. */
  ghost function Flattened(c: Vertex): Adjacency<Vertex>
    requires Formed(c)
  {
    MadeIsWorld(c);
    Whole(Made(c), c)
  }

  // ---------------------------------------------------------------- edges

  /** A link inside the chain `d` makes an edge from `t` to `h`. */
  ghost predicate LinksInside(d: Vertex, i: nat, t: Vertex, h: Vertex) {
    && Formed(d) && d.shape.Chain? && i + 1 < |d.members|
    && t in Tails(d.members[i]) && h in Heads(d.members[i + 1])
  }

  lemma OwnLink(d: Vertex, u: Vertex, n: Vertex) returns (i: nat)
    requires Formed(d) && u in Own(d) && n in Own(d)[u]
    ensures d.shape.Chain? && i + 1 < |d.members| && d.members[i] == u && d.members[i + 1] == n
  {
    OwnIsOk(d);
    LinksAreSteps(d.members);
    assert Follow(d.members, u, n);
    i :| 0 <= i < |d.members| - 1 && d.members[i] == u && d.members[i + 1] == n;
  }

  lemma EdgeHasChain(c: Vertex, t: Vertex, h: Vertex) returns (d: Vertex, i: nat)
    requires Formed(c) && h in Behind(Flattened(c), t)
    ensures d in Subs(c) && LinksInside(d, i, t, h)
  {
    hide Whole, Reach, IsWorld, Tails, Heads, Own;
    MadeIsWorld(c);
    SubsAreFormed(c);
    var w := Made(c);
    var u, n := EdgeHasLink(w, c, t, h);
    d :| d in Reach(w, c) && d in w && u in w[d] && n in w[d][u];
    i := OwnLink(d, u, n);
  }

  lemma ChainGivesEdge(c: Vertex, d: Vertex, i: nat, t: Vertex, h: Vertex)
    requires Formed(c) && d in Subs(c) && LinksInside(d, i, t, h)
    ensures h in Behind(Flattened(c), t)
  {
    hide Whole, Reach, IsWorld, Tails, Heads, Made, Subs;
    MadeIsWorld(c);
    SubsAreReached(Made(c), c, c);
    MembersAreReached(Made(c), c, d);
    assert d.members[i] in d.members && d.members[i + 1] in d.members;
    LinkGivesEdge(Made(c), c, d.members[i], d.members[i + 1], t, h);
  }

  /** An edge goes from a tail of a member of a chain to a head of the next one, or it is an edge of
      one member. */
  lemma EdgeOfMembers(c: Vertex, t: Vertex, h: Vertex) returns (i: nat, k: nat)
    requires Formed(c) && h in Behind(Flattened(c), t)
    ensures i < |c.members| && k < |c.members| && t in Leaves(c.members[i]) && h in Leaves(c.members[k])
    ensures (k == i + 1 && LinksInside(c, i, t, h)) || (k == i && h in Behind(Flattened(c.members[k]), t))
  {
    hide Flattened, Leaves, Tails, Heads;
    var d, x := EdgeHasChain(c, t, h);
    LeavesOfMember(d, x);
    LeavesOfMember(d, x + 1);
    EndsAreLeaves(d.members[x]);
    EndsAreLeaves(d.members[x + 1]);
    if d == c {
      i, k := x, x + 1;
    } else {
      var m := SubOfMember(c, d);
      SubsAreFormed(m);
      ChainGivesEdge(m, d, x, t, h);
      i :| 0 <= i < |c.members| && c.members[i] == m;
      k := i;
    }
  }

  lemma EdgeOfMember(c: Vertex, m: Vertex, t: Vertex, h: Vertex)
    requires Formed(c) && m in c.members && Formed(m) && h in Behind(Flattened(m), t)
    ensures h in Behind(Flattened(c), t)
  {
    hide Flattened, LinksInside;
    var d, i := EdgeHasChain(m, t, h);
    ChainGivesEdge(c, d, i, t, h);
  }

  // ---------------------------------------------------------------- from one member to another

  /** No edge leads into `s` from outside. */
  ghost predicate BackClosed(g: Adjacency<Vertex>, s: set<Vertex>) {
    forall t, h :: t in g && h in g[t] && h in s ==> t in s
  }

  lemma {:induction false} WalkComesFrom(g: Adjacency<Vertex>, s: set<Vertex>, p: seq<Vertex>)
    requires BackClosed(g, s) && IsWalk(g, p) && p != [] && p[|p| - 1] in s
    ensures p[0] in s
  {
    if |p| <= 1 {
    } else {
      WalkComesFrom(g, s, p[1..]);
      assert p[1] in Behind(g, p[0]);
    }
  }

  lemma LeadsFrom(g: Adjacency<Vertex>, s: set<Vertex>, a: Vertex, b: Vertex)
    requires BackClosed(g, s) && Leads(g, a, b) && b in s
    ensures a in s
  {
    var p :| IsWalk(g, p) && |p| >= 2 && p[0] == a && p[|p| - 1] == b;
    WalkComesFrom(g, s, p);
  }

  /** What comes before member `k`: nothing in a group. */
  ghost function InFront(c: Vertex, k: nat): set<Vertex>
    requires Formed(c) && k <= |c.members|
  {
    if c.shape.Chain? then BeforeLink(c, k) else {}
  }

  /** Into member `k` edges lead only from there and from what comes before it. */
  lemma InFrontIsClosed(c: Vertex, k: nat)
    requires Formed(c) && IsTree(c) && k < |c.members|
    ensures BackClosed(Flattened(c), InFront(c, k) + Leaves(c.members[k]))
  {
    hide Flattened, Leaves, Tails, Heads, BeforeLink, IsTree;
    var g := Flattened(c);
    forall t, h | t in g && h in g[t] && h in InFront(c, k) + Leaves(c.members[k])
      ensures t in InFront(c, k) + Leaves(c.members[k])
    {
      if h in InFront(c, k) {
        var d, x := EdgeHasChain(c, t, h);
        SubsAreFormed(c);
        LinksStayBeforeLink(c, k, d, x, h);
      } else {
        var i, j := EdgeOfMembers(c, t, h);
        InOnePlace(c, j, k, h);
        if i != k {
          TailsBeforeLink(c, k);
        }
      }
    }
  }

  lemma TailsBeforeLink(c: Vertex, k: nat)
    requires Formed(c) && c.shape.Chain? && 0 < k < |c.members|
    ensures Tails(c.members[k - 1]) <= BeforeLink(c, k)
  {
    assert c.members[k - 1] in c.members;
    BeforeIsInside(c.members[k - 1]);
  }

  /** What does not come after the heads of member `k` has edges only from such delayables. */
  lemma OthersAreClosed(c: Vertex, k: nat)
    requires Formed(c) && IsTree(c) && k < |c.members|
    ensures BackClosed(Flattened(c), Leaves(c.members[k]) - AfterHeads(c.members[k]))
  {
    hide Flattened, Leaves, Tails, Heads, AfterHeads, IsTree;
    var m := c.members[k];
    LeavesOfMember(c, k);
    AfterIsInside(m);
    MembersAreTrees(c);
    var g := Flattened(c);
    forall t, h | t in g && h in g[t] && h in Leaves(m) - AfterHeads(m) ensures t in Leaves(m) - AfterHeads(m) {
      var i, j := EdgeOfMembers(c, t, h);
      InOnePlace(c, j, k, h);
      if i == k && t in AfterHeads(m) {
        var d, x := EdgeHasChain(m, t, h);
        SubsAreFormed(m);
        LinksStayAfter(m, false, d, x, t);
      }
    }
  }

  /** A delayable leads to one in another member exactly if that is behind it in a chain, the one comes
      before that member, and the other after its heads. */
  lemma LeadsBetween(c: Vertex, i: nat, k: nat, a: Vertex, b: Vertex)
    requires Formed(c) && IsTree(c) && i < |c.members| && k < |c.members| && i != k
    requires a in Leaves(c.members[i]) && b in Leaves(c.members[k])
    ensures Leads(Flattened(c), a, b) <==> a in InFront(c, k) && b in AfterHeads(c.members[k])
  {
    hide Leaves, AfterHeads, BeforeLink, IsTree, Leads, BackClosed, Whole, Made, IsWorld, Reach;
    LeavesOfMember(c, k);
    MadeIsWorld(c);
    if a in InFront(c, k) && b in AfterHeads(c.members[k]) {
      LeadsAlongChain(Made(c), c, c, k, a, b);
    }
    if Leads(Flattened(c), a, b) {
      InFrontIsClosed(c, k);
      OthersAreClosed(c, k);
      LeadsFrom(Flattened(c), InFront(c, k) + Leaves(c.members[k]), a, b);
      if a in Leaves(c.members[k]) {
        InOnePlace(c, i, k, a);
        assert false;
      }
      if b !in AfterHeads(c.members[k]) {
        LeadsFrom(Flattened(c), Leaves(c.members[k]) - AfterHeads(c.members[k]), a, b);
        assert false;
      }
    }
  }

  // ---------------------------------------------------------------- inside one member

  /** A walk never goes back to an earlier member, and within one member it is one of its walks. */
  lemma {:induction false} WalkGoesOn(c: Vertex, i: nat, k: nat, p: seq<Vertex>)
    requires Formed(c) && IsTree(c) && i < |c.members| && k < |c.members| && IsWalk(Flattened(c), p) && |p| >= 2
    requires p[0] in Leaves(c.members[i]) && p[|p| - 1] in Leaves(c.members[k])
    ensures i <= k && Formed(c.members[k]) && (i == k ==> IsWalk(Flattened(c.members[k]), p))
    decreases |p|
  {
    hide Flattened, Leaves, IsTree, LinksInside;
    LeavesOfMember(c, k);
    assert p[1] in Behind(Flattened(c), p[0]);
    var x, y := EdgeOfMembers(c, p[0], p[1]);
    InOnePlace(c, x, i, p[0]);
    if |p| == 2 {
      InOnePlace(c, y, k, p[1]);
      FlattenedIsClosed(c.members[k]);
    } else {
      WalkGoesOn(c, y, k, p[1..]);
      assert p == [p[0]] + p[1..];
    }
  }

  lemma WalkOfEdges(g: Adjacency<Vertex>, p: seq<Vertex>)
    requires EdgeClosed(g) && |p| >= 2 && forall i :: 0 <= i < |p| - 1 ==> p[i + 1] in Behind(g, p[i])
    ensures IsWalk(g, p)
  {
    forall i | 0 <= i < |p| ensures p[i] in g && (i < |p| - 1 ==> p[i + 1] in g[p[i]]) {
      var k := if i < |p| - 1 then i else i - 1;
      assert p[k + 1] in Behind(g, p[k]);
    }
  }

  lemma FlattenedIsClosed(c: Vertex)
    requires Formed(c)
    ensures EdgeClosed(Flattened(c))
  {
    MadeIsWorld(c);
    EdgesLeadToVertices(Made(c), c);
  }

  /** Inside one member the same delayables lead to each other as in that member alone. */
  lemma LeadsWithin(c: Vertex, k: nat, a: Vertex, b: Vertex)
    requires Formed(c) && IsTree(c) && k < |c.members| && a in Leaves(c.members[k]) && b in Leaves(c.members[k])
    ensures Formed(c.members[k]) && (Leads(Flattened(c), a, b) <==> Leads(Flattened(c.members[k]), a, b))
  {
    hide Flattened, Leaves, IsTree;
    var m := c.members[k];
    LeavesOfMember(c, k);
    if Leads(Flattened(c), a, b) {
      var p :| IsWalk(Flattened(c), p) && |p| >= 2 && p[0] == a && p[|p| - 1] == b;
      WalkGoesOn(c, k, k, p);
    }
    if Leads(Flattened(m), a, b) {
      var p :| IsWalk(Flattened(m), p) && |p| >= 2 && p[0] == a && p[|p| - 1] == b;
      FlattenedIsClosed(c);
      forall i | 0 <= i < |p| - 1 ensures p[i + 1] in Behind(Flattened(c), p[i]) {
        EdgeOfMember(c, m, p[i], p[i + 1]);
      }
      WalkOfEdges(Flattened(c), p);
    }
  }

  // ---------------------------------------------------------------- who leads to whom

  /** What a nesting says of two delayables: inside one member what the member says, and otherwise
      that the one comes before the other's member and the other after the heads of that member. */
  ghost predicate Precedes(c: Vertex, a: Vertex, b: Vertex)
    requires Formed(c)
    decreases c.rank
  {
    exists i, k :: 0 <= i < |c.members| && 0 <= k < |c.members|
      && a in Leaves(c.members[i]) && b in Leaves(c.members[k])
      && if i == k then c.members[k] in c.members && Precedes(c.members[k], a, b)
         else a in InFront(c, k) && b in AfterHeads(c.members[k])
  }

  /** In the flattened graph of a nesting, a delayable leads to exactly those that it precedes. */
  lemma {:induction false} LeadsExactly(c: Vertex, a: Vertex, b: Vertex)
    requires Formed(c) && IsTree(c)
    ensures Leads(Flattened(c), a, b) <==> Precedes(c, a, b)
    decreases c.rank
  {
    hide Flattened, Leaves, IsTree, AfterHeads, InFront;
    MembersAreTrees(c);
    if Leads(Flattened(c), a, b) {
      var i, k := LeadsInMembers(c, a, b);
      LeadsExactlyIn(c, i, k, a, b);
    }
    if Precedes(c, a, b) {
      var i, k :| 0 <= i < |c.members| && 0 <= k < |c.members|
        && a in Leaves(c.members[i]) && b in Leaves(c.members[k])
        && if i == k then Precedes(c.members[k], a, b) else a in InFront(c, k) && b in AfterHeads(c.members[k]);
      LeadsExactlyIn(c, i, k, a, b);
    }
  }

  lemma {:induction false} LeadsExactlyIn(c: Vertex, i: nat, k: nat, a: Vertex, b: Vertex)
    requires Formed(c) && IsTree(c) && i < |c.members| && k < |c.members|
    requires a in Leaves(c.members[i]) && b in Leaves(c.members[k])
    ensures Leads(Flattened(c), a, b) <==>
            if i == k then Precedes(c.members[k], a, b) else a in InFront(c, k) && b in AfterHeads(c.members[k])
    decreases c.rank, 0
  {
    hide Flattened, Leaves, IsTree, AfterHeads, InFront, Leads, Precedes;
    MembersAreTrees(c);
    assert c.members[k] in c.members;
    if i == k {
      LeadsWithin(c, k, a, b);
      LeadsExactly(c.members[k], a, b);
    } else {
      LeadsBetween(c, i, k, a, b);
    }
  }

  lemma LeadsInMembers(c: Vertex, a: Vertex, b: Vertex) returns (i: nat, k: nat)
    requires Formed(c) && Leads(Flattened(c), a, b)
    ensures i < |c.members| && k < |c.members| && a in Leaves(c.members[i]) && b in Leaves(c.members[k])
  {
    hide Flattened, Leaves;
    var p :| IsWalk(Flattened(c), p) && |p| >= 2 && p[0] == a && p[|p| - 1] == b;
    assert p[1] in Behind(Flattened(c), p[0]) && p[|p| - 2 + 1] in Behind(Flattened(c), p[|p| - 2]);
    var y, x;
    i, y := EdgeOfMembers(c, p[0], p[1]);
    x, k := EdgeOfMembers(c, p[|p| - 2], p[|p| - 1]);
  }

  /** So a chain keeps the order between all in one member and all in a later one if and only if all
      of the one comes before the other and all of the other after its heads. */
  lemma KeepsOrderExactlyIf(c: Vertex, i: nat, k: nat)
    requires Formed(c) && IsTree(c) && c.shape.Chain? && i < k < |c.members|
    requires Leaves(c.members[i]) != {} && Leaves(c.members[k]) != {}
    ensures (forall a, b :: a in Leaves(c.members[i]) && b in Leaves(c.members[k]) ==> Leads(Flattened(c), a, b)) <==>
            Leaves(c.members[i]) <= BeforeLink(c, k) && AfterHeads(c.members[k]) == Leaves(c.members[k])
  {
    hide IsTree, AfterHeads, BeforeLink, Flattened, Leads, Leaves;
    var us, ns := Leaves(c.members[i]), Leaves(c.members[k]);
    LeavesOfMember(c, k);
    AfterIsInside(c.members[k]);
    forall a, b | a in us && b in ns
      ensures Leads(Flattened(c), a, b) <==> a in us * BeforeLink(c, k) && b in AfterHeads(c.members[k])
    {
      LeadsBetween(c, i, k, a, b);
    }
    Rectangle(us, ns, us * BeforeLink(c, k), AfterHeads(c.members[k]), Flattened(c));
  }

  lemma Rectangle(us: set<Vertex>, ns: set<Vertex>, before: set<Vertex>, after: set<Vertex>, g: Adjacency<Vertex>)
    requires us != {} && ns != {} && before <= us && after <= ns
    requires forall a, b :: a in us && b in ns ==> (Leads(g, a, b) <==> a in before && b in after)
    ensures (forall a, b :: a in us && b in ns ==> Leads(g, a, b)) <==> before == us && after == ns
  {
    hide Leads;
    var x :| x in us;
    var y :| y in ns;
    if forall a, b :: a in us && b in ns ==> Leads(g, a, b) {
      forall a | a in us ensures a in before {
        assert Leads(g, a, y);
      }
      forall b | b in ns ensures b in after {
        assert Leads(g, x, b);
      }
    }
  }

  lemma LeavesOfPair(v: Vertex, m: Vertex, n: Vertex)
    requires Formed(v) && v.shape.Chain? && v.members == [m, n]
    ensures Formed(m) && Formed(n) && Leaves(v) == Leaves(m) + Leaves(n)
    ensures IsTree(v) <==> IsTree(m) && IsTree(n) && Leaves(m) !! Leaves(n)
  {
    assert v.members[0] == m && v.members[1] == n;
    assert forall k :: k in v.members <==> k == m || k == n;
  }

  lemma AfterOfPair(v: Vertex, m: Vertex, n: Vertex)
    requires Formed(v) && v.shape.Chain? && v.members == [m, n] && Formed(m) && Formed(n)
    ensures AfterHeads(v) == AfterTails(m) + if Tails(m) == {} then {} else AfterHeads(n)
    ensures AfterTails(v) == AfterHeads(n) && Tails(v) == Heads(n)
  {
    assert v.shape == Shape.Chain(m, n) && AfterLink(v, 2) == {};
    assert AfterLink(v, 1) == AfterHeads(n);
  }

  lemma BeforeOfPair(v: Vertex, m: Vertex, n: Vertex)
    requires Formed(v) && v.shape.Chain? && v.members == [m, n] && Formed(m) && Formed(n)
    ensures BeforeTails(v) == BeforeHeads(n) + if Heads(n) == {} then {} else BeforeTails(m)
    ensures BeforeHeads(v) == BeforeTails(m) && Heads(v) == Tails(m) && BeforeLink(v, 1) == BeforeTails(m)
  {
    assert v.shape == Shape.Chain(m, n) && BeforeLink(v, 0) == {};
    assert BeforeLink(v, 1) == BeforeTails(m);
  }

  lemma DelayableAlone(d: Vertex)
    requires Formed(d) && d.shape.Delayable?
    ensures IsTree(d) && Leaves(d) == {d} && Heads(d) == {d} && Tails(d) == {d}
    ensures AfterHeads(d) == {d} && AfterTails(d) == {d} && BeforeTails(d) == {d} && BeforeHeads(d) == {d}
  {
  }

  /** The shortest nesting that does not wait as a whole: in `chain(x, chain(chain(a, b), c))` the
      delayable `a` does not wait for `x`. */
  lemma NestedChainDoesNotWait(x: Vertex, a: Vertex, b: Vertex, c: Vertex, inner: Vertex, outer: Vertex, top: Vertex)
    requires a.shape.Delayable? && b.shape.Delayable? && c.shape.Delayable? && x.shape.Delayable?
    requires a != b && a != c && b != c && x !in {a, b, c}
    requires inner.shape.Chain? && inner.members == [a, b] && outer.shape.Chain? && outer.members == [inner, c]
    requires top.shape.Chain? && top.members == [x, outer] && Formed(top)
    ensures IsTree(top) && Leaves(top) == {x, a, b, c} && !Leads(Flattened(top), x, a)
  {
    hide Formed, IsTree, Leaves, AfterHeads, AfterTails, Heads, Tails, InFront, Flattened, Leads;
    LeavesOfPair(top, x, outer);
    LeavesOfPair(outer, inner, c);
    LeavesOfPair(inner, a, b);
    DelayableAlone(x);
    DelayableAlone(a);
    DelayableAlone(b);
    DelayableAlone(c);
    AfterOfPair(inner, a, b);
    AfterOfPair(outer, inner, c);
    LeadsBetween(top, 0, 1, x, a);
  }

  /** And in `chain(chain(a, chain(b, c)), x)` the delayable `x` does not wait for `c`. */
  lemma NestedChainIsNotWaitedFor(x: Vertex, a: Vertex, b: Vertex, c: Vertex, inner: Vertex, outer: Vertex, top: Vertex)
    requires a.shape.Delayable? && b.shape.Delayable? && c.shape.Delayable? && x.shape.Delayable?
    requires a != b && a != c && b != c && x !in {a, b, c}
    requires inner.shape.Chain? && inner.members == [b, c] && outer.shape.Chain? && outer.members == [a, inner]
    requires top.shape.Chain? && top.members == [outer, x] && Formed(top)
    ensures IsTree(top) && Leaves(top) == {x, a, b, c} && !Leads(Flattened(top), c, x)
  {
    hide Formed, IsTree, Leaves, BeforeTails, BeforeHeads, BeforeLink, Heads, Tails, AfterHeads, Flattened, Leads;
    LeavesOfPair(top, outer, x);
    LeavesOfPair(outer, a, inner);
    LeavesOfPair(inner, b, c);
    DelayableAlone(x);
    DelayableAlone(a);
    DelayableAlone(b);
    DelayableAlone(c);
    BeforeOfPair(inner, b, c);
    BeforeOfPair(outer, a, inner);
    BeforeOfPair(top, outer, x);
    LeadsBetween(top, 0, 1, c, x);
  }
}
