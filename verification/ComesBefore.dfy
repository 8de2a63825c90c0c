/** What comes before the tails of a nesting, or before its heads. */
module ComesBefore {
  import opened Sequences
  import opened Graphs
  import opened Delays
  import opened Flattening
  import opened FlatteningTheorems
  import opened Nestings

  /** The delayables inside `v` that are tails of `v` or come before one. */
  ghost function BeforeTails(v: Vertex): set<Vertex>
    requires Formed(v)
    decreases v.rank, 0
  {
    match v.shape
    case Delayable => {v}
    case Chain(_, tail) => BeforeHeads(tail) + if Heads(tail) == {} then {} else BeforeLink(v, |v.members| - 1)
    case Group(_) => set m, d | m in v.members && d in BeforeTails(m) :: d
  }

  /** The delayables inside `v` that are heads of `v` or come before one. */
  ghost function BeforeHeads(v: Vertex): set<Vertex>
    requires Formed(v)
    decreases v.rank, 0
  {
    match v.shape
    case Delayable => {v}
    case Chain(head, _) => BeforeTails(head)
    case Group(_) => set m, d | m in v.members && d in BeforeHeads(m) :: d
  }

  /** Those in the members of a chain before number `i`, once the heads of that member come before:
      the member before the last of them does too only if one of that member's heads is among them. */
  ghost function BeforeLink(c: Vertex, i: nat): set<Vertex>
    requires Formed(c) && i <= |c.members|
    decreases c.rank, 0, i
  {
    if i == 0 then {}
    else
      var here := BeforeTails(c.members[i - 1]);
      if here * Heads(c.members[i - 1]) == {} then here else here + BeforeLink(c, i - 1)
  }

  /** The delayables inside `v` that come before what is passed to its `on_done`. Behind a chain that
      is linked to the last member, and so behind its tails. */
  ghost function BeforeEnd(v: Vertex): set<Vertex>
    requires Formed(v)
  {
    if v.shape.Chain? then BeforeLink(v, |v.members|) else BeforeTails(v)
  }

  lemma {:induction false} BeforeIsInside(v: Vertex)
    requires Formed(v)
    ensures Tails(v) <= BeforeTails(v) <= Leaves(v)
    ensures Heads(v) <= BeforeHeads(v) <= Leaves(v)
    decreases v.rank, 0
  {
    forall m | m in v.members
      ensures Tails(m) <= BeforeTails(m) <= Leaves(m) && Heads(m) <= BeforeHeads(m) <= Leaves(m)
    {
      BeforeIsInside(m);
    }
    if v.shape.Chain? {
      BeforeLinkIsInside(v, |v.members| - 1);
    }
  }

  lemma {:induction false} BeforeLinkIsInside(c: Vertex, i: nat)
    requires Formed(c) && forall m :: m in c.members ==> Tails(m) <= BeforeTails(m) <= Leaves(m)
    requires c.shape.Chain? && i <= |c.members|
    ensures BeforeLink(c, i) <= Leaves(c)
    ensures i > 0 ==> Tails(c.members[i - 1]) <= BeforeLink(c, i)
    decreases i
  {
    if i == 0 {
    } else {
      assert c.members[i - 1] in c.members;
      BeforeLinkIsInside(c, i - 1);
    }
  }

  // ---------------------------------------------------------------- it leads on

  /** Every delayable counted before the tails leads to a tail, in any world. */
  lemma {:induction false} LeadsToTail(w: World, start: Vertex, v: Vertex, a: Vertex) returns (t: Vertex)
    requires IsWorld(w) && v in Reach(w, start) && Formed(v) && a in BeforeTails(v)
    ensures t in Tails(v) && (a == t || Leads(Whole(w, start), a, t))
    decreases v.rank, 0
  {
    hide Whole, Reach, IsWorld, Leads;
    match v.shape
    case Delayable => t := a;
    case Group(_) =>
      var m :| m in v.members && a in BeforeTails(m);
      MembersAreReached(w, start, v);
      t := LeadsToTail(w, start, m, a);
    case Chain(_, tail) =>
      MembersAreReached(w, start, v);
      assert v.members[|v.members| - 1] in v.members;
      if a in BeforeHeads(tail) {
        t := LeadsToHead(w, start, tail, a);
      } else {
        t :| t in Heads(tail);
        LeadsOnToTail(w, start, v, |v.members| - 1, t, t, a);
      }
  }

  lemma {:induction false} LeadsToHead(w: World, start: Vertex, v: Vertex, a: Vertex) returns (h: Vertex)
    requires IsWorld(w) && v in Reach(w, start) && Formed(v) && a in BeforeHeads(v)
    ensures h in Heads(v) && (a == h || Leads(Whole(w, start), a, h))
    decreases v.rank, 0
  {
    hide Whole, Reach, IsWorld, Leads;
    match v.shape
    case Delayable => h := a;
    case Group(_) =>
      var m :| m in v.members && a in BeforeHeads(m);
      MembersAreReached(w, start, v);
      h := LeadsToHead(w, start, m, a);
    case Chain(head, _) =>
      MembersAreReached(w, start, v);
      assert head in v.members;
      h := LeadsToTail(w, start, head, a);
  }

  /** What comes before the tails of the member before number `i` leads to a tail of the chain that a
      head of that member leads to. */
  lemma {:induction false} LeadsOnToTail(w: World, start: Vertex, c: Vertex, i: nat, t: Vertex, h: Vertex, a: Vertex)
    requires IsWorld(w) && c in Reach(w, start) && Formed(c) && c.shape.Chain? && i < |c.members|
        && a in BeforeLink(c, i)
    requires h in Heads(c.members[i]) && (h == t || Leads(Whole(w, start), h, t))
    ensures Leads(Whole(w, start), a, t)
    decreases c.rank, 0, i
  {
    hide Whole, Reach, IsWorld, Leads, IsLink, Tails, Heads;
    var g, m := Whole(w, start), c.members[i - 1];
    MembersAreReached(w, start, c);
    assert m in c.members && c.members[i] in c.members;
    var on := if a in BeforeTails(m) then a else Some(BeforeTails(m) * Heads(m));
    var last := LeadsToTail(w, start, m, on);
    LinkGivesEdge(w, start, m, c.members[i], last, h);
    EdgesLeadToVertices(w, start);
    EdgeLeads(g, last, h);
    Joined(g, last, h, t);
    Joined(g, on, last, t);
    if a !in BeforeTails(m) {
      LeadsOnToTail(w, start, c, i - 1, t, on, a);
    }
  }

  /** What comes before member `k` of a chain leads to a tail of the member in front of it. */
  lemma LeadsToLink(w: World, start: Vertex, c: Vertex, k: nat, a: Vertex) returns (t: Vertex)
    requires IsWorld(w) && c in Reach(w, start) && Formed(c) && c.shape.Chain? && k <= |c.members|
        && a in BeforeLink(c, k)
    ensures k > 0 && t in Tails(c.members[k - 1]) && (a == t || Leads(Whole(w, start), a, t))
  {
    hide Whole, Reach, IsWorld, Leads, IsLink, Tails, Heads;
    var m := c.members[k - 1];
    MembersAreReached(w, start, c);
    assert m in c.members;
    if a in BeforeTails(m) {
      t := LeadsToTail(w, start, m, a);
    } else {
      var on := Some(BeforeTails(m) * Heads(m));
      t := LeadsToTail(w, start, m, on);
      LeadsOnToTail(w, start, c, k - 1, t, on, a);
    }
  }

  /** What comes before the end leads to a tail of a vertex behind which `on_done` links. */
  lemma LeadsToEnd(w: World, start: Vertex, v: Vertex, a: Vertex) returns (u: Vertex, t: Vertex)
    requires IsWorld(w) && v in Reach(w, start) && Formed(v) && a in BeforeEnd(v)
    ensures u in LinkedFrom(v) && Formed(u) && t in Tails(u) && (a == t || Leads(Whole(w, start), a, t))
  {
    hide Whole, Reach, IsWorld, Leads;
    match v.shape
    case Delayable => u, t := v, a;
    case Group(_) =>
      var m :| m in v.members && a in BeforeTails(m);
      MembersAreReached(w, start, v);
      u := m;
      t := LeadsToTail(w, start, m, a);
    case Chain(_, tail) =>
      u := tail;
      t := LeadsToLink(w, start, v, |v.members|, a);
      assert u in v.members;
  }

  // ---------------------------------------------------------------- nothing else does

  ghost function Before(v: Vertex, heads: bool): set<Vertex>
    requires Formed(v)
  {
    if heads then BeforeHeads(v) else BeforeTails(v)
  }

  /** Of a member of a chain, either what comes before its tails is counted or nothing is. */
  lemma {:induction false} BeforeLinkAt(c: Vertex, j: nat, i: nat, h: Vertex)
    requires Formed(c) && IsTree(c) && c.shape.Chain? && i < |c.members| && j <= |c.members|
    requires h in BeforeLink(c, j) && h in Leaves(c.members[i])
    ensures i < j && h in BeforeTails(c.members[i]) && BeforeTails(c.members[i]) <= BeforeLink(c, j)
    ensures h in Heads(c.members[i]) && i > 0 ==> BeforeTails(c.members[i - 1]) <= BeforeLink(c, j)
    decreases j
  {
    assert c.members[j - 1] in c.members;
    BeforeIsInside(c.members[j - 1]);
    if h in BeforeTails(c.members[j - 1]) {
      InOnePlace(c, i, j - 1, h);
    } else {
      BeforeLinkAt(c, j - 1, i, h);
    }
  }

  /** What comes before the tails, or the heads, is closed: no link inside leads into it. */
  lemma {:induction false} LinksStayBefore(v: Vertex, heads: bool, c: Vertex, i: nat, h: Vertex)
    requires Formed(v) && IsTree(v) && c in Subs(v) && Formed(c) && c.shape.Chain? && i + 1 < |c.members|
    requires h in Before(v, heads) && h in Heads(c.members[i + 1])
    ensures Tails(c.members[i]) <= Before(v, heads)
    decreases v.rank
  {
    BeforeIsInside(v);
    assert c.members[i] in c.members && c.members[i + 1] in c.members;
    EndsAreLeaves(c.members[i + 1]);
    BeforeIsInside(c.members[i]);
    if c == v {
      LinkStaysBefore(v, heads, i, h);
    } else {
      var m :| m in v.members && c in Subs(m);
      SubsAreFormed(m);
      assert h in Leaves(c) && h in Leaves(m);
      var j :| 0 <= j < |v.members| && v.members[j] == m;
      var inner := BeforeOfMember(v, heads, j, h);
      LinksStayBefore(m, inner, c, i, h);
    }
  }

  lemma ChainBefore(v: Vertex)
    requires Formed(v) && v.shape.Chain?
    ensures var last := |v.members| - 1;
            BeforeTails(v) ==
            BeforeHeads(v.members[last]) + if Heads(v.members[last]) == {} then {} else BeforeLink(v, last)
    ensures BeforeHeads(v) == BeforeTails(v.members[0])
  {
  }

  /** A chain's own links do not lead in. */
  lemma LinkStaysBefore(v: Vertex, heads: bool, i: nat, h: Vertex)
    requires Formed(v) && IsTree(v) && v.shape.Chain? && i + 1 < |v.members|
    requires h in Before(v, heads) && h in Heads(v.members[i + 1])
    ensures Tails(v.members[i]) <= Before(v, heads)
  {
    hide BeforeTails, BeforeHeads, IsTree, Leaves, Heads, Tails;
    var last := |v.members| - 1;
    assert v.members[i] in v.members && v.members[i + 1] in v.members && v.members[last] in v.members;
    EndsAreLeaves(v.members[i + 1]);
    BeforeIsInside(v.members[i]);
    BeforeIsInside(v.members[last]);
    BeforeIsInside(v.members[0]);
    ChainBefore(v);
    if heads {
      InOnePlace(v, 0, i + 1, h);
    } else if h in BeforeHeads(v.members[last]) {
      InOnePlace(v, i + 1, last, h);
      LastBeforeLink(v);
    } else {
      BeforeLinkAt(v, last, i + 1, h);
    }
  }

  lemma LastBeforeLink(v: Vertex)
    requires Formed(v) && v.shape.Chain? && |v.members| > 1
    ensures BeforeTails(v.members[|v.members| - 2]) <= BeforeLink(v, |v.members| - 1)
  {
  }

  /** What comes before a member of a chain is closed too. */
  lemma LinksStayBeforeLink(c: Vertex, k: nat, d: Vertex, i: nat, h: Vertex)
    requires Formed(c) && IsTree(c) && c.shape.Chain? && k <= |c.members|
    requires d in Subs(c) && Formed(d) && d.shape.Chain? && i + 1 < |d.members|
    requires h in BeforeLink(c, k) && h in Heads(d.members[i + 1])
    ensures Tails(d.members[i]) <= BeforeLink(c, k)
  {
    hide Leaves, Heads, Tails, BeforeTails, BeforeHeads, BeforeLink, IsTree;
    assert d.members[i] in d.members && d.members[i + 1] in d.members;
    EndsAreLeaves(d.members[i + 1]);
    BeforeIsInside(d.members[i]);
    if d == c {
      BeforeLinkAt(c, k, i + 1, h);
    } else {
      var m := SubOfMember(c, d);
      assert h in Leaves(d) by { LeavesOfMember(d, i + 1); }
      SubsAreFormed(m);
      var j :| 0 <= j < |c.members| && c.members[j] == m;
      BeforeLinkAt(c, k, j, h);
      MembersAreTrees(c);
      LinksStayBefore(m, false, d, i, h);
    }
  }

  /** Of each member, what is counted is what comes before its tails, or before its heads. */
  lemma BeforeOfMember(v: Vertex, heads: bool, j: nat, h: Vertex) returns (inner: bool)
    requires Formed(v) && IsTree(v) && j < |v.members| && h in Before(v, heads) && h in Leaves(v.members[j])
    ensures h in Before(v.members[j], inner) && Before(v.members[j], inner) <= Before(v, heads)
  {
    assert v.members[j] in v.members;
    match v.shape
    case Group(_) =>
      inner := heads;
      var m: Vertex;
      if heads {
        m :| m in v.members && h in BeforeHeads(m);
      } else {
        m :| m in v.members && h in BeforeTails(m);
      }
      BeforeIsInside(m);
      var k :| 0 <= k < |v.members| && v.members[k] == m;
      InOnePlace(v, k, j, h);
    case Chain(head, tail) =>
      assert head in v.members && tail in v.members;
      BeforeIsInside(head);
      BeforeIsInside(tail);
      if heads {
        inner := false;
        InOnePlace(v, 0, j, h);
      } else if h in BeforeHeads(tail) {
        inner := true;
        InOnePlace(v, j, |v.members| - 1, h);
      } else {
        inner := false;
        BeforeLinkAt(v, |v.members| - 1, j, h);
      }
  }

  /** Orderly nestings lead on as a whole. */
  lemma {:induction false} OrderlyIsBeforeTails(v: Vertex)
    requires Formed(v) && Orderly(v)
    ensures BeforeTails(v) == Leaves(v)
    decreases v.rank
  {
    BeforeIsInside(v);
    forall m | m in v.members ensures BeforeTails(m) == Leaves(m) {
      OrderlyIsBeforeTails(m);
    }
    if v.shape.Chain? {
      OrderlyChain(v);
    }
  }

  lemma OrderlyChain(v: Vertex)
    requires Formed(v) && Orderly(v) && v.shape.Chain? && forall m :: m in v.members ==> BeforeTails(m) == Leaves(m)
    ensures Leaves(v) <= BeforeTails(v)
  {
    var last := |v.members| - 1;
    var tail := v.members[last];
    assert tail in v.members;
    FlatEnds(tail);
    BeforeIsInside(tail);
    var d := OrderlyHasLeaf(tail);
    ChainBefore(v);
    hide BeforeTails, BeforeHeads, BeforeLink, Heads, Tails, Orderly;
    forall a | a in Leaves(v) ensures a in BeforeTails(v) {
      var k :| 0 <= k < |v.members| && a in Leaves(v.members[k]);
      if k < last {
        OrderlyLeadsOn(v, last, k);
      }
    }
  }

  lemma {:induction false} OrderlyLeadsOn(c: Vertex, i: nat, k: nat)
    requires Formed(c) && Orderly(c) && k < i <= |c.members|
    requires forall m :: m in c.members ==> BeforeTails(m) == Leaves(m)
    ensures Leaves(c.members[k]) <= BeforeLink(c, i)
    decreases i
  {
    var m := c.members[i - 1];
    assert m in c.members;
    if k < i - 1 {
      EndsAreLeaves(m);
      var h := OrderlyHasHead(m);
      OrderlyLeadsOn(c, i - 1, k);
    }
  }

  lemma {:induction false} OrderlyHasHead(v: Vertex) returns (h: Vertex)
    requires Formed(v) && Orderly(v)
    ensures h in Heads(v)
    decreases v.rank
  {
    match v.shape
    case Delayable => h := v;
    case Group(_) =>
      assert v.members[0] in v.members;
      h := OrderlyHasHead(v.members[0]);
    case Chain(head, _) =>
      assert head in v.members;
      FlatEnds(head);
      h := OrderlyHasLeaf(head);
  }

  lemma OrderlyIsBeforeEnd(v: Vertex)
    requires Formed(v) && Orderly(v)
    ensures BeforeEnd(v) == Leaves(v)
  {
    OrderlyIsBeforeTails(v);
    if v.shape.Chain? {
      forall m | m in v.members ensures BeforeTails(m) == Leaves(m) {
        OrderlyIsBeforeTails(m);
      }
      EndIsInside(v);
      forall a | a in Leaves(v) ensures a in BeforeLink(v, |v.members|) {
        var k :| 0 <= k < |v.members| && a in Leaves(v.members[k]);
        OrderlyLeadsOn(v, |v.members|, k);
      }
    }
  }

  lemma EndIsInside(v: Vertex)
    requires Formed(v)
    ensures BeforeEnd(v) <= Leaves(v)
    ensures forall u :: u in LinkedFrom(v) ==> Formed(u) && Tails(u) <= BeforeEnd(v)
  {
    BeforeIsInside(v);
    forall m | m in v.members ensures Tails(m) <= BeforeTails(m) <= Leaves(m) {
      BeforeIsInside(m);
    }
    if v.shape.Chain? {
      BeforeLinkIsInside(v, |v.members|);
      assert v.shape.tail in v.members;
    }
  }
}
