/** What comes after the heads of a nesting, or after its tails. */
module ComesAfter {
  import opened Sequences
  import opened Graphs
  import opened Delays
  import opened Flattening
  import opened FlatteningTheorems
  import opened Nestings

  /** The delayables inside `v` that are heads of `v` or come after one. */
  ghost function AfterHeads(v: Vertex): set<Vertex>
    requires Formed(v)
    decreases v.rank, 0
  {
    match v.shape
    case Delayable => {v}
    case Chain(head, _) => AfterTails(head) + if Tails(head) == {} then {} else AfterLink(v, 1)
    case Group(_) => set m, d | m in v.members && d in AfterHeads(m) :: d
  }

  /** The delayables inside `v` that are tails of `v` or come after one. */
  ghost function AfterTails(v: Vertex): set<Vertex>
    requires Formed(v)
    decreases v.rank, 0
  {
    match v.shape
    case Delayable => {v}
    case Chain(_, tail) => AfterHeads(tail)
    case Group(_) => set m, d | m in v.members && d in AfterTails(m) :: d
  }

  /** Those in the members of a chain from number `i` on, once the heads of that member come after:
      the next member does too only if one of its tails is among them. */
  ghost function AfterLink(c: Vertex, i: nat): set<Vertex>
    requires Formed(c)
    decreases c.rank, 0, |c.members| - i
  {
    if i >= |c.members| then {}
    else
      var here := AfterHeads(c.members[i]);
      if here * Tails(c.members[i]) == {} then here else here + AfterLink(c, i + 1)
  }

  lemma {:induction false} AfterIsInside(v: Vertex)
    requires Formed(v)
    ensures Heads(v) <= AfterHeads(v) <= Leaves(v)
    ensures Tails(v) <= AfterTails(v) <= Leaves(v)
    decreases v.rank, 0
  {
    forall m | m in v.members
      ensures Heads(m) <= AfterHeads(m) <= Leaves(m) && Tails(m) <= AfterTails(m) <= Leaves(m)
    {
      AfterIsInside(m);
    }
    if v.shape.Chain? {
      AfterLinkIsInside(v, 1);
    }
  }

  lemma {:induction false} AfterLinkIsInside(c: Vertex, i: nat)
    requires Formed(c) && forall m :: m in c.members ==> Heads(m) <= AfterHeads(m) <= Leaves(m)
    requires c.shape.Chain?
    ensures AfterLink(c, i) <= Leaves(c)
    ensures i < |c.members| ==> Heads(c.members[i]) <= AfterLink(c, i)
    ensures forall d :: d in AfterLink(c, i) ==> exists k :: i <= k < |c.members| && d in AfterHeads(c.members[k])
    decreases |c.members| - i
  {
    if i < |c.members| {
      assert c.members[i] in c.members;
      AfterLinkIsInside(c, i + 1);
    }
  }

  // ---------------------------------------------------------------- it is led to

  /** Every delayable counted after the heads is led to from a head, in any world. */
  lemma {:induction false} HeadLeads(w: World, start: Vertex, v: Vertex, b: Vertex) returns (h: Vertex)
    requires IsWorld(w) && v in Reach(w, start) && Formed(v) && b in AfterHeads(v)
    ensures h in Heads(v) && (b == h || Leads(Whole(w, start), h, b))
    decreases v.rank, 0
  {
    hide Whole, Reach, IsWorld, Leads;
    match v.shape
    case Delayable => h := b;
    case Group(_) =>
      var m :| m in v.members && b in AfterHeads(m);
      MembersAreReached(w, start, v);
      h := HeadLeads(w, start, m, b);
    case Chain(head, _) =>
      MembersAreReached(w, start, v);
      assert v.members[0] in v.members;
      if b in AfterTails(head) {
        h := TailLeads(w, start, head, b);
      } else {
        h :| h in Tails(head);
        HeadLeadsOn(w, start, v, 1, h, h, b);
      }
  }

  lemma {:induction false} TailLeads(w: World, start: Vertex, v: Vertex, b: Vertex) returns (t: Vertex)
    requires IsWorld(w) && v in Reach(w, start) && Formed(v) && b in AfterTails(v)
    ensures t in Tails(v) && (b == t || Leads(Whole(w, start), t, b))
    decreases v.rank, 0
  {
    hide Whole, Reach, IsWorld, Leads;
    match v.shape
    case Delayable => t := b;
    case Group(_) =>
      var m :| m in v.members && b in AfterTails(m);
      MembersAreReached(w, start, v);
      t := TailLeads(w, start, m, b);
    case Chain(_, tail) =>
      MembersAreReached(w, start, v);
      assert tail in v.members;
      t := HeadLeads(w, start, tail, b);
  }

  /** A head of a chain that leads to a tail of a member leads to what comes after the next one's
      heads. */
  lemma {:induction false} HeadLeadsOn(w: World, start: Vertex, c: Vertex, i: nat, h: Vertex, t: Vertex, b: Vertex)
    requires IsWorld(w) && c in Reach(w, start) && Formed(c) && c.shape.Chain? && 1 <= i && b in AfterLink(c, i)
    requires i - 1 < |c.members| && t in Tails(c.members[i - 1]) && (h == t || Leads(Whole(w, start), h, t))
    ensures Leads(Whole(w, start), h, b)
    decreases c.rank, 0, |c.members| - i
  {
    hide Whole, Reach, IsWorld, Leads, IsLink, Tails, Heads;
    var g, m := Whole(w, start), c.members[i];
    MembersAreReached(w, start, c);
    assert m in c.members && c.members[i - 1] in c.members;
    var on := if b in AfterHeads(m) then b else Some(AfterHeads(m) * Tails(m));
    var first := HeadLeads(w, start, m, on);
    LinkGivesEdge(w, start, c.members[i - 1], m, t, first);
    EdgesLeadToVertices(w, start);
    EdgeLeads(g, t, first);
    Joined(g, h, t, first);
    Joined(g, h, first, on);
    if b !in AfterHeads(m) {
      HeadLeadsOn(w, start, c, i + 1, h, on, b);
    }
  }

  // ---------------------------------------------------------------- nothing else is

  ghost function After(v: Vertex, tails: bool): set<Vertex>
    requires Formed(v)
  {
    if tails then AfterTails(v) else AfterHeads(v)
  }

  /** Of a member of a chain, either what comes after its heads is counted or nothing is. */
  lemma {:induction false} AfterLinkAt(c: Vertex, j: nat, i: nat, t: Vertex)
    requires Formed(c) && IsTree(c) && c.shape.Chain? && i < |c.members|
    requires t in AfterLink(c, j) && t in Leaves(c.members[i])
    ensures j <= i && t in AfterHeads(c.members[i]) && AfterHeads(c.members[i]) <= AfterLink(c, j)
    ensures t in Tails(c.members[i]) && i + 1 < |c.members| ==> AfterHeads(c.members[i + 1]) <= AfterLink(c, j)
    decreases |c.members| - j
  {
    assert c.members[j] in c.members;
    AfterIsInside(c.members[j]);
    if t in AfterHeads(c.members[j]) {
      assert i == j;
    } else {
      AfterLinkAt(c, j + 1, i, t);
    }
  }

  /** What comes after the heads, or the tails, is closed: a link inside does not lead out of it. */
  lemma {:induction false} LinksStayAfter(v: Vertex, tails: bool, c: Vertex, i: nat, t: Vertex)
    requires Formed(v) && IsTree(v) && c in Subs(v) && Formed(c) && c.shape.Chain? && i + 1 < |c.members|
    requires t in After(v, tails) && t in Tails(c.members[i])
    ensures Heads(c.members[i + 1]) <= After(v, tails)
    decreases v.rank
  {
    AfterIsInside(v);
    assert c.members[i] in c.members && c.members[i + 1] in c.members;
    EndsAreLeaves(c.members[i]);
    AfterIsInside(c.members[i + 1]);
    if c == v {
      LinkStaysAfter(v, tails, i, t);
    } else {
      var m :| m in v.members && c in Subs(m);
      SubsAreFormed(m);
      assert t in Leaves(c) && t in Leaves(m);
      var j :| 0 <= j < |v.members| && v.members[j] == m;
      var inner := AfterOfMember(v, tails, j, t);
      LinksStayAfter(m, inner, c, i, t);
    }
  }

  /** A chain's own links do not lead out. */
  lemma LinkStaysAfter(v: Vertex, tails: bool, i: nat, t: Vertex)
    requires Formed(v) && IsTree(v) && v.shape.Chain? && i + 1 < |v.members|
    requires t in After(v, tails) && t in Tails(v.members[i])
    ensures Heads(v.members[i + 1]) <= After(v, tails)
  {
    assert v.members[i] in v.members && v.members[i + 1] in v.members && v.members[0] in v.members;
    EndsAreLeaves(v.members[i]);
    AfterIsInside(v.members[i + 1]);
    AfterIsInside(v.members[0]);
    if tails {
      AfterIsInside(v.shape.tail);
      assert false;
    } else if t in AfterTails(v.members[0]) {
      assert i == 0;
      assert AfterHeads(v.members[1]) <= AfterLink(v, 1);
    } else {
      AfterLinkAt(v, 1, i, t);
    }
  }

  /** Of each member, what is counted is what comes after its heads, or after its tails. */
  lemma AfterOfMember(v: Vertex, tails: bool, j: nat, t: Vertex) returns (inner: bool)
    requires Formed(v) && IsTree(v) && j < |v.members| && t in After(v, tails) && t in Leaves(v.members[j])
    ensures t in After(v.members[j], inner) && After(v.members[j], inner) <= After(v, tails)
  {
    assert v.members[j] in v.members;
    match v.shape
    case Group(_) =>
      inner := tails;
      var m: Vertex;
      if tails {
        m :| m in v.members && t in AfterTails(m);
      } else {
        m :| m in v.members && t in AfterHeads(m);
      }
      AfterIsInside(m);
      var k :| 0 <= k < |v.members| && v.members[k] == m;
      InOnePlace(v, k, j, t);
    case Chain(head, tail) =>
      assert head in v.members && tail in v.members;
      AfterIsInside(head);
      AfterIsInside(tail);
      if tails {
        inner := false;
        InOnePlace(v, j, |v.members| - 1, t);
      } else if t in AfterTails(head) {
        inner := true;
        InOnePlace(v, 0, j, t);
      } else {
        inner := false;
        AfterLinkAt(v, 1, j, t);
      }
  }

  /** Orderly nestings wait as a whole. */
  lemma {:induction false} OrderlyIsAfterHeads(v: Vertex)
    requires Formed(v) && Orderly(v)
    ensures AfterHeads(v) == Leaves(v)
    decreases v.rank
  {
    AfterIsInside(v);
    forall m | m in v.members ensures AfterHeads(m) == Leaves(m) {
      OrderlyIsAfterHeads(m);
    }
    if v.shape.Chain? {
      var head := v.members[0];
      FlatEnds(head);
      AfterIsInside(head);
      var d := OrderlyHasLeaf(head);
      forall b | b in Leaves(v) ensures b in AfterHeads(v) {
        var k :| 0 <= k < |v.members| && b in Leaves(v.members[k]);
        if k > 0 {
          OrderlyLinksOn(v, 1, k);
        }
      }
    }
  }

  lemma {:induction false} OrderlyLinksOn(c: Vertex, i: nat, k: nat)
    requires Formed(c) && Orderly(c) && i <= k < |c.members|
    requires forall m :: m in c.members ==> AfterHeads(m) == Leaves(m)
    ensures Leaves(c.members[k]) <= AfterLink(c, i)
    decreases k - i
  {
    var m := c.members[i];
    assert m in c.members;
    if i < k {
      EndsAreLeaves(m);
      var t := OrderlyHasTail(m);
      OrderlyLinksOn(c, i + 1, k);
    }
  }

  lemma {:induction false} OrderlyHasTail(v: Vertex) returns (t: Vertex)
    requires Formed(v) && Orderly(v)
    ensures t in Tails(v)
    decreases v.rank
  {
    match v.shape
    case Delayable => t := v;
    case Group(_) =>
      assert v.members[0] in v.members;
      t := OrderlyHasTail(v.members[0]);
    case Chain(_, tail) =>
      assert tail in v.members;
      FlatEnds(tail);
      t := OrderlyHasLeaf(tail);
  }
}
