/** What is inside a nesting of chains and groups. */
module Nestings {
  import opened Sequences
  import opened Graphs
  import opened Delays
  import opened Flattening
  import opened FlatteningTheorems

  /** The vertex and everything inside. */
  ghost function Subs(v: Vertex): set<Vertex>
    requires Formed(v)
    decreases v.rank
  {
    {v} + set m, s | m in v.members && s in Subs(m) :: s
  }

  lemma {:induction false} SubsAreFormed(v: Vertex)
    requires Formed(v)
    ensures forall s :: s in Subs(v) ==>
        Formed(s) && s.rank <= v.rank && Leaves(s) <= Leaves(v) && AsSet(s.members) <= Subs(v)
    decreases v.rank
  {
    forall m | m in v.members
      ensures forall s :: s in Subs(m) ==>
          Formed(s) && s.rank <= m.rank && Leaves(s) <= Leaves(m) && AsSet(s.members) <= Subs(m)
    {
      SubsAreFormed(m);
    }
    forall s | s in Subs(v) ensures Formed(s) && s.rank <= v.rank && Leaves(s) <= Leaves(v)
        && AsSet(s.members) <= Subs(v) {
      if s == v {
        assert forall m :: m in v.members ==> m in Subs(m);
      } else {
        var m :| m in v.members && s in Subs(m);
      }
    }
  }

  /** What is inside a reached vertex is reached. */
  lemma {:induction false} SubsAreReached(w: World, start: Vertex, v: Vertex)
    requires IsWorld(w) && v in Reach(w, start)
    ensures Formed(v) && Subs(v) <= Reach(w, start)
    decreases v.rank
  {
    assert VertexOk(w, v);
    MembersAreReached(w, start, v);
    forall m | m in v.members ensures Subs(m) <= Reach(w, start) {
      SubsAreReached(w, start, m);
    }
  }

  /** No delayable is in two places. */
  ghost predicate IsTree(v: Vertex)
    requires Formed(v)
    decreases v.rank
  {
    && (forall m :: m in v.members ==> IsTree(m))
    && forall i, k :: 0 <= i < k < |v.members| ==> Leaves(v.members[i]) !! Leaves(v.members[k])
  }

  lemma InOnePlace(v: Vertex, i: nat, k: nat, t: Vertex)
    requires Formed(v) && IsTree(v) && i < |v.members| && k < |v.members|
    requires t in Leaves(v.members[i]) && t in Leaves(v.members[k])
    ensures i == k
  {
  }

  lemma {:induction false} LeavesAreSubs(v: Vertex)
    requires Formed(v)
    ensures Leaves(v) <= Subs(v)
    decreases v.rank
  {
    forall m | m in v.members ensures Leaves(m) <= Subs(m) {
      LeavesAreSubs(m);
    }
  }

  ghost function Some(s: set<Vertex>): (v: Vertex)
    requires s != {}
    ensures v in s
  {
    var v :| v in s; v
  }

  lemma Joined(g: Adjacency<Vertex>, a: Vertex, b: Vertex, c: Vertex)
    requires a == b || Leads(g, a, b)
    requires b == c || Leads(g, b, c)
    ensures a == c || Leads(g, a, c)
    ensures Leads(g, a, b) || Leads(g, b, c) ==> Leads(g, a, c)
  {
    hide Leads;
    if a != b && b != c {
      LeadsOn(g, a, b, c);
    } else if Leads(g, a, b) && Leads(g, b, c) {
      LeadsOn(g, a, b, c);
    }
  }

  lemma SubOfMember(v: Vertex, d: Vertex) returns (m: Vertex)
    requires Formed(v) && d in Subs(v) && d != v
    ensures m in v.members && Formed(m) && d in Subs(m)
  {
    m :| m in v.members && d in Subs(m);
  }

  lemma LeavesOfMember(v: Vertex, i: nat)
    requires Formed(v) && i < |v.members|
    ensures v.members[i] in v.members && Formed(v.members[i]) && Leaves(v.members[i]) <= Leaves(v)
  {
    assert v.members[i] in v.members;
  }

  lemma MembersAreTrees(v: Vertex)
    requires Formed(v) && IsTree(v)
    ensures forall m :: m in v.members ==> Formed(m) && IsTree(m)
  {
  }
}
