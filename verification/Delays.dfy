/** Delayables, chains and groups, and the one graph of delayables they are flattened to. */
module Delays {
  import opened Sequences
  import opened Graphs

  datatype Shape = Delayable | Chain(head: Vertex, tail: Vertex) | Group(delayables: set<Vertex>)

  /** The vertices behind which `on_done` links. */
  ghost function LinkedFrom(v: Vertex): set<Vertex> {
    match v.shape
    case Delayable => {v}
    case Chain(_, tail) => {tail}
    case Group(delayables) => delayables
  }

  /** `g'` is `g` with every vertex of `ns` linked behind every vertex of `us`. */
  ghost predicate IsLinkedMore(g: Adjacency<Vertex>, us: set<Vertex>, ns: set<Vertex>, g': Adjacency<Vertex>) {
    && g'.Keys == g.Keys + (if us == {} || ns == {} then {} else us + ns)
    && forall u :: u in g' ==> g'[u] == (if u in g then g[u] else {}) + if u in us then ns else {}
  }

  lemma LinkNone(g: Adjacency<Vertex>, us: set<Vertex>)
    ensures IsLinkedMore(g, us, {}, g) && AsSet<Vertex>([]) == {}
  {
  }

  lemma LinkedFromNone(g: Adjacency<Vertex>, ns: set<Vertex>)
    ensures IsLinkedMore(g, {}, ns, g)
  {
  }

  lemma LinkOneMore(g: Adjacency<Vertex>, u: Vertex, ns: set<Vertex>, n: Vertex, g1: Adjacency<Vertex>)
    requires IsLinkedMore(g, {u}, ns, g1)
    ensures IsLinkedMore(g, {u}, ns + {n}, WithEdge(g1, u, n))
  {
  }

  lemma LinkedTwice(g: Adjacency<Vertex>, us: set<Vertex>, u: Vertex, ns: set<Vertex>, g1: Adjacency<Vertex>,
      g2: Adjacency<Vertex>)
    requires IsLinkedMore(g, us, ns, g1) && IsLinkedMore(g1, {u}, ns, g2)
    ensures IsLinkedMore(g, us + {u}, ns, g2)
  {
  }

  /** The graph of a chain: each member with an edge to the next. */
  ghost function Links(s: seq<Vertex>): Adjacency<Vertex>
    requires s != []
  {
    if |s| == 1 then map[s[0] := {}] else WithEdge(Links(s[..|s| - 1]), s[|s| - 2], s[|s| - 1])
  }

  ghost function Above(s: seq<Vertex>): nat {
    if s == [] then 0
    else
      var rest := Above(s[..|s| - 1]);
      if rest <= s[|s| - 1].rank then s[|s| - 1].rank + 1 else rest
  }

  lemma {:induction false} RanksBelow(s: seq<Vertex>)
    ensures forall m :: m in s ==> m.rank < Above(s)
  {
    if s == [] {
    } else {
      RanksBelow(s[..|s| - 1]);
      assert forall m :: m in s ==> m in s[..|s| - 1] || m == s[|s| - 1];
    }
  }

  /** Nested as the constructors do it. */
  ghost predicate Formed(v: Vertex)
    decreases v.rank
  {
    && (forall m :: m in v.members ==> m.rank < v.rank && Formed(m))
    && match v.shape
       case Delayable => v.members == []
       case Chain(head, tail) => v.members != [] && head == v.members[0] && tail == v.members[|v.members| - 1]
       case Group(delayables) => AsSet(v.members) == delayables
  }

  /** The graph that a vertex is made with. */
  ghost function Own(v: Vertex): Adjacency<Vertex>
    requires Formed(v)
  {
    match v.shape
    case Delayable => map[v := {}]
    case Chain(_, _) => Links(v.members)
    case Group(_) => map m | m in v.members :: {}
  }

  /** `_head`; that of a chain is the tail of its first member. */
  function Heads(v: Vertex): set<Vertex>
    requires Formed(v)
    decreases v.rank
  {
    match v.shape
    case Delayable => {v}
    case Chain(head, _) => Tails(head)
    case Group(delayables) => set m, h | m in delayables && h in Heads(m) :: h
  }

  /** `_tail`; that of a chain is the head of its last member. */
  function Tails(v: Vertex): set<Vertex>
    requires Formed(v)
    decreases v.rank
  {
    match v.shape
    case Delayable => {v}
    case Chain(_, tail) => Heads(tail)
    case Group(delayables) => set m, t | m in delayables && t in Tails(m) :: t
  }

  /** The delayables inside. */
  ghost function Leaves(v: Vertex): set<Vertex>
    requires Formed(v)
    decreases v.rank
  {
    if v.shape.Delayable? then {v} else set m, d | m in v.members && d in Leaves(m) :: d
  }

  /** A delayable, a chain or a group. Each has its own small graph, which grows. */
  class Vertex {
    const shape: Shape
    const graph: Graph<Vertex>
    ghost const members: seq<Vertex>  // what a chain or group was made of
    ghost const rank: nat             // how deeply it is nested

    constructor Delayable()
      ensures Formed(this) && shape == Shape.Delayable && members == []
      ensures fresh(graph) && graph.graph == map[this := {}] == Own(this)
    {
      shape, members, rank := Shape.Delayable, [], 0;
      graph := new Graph();
      new;
      graph.AddVertex(this);
    }

    /** `DelayableChain(*delayables)`; a chain of nothing is an error of the caller. */
    constructor Chain(delayables: seq<Vertex>)
      requires delayables != [] && forall m :: m in delayables ==> Formed(m)
      ensures Formed(this) && shape.Chain? && members == delayables
      ensures fresh(graph) && graph.graph == Links(delayables) == Own(this)
    {
      shape, members, rank := Shape.Chain(delayables[0], delayables[|delayables| - 1]), delayables, Above(delayables);
      graph := new Graph();
      new;
      var head := delayables[0];
      graph.AddVertex(head);
      for i := 1 to |delayables|
        invariant head == delayables[i - 1] && graph.graph == Links(delayables[..i])
      {
        assert delayables[..i + 1][..i] == delayables[..i];
        graph.AddEdge(head, delayables[i]);
        head := delayables[i];
      }
      assert delayables[..|delayables|] == delayables;
      RanksBelow(delayables);
    }

    constructor Group(delayables: seq<Vertex>)
      requires forall m :: m in delayables ==> Formed(m)
      ensures Formed(this) && shape == Shape.Group(AsSet(delayables)) && members == delayables
      ensures fresh(graph) && graph.graph == (map m | m in delayables :: {}) == Own(this)
    {
      shape, members, rank := Shape.Group(AsSet(delayables)), delayables, Above(delayables);
      graph := new Graph();
      new;
      for i := 0 to |delayables|
        invariant graph.graph == map m | m in delayables[..i] :: {}
      {
        graph.AddVertex(delayables[i]);
      }
      assert delayables[..|delayables|] == delayables;
      RanksBelow(delayables);
    }

    /** `on_done`: the given vertices come behind a delayable, behind the last member of a chain, or
        behind every member of a group. */
    method OnDone(delayables: seq<Vertex>)
      requires Formed(this)
      modifies graph
      ensures IsLinkedMore(old(graph.graph), LinkedFrom(this), AsSet(delayables), graph.graph)
    {
      match shape
      case Delayable => LinkAll(this, delayables);
      case Chain(_, tail) => LinkAll(tail, delayables);
      case Group(all) =>
        hide IsLinkedMore;
        ghost var was := graph.graph;
        LinkedFromNone(was, AsSet(delayables));
        assert all - all == {};
        var parents := all;
        while parents != {}
          invariant parents <= all && IsLinkedMore(was, all - parents, AsSet(delayables), graph.graph)
        {
          var parent :| parent in parents;
          ghost var before := graph.graph;
          LinkAll(parent, delayables);
          LinkedTwice(was, all - parents, parent, AsSet(delayables), before, graph.graph);
          assert all - parents + {parent} == all - (parents - {parent});
          parents := parents - {parent};
        }
        assert all - parents == all;
    }

    method LinkAll(parent: Vertex, delayables: seq<Vertex>)
      modifies graph
      ensures IsLinkedMore(old(graph.graph), {parent}, AsSet(delayables), graph.graph)
    {
      hide IsLinkedMore, WithEdge;
      ghost var was := graph.graph;
      LinkNone(was, {parent});
      for i := 0 to |delayables|
        invariant IsLinkedMore(was, {parent}, AsSet(delayables[..i]), graph.graph)
      {
        LinkOneMore(was, parent, AsSet(delayables[..i]), delayables[i], graph.graph);
        graph.AddEdge(parent, delayables[i]);
        assert delayables[..i + 1] == delayables[..i] + [delayables[i]];
        AppendAsSet(delayables[..i], delayables[i]);
      }
      assert delayables[..|delayables|] == delayables;
    }
  }
}
