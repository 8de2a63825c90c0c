/** The jobs of a flattened graph, when they are first stored. */
module GraphJobs {
  import opened Graphs
  import opened JobStates
  import opened StoredJobs
  import opened Protocol
  import opened JobRecords

  /** `links` so far lead to `j`, and from `j`. */
  ghost function Targets(links: seq<(Job, Job)>, j: Job): set<Job> {
    set e | e in links && e.0 == j :: e.1
  }

  /** Depending on and being depended on are inverse to each other. */
  ghost predicate AreMutual(jobs: set<Job>)
    reads jobs
  {
    forall j, k :: j in jobs && k in jobs ==> (k in j.dependsOn <==> j in k.reverseDependsOn)
  }

  /** What the links so far make of a new job. */
  ghost predicate IsLinked(links: seq<(Job, Job)>, j: Job)
    reads j
  {
    && j.dependsOn == Sources(links, j) && j.reverseDependsOn == Targets(links, j)
    && j.state == if j.dependsOn == {} then Pending else WaitDependencies
  }

  lemma OneMoreLink(links: seq<(Job, Job)>, i: nat, j: Job)
    requires i < |links|
    ensures Sources(links[..i + 1], j) == Sources(links[..i], j) + if j == links[i].1 then {links[i].0} else {}
    ensures Targets(links[..i + 1], j) == Targets(links[..i], j) + if j == links[i].0 then {links[i].1} else {}
  {
    assert links[..i + 1] == links[..i] + [links[i]];
    var e := links[i];
    assert forall l :: l in links[..i + 1] <==> l in links[..i] || l == e;
  }

  method AddLink(ghost jobs: set<Job>, links: seq<(Job, Job)>, i: nat)
    requires i < |links| && links[i].0 in jobs && links[i].1 in jobs && links[i].0 != links[i].1
    requires forall j :: j in jobs ==> IsLinked(links[..i], j)
    modifies jobs
    ensures forall j :: j in jobs ==> IsLinked(links[..i + 1], j)
  {
    var (parent, child) := links[i];
    var ok := child.AddDepends({parent});
    forall j | j in jobs ensures IsLinked(links[..i + 1], j) {
      OneMoreLink(links, i, j);
    }
  }

  /** What the graph makes of all its jobs. */
  ghost predicate FollowsGraph(g: Adjacency<Job>)
    reads g.Keys
  {
    forall j :: j in g ==> && j.dependsOn == Parents(g, j) && j.reverseDependsOn == g[j]
                           && j.state == if Parents(g, j) == {} then Pending else WaitDependencies
  }

  lemma LinkedFollow(g: Adjacency<Job>, links: seq<(Job, Job)>)
    requires EdgeClosed(g) && forall u, v :: (u, v) in links <==> u in g && v in g[u]
    requires forall j :: j in g ==> IsLinked(links, j)
    ensures FollowsGraph(g) && AreMutual(g.Keys)
  {
    forall j | j in g ensures Sources(links, j) == Parents(g, j) && Targets(links, j) == g[j] {
      assert forall k :: k in Sources(links, j) <==> (k, j) in links;
      assert forall k :: k in Targets(links, j) <==> (j, k) in links;
    }
  }

  // ---------------------------------------------------------------- as rows

  ghost predicate HaveUniqueUuids(jobs: set<Job>) {
    forall i, j :: i in jobs && j in jobs && i.uuid == j.uuid ==> i == j
  }

  /** The graph of the uuids. */
  ghost function UuidGraph(g: Adjacency<Job>): Adjacency<string>
    requires HaveUniqueUuids(g.Keys)
  {
    map j | j in g :: j.uuid := Uuids(g[j])
  }

  lemma UuidParents(g: Adjacency<Job>, j: Job)
    requires EdgeClosed(g) && HaveUniqueUuids(g.Keys) && j in g
    ensures Parents(UuidGraph(g), j.uuid) == Uuids(Parents(g, j))
  {
    var h := UuidGraph(g);
    forall u | u in Parents(h, j.uuid) ensures u in Uuids(Parents(g, j)) {
      var i :| i in g && i.uuid == u;
      assert h[u] == Uuids(g[i]);
      var k :| k in g[i] && k.uuid == j.uuid;
      assert i in Parents(g, j);
    }
    forall i | i in Parents(g, j) ensures i.uuid in Parents(h, j.uuid) {
      assert h[i.uuid] == Uuids(g[i]) && j.uuid in Uuids(g[i]);
    }
  }

  lemma UuidGraphIsClosed(g: Adjacency<Job>)
    requires EdgeClosed(g) && (forall j :: j in g ==> j !in g[j]) && HaveUniqueUuids(g.Keys)
    ensures CanBeCreated(UuidGraph(g))
  {
    forall j | j in g ensures Uuids(g[j]) <= UuidGraph(g).Keys && j.uuid !in Uuids(g[j]) {
    }
  }

  lemma RowIsNew(g: Adjacency<Job>, j: Job)
    requires EdgeClosed(g) && FollowsGraph(g) && HaveUniqueUuids(g.Keys) && j in g
    ensures j.uuid in UuidGraph(g) && RowOf(j) == NewRows(UuidGraph(g))[j.uuid]
  {
    UuidParents(g, j);
    assert UuidGraph(g)[j.uuid] == Uuids(g[j]);
    hide UuidGraph, Parents;
    assert Uuids(Parents(g, j)) == {} ==> Parents(g, j) == {} by {
      assert forall i :: i in Parents(g, j) ==> i.uuid in Uuids(Parents(g, j));
    }
  }

  lemma GraphIsTable(g: Adjacency<Job>)
    requires EdgeClosed(g) && FollowsGraph(g) && HaveUniqueUuids(g.Keys)
    ensures IsTable(g.Keys) && NewRows(UuidGraph(g)).Keys == Uuids(g.Keys)
  {
  }

  /** Jobs that follow a graph are the new rows that the protocol creates for it. */
  lemma AreNewRows(g: Adjacency<Job>)
    requires EdgeClosed(g) && FollowsGraph(g) && HaveUniqueUuids(g.Keys)
    ensures Holds(g.Keys, NewRows(UuidGraph(g)))
  {
    hide NewRows, UuidGraph, FollowsGraph, EdgeClosed, RowOf;
    GraphIsTable(g);
    forall j | j in g ensures RowOf(j) == NewRows(UuidGraph(g))[j.uuid] {
      RowIsNew(g, j);
    }
    OnlyStates(g.Keys, NewRows(UuidGraph(g)));
  }

  /** The part of `delay` that makes every job depend on those that lead to it. Jobs with parents
      wait, the others are pending. */
  method LinkJobs(graph: Graph<Job>)
    requires EdgeClosed(graph.graph) && forall j :: j in graph.graph ==> j !in graph.graph[j]
    requires forall j :: j in graph.graph ==> j.state == Pending && j.dependsOn == {} && j.reverseDependsOn == {}
    modifies graph.graph.Keys
    ensures graph.graph == old(graph.graph)
    ensures FollowsGraph(graph.graph) && AreMutual(graph.graph.Keys)
    ensures forall j :: j in graph.graph ==>
              && j.dependsOn == Parents(graph.graph, j) && j.reverseDependsOn == graph.graph[j]
              && j.state == if Parents(graph.graph, j) == {} then Pending else WaitDependencies
    ensures HaveUniqueUuids(graph.graph.Keys) ==>
        Holds(graph.graph.Keys, NewRows(UuidGraph(graph.graph))) && CanBeCreated(UuidGraph(graph.graph))
  {
    ghost var g := graph.graph;
    var links := graph.Edges();
    forall j | j in g ensures IsLinked(links[..0], j) {
      assert Sources(links[..0], j) == {} && Targets(links[..0], j) == {};
    }
    for i := 0 to |links|
      invariant graph.graph == g
      invariant forall j :: j in g ==> IsLinked(links[..i], j)
    {
      assert links[i] in links;
      AddLink(g.Keys, links, i);
    }
    assert links[..|links|] == links;
    LinkedFollow(g, links);
    hide IsLinked, AreMutual;
    if HaveUniqueUuids(g.Keys) {
      AreNewRows(g);
      UuidGraphIsClosed(g);
    }
  }
}
