/** Moving one job about the tree, as notifications and removals do, keeps the placement invariant
    and puts the job where its state says. */
module ChannelMoves {
  import opened ChannelJobs
  import opened ChannelNames
  import opened ChannelSteps
  import opened ChannelTree

  /** The job is in no set of any channel. */
  ghost predicate Nowhere(nodes: Nodes, j: ChannelJob) {
    forall p :: p in nodes ==> j !in Placed(nodes[p])
  }

  /** In every channel the other jobs are where they were. */
  ghost predicate OthersStay(nodes: Nodes, nodes': Nodes, j: ChannelJob) {
    && nodes.Keys == nodes'.Keys
    && forall p :: p in nodes ==> Without(nodes'[p], j) == Without(nodes[p], j)
  }

  /** The channel's settings and pause are not touched by moving a job. */
  lemma WithoutKeepsOthers(n: Node, n': Node, j: ChannelJob, o: ChannelJob)
    requires Without(n', j) == Without(n, j) && o != j
    ensures o in n'.queue.ready <==> o in n.queue.ready
    ensures o in n'.queue.waiting <==> o in n.queue.waiting
    ensures o in n.queue.waiting ==> n'.queue.waiting[o] == n.queue.waiting[o]
    ensures o in n'.running <==> o in n.running
    ensures o in n'.failed <==> o in n.failed
  {
    assert o in n'.queue.ready <==> o in Without(n', j).queue.ready;
    assert o in n.queue.ready <==> o in Without(n, j).queue.ready;
    assert o in n'.queue.waiting <==> o in Without(n', j).queue.waiting;
    assert o in n.queue.waiting <==> o in Without(n, j).queue.waiting;
    assert o in n'.running <==> o in Without(n', j).running;
    assert o in n.running <==> o in Without(n, j).running;
    assert o in n'.failed <==> o in Without(n', j).failed;
    assert o in n.failed <==> o in Without(n, j).failed;
  }

  /** How one channel may hold one job, and where. */
  ghost predicate HoldsOk(p: Path, n: Node, jobs: Entries, j: ChannelJob) {
    j in Placed(n) ==>
      && p <= j.home && Registered(jobs, j)
      && (j in n.failed || j in n.queue.waiting ==> j.home == p)
      && (j in n.queue.waiting ==>
          n.queue.waiting[j] != 0 && HasEta(jobs, j, n.queue.waiting[j]) && j !in n.queue.ready)
      && (j in n.queue.ready ==> HasEta(jobs, j, 0))
      && (j in Jobs(n.queue) ==> j !in n.running)
      && (j in Present(n) ==> j !in n.failed)
  }

  /** Changing where one job is keeps the channel in order when its new place is in order. */
  lemma NodeOkWithout(p: Path, n: Node, n': Node, jobs: Entries, j: ChannelJob)
    requires NodeOk(p, n, jobs) && Without(n', j) == Without(n, j)
    requires HoldsOk(p, n', jobs, j)
    ensures NodeOk(p, n', jobs)
  {
    forall o | o in Placed(n') ensures HoldsOk(p, n', jobs, o) {
      if o != j {
        WithoutKeepsOthers(n, n', j, o);
        assert o in Placed(n);
      }
    }
    assert n'.pause == n.pause && n'.throttle == n.throttle by {
      assert Without(n', j).pause == n'.pause;
    }
    assert forall o :: o in n'.failed ==> o in Placed(n');
    assert forall o :: o in Jobs(n'.queue) ==> o in Placed(n');
    assert forall o :: o in n'.running ==> o in Placed(n');
  }

  /** A change of one job's places keeps the tree in order when each new place is in order. */
  lemma TreeOkWithout(nodes: Nodes, nodes': Nodes, jobs: Entries, j: ChannelJob)
    requires TreeOk(nodes, jobs) && OthersStay(nodes, nodes', j)
    requires forall p :: p in nodes' ==> HoldsOk(p, nodes'[p], jobs, j)
    requires forall p :: p in nodes' && j in Present(nodes'[p]) && p != j.home ==>
               TowardHome(p, j) in nodes' && j in nodes'[TowardHome(p, j)].running
    ensures TreeOk(nodes', jobs)
  {
    forall p | p in nodes' ensures NodeOk(p, nodes'[p], jobs) {
      NodeOkWithout(p, nodes[p], nodes'[p], jobs, j);
    }
    forall p, o | p in nodes' && o in Present(nodes'[p]) && p != o.home
      ensures TowardHome(p, o) in nodes' && o in nodes'[TowardHome(p, o)].running
    {
      if o != j {
        WithoutKeepsOthers(nodes[p], nodes'[p], j, o);
        var k := TowardHome(p, o);
        assert k in nodes && o in nodes[k].running;
        WithoutKeepsOthers(nodes[k], nodes'[k], j, o);
      }
    }
  }

  /** Outside its own ancestors a job is nowhere. */
  lemma OnlyOnItsPath(nodes: Nodes, jobs: Entries, j: ChannelJob, p: Path)
    requires TreeOk(nodes, jobs) && p in nodes && !(p <= j.home)
    ensures j !in Placed(nodes[p])
  {
    assert NodeOk(p, nodes[p], jobs);
  }

  lemma WithoutForgets(n: Node, j: ChannelJob)
    ensures j !in Placed(Without(n, j))
    ensures Without(Without(n, j), j) == Without(n, j)
  {
    assert Drop(Drop(n.queue, j), j) == Drop(n.queue, j);
  }

  /** `remove` from its own channel takes a job out of the whole tree and moves no other. */
  lemma StripRemoves(nodes: Nodes, jobs: Entries, j: ChannelJob)
    requires TreeOk(nodes, jobs)
    ensures var nodes' := Strip(nodes, j.home, j);
            TreeOk(nodes', jobs) && Nowhere(nodes', j) && OthersStay(nodes, nodes', j)
  {
    var nodes' := Strip(nodes, j.home, j);
    forall p | p in nodes
      ensures j !in Placed(nodes'[p]) && Without(nodes'[p], j) == Without(nodes[p], j)
    {
      WithoutForgets(nodes[p], j);
      if !(p <= j.home) {
        OnlyOnItsPath(nodes, jobs, j, p);
      }
    }
    TreeOkWithout(nodes, nodes', jobs, j);
  }

  /** After PENDING the job is queued in its own channel, by its eta, and nowhere else. */
  ghost predicate IsPendingAt(nodes: Nodes, j: ChannelJob, eta: nat) {
    && j.home in nodes
    && j !in nodes[j.home].running && j !in nodes[j.home].failed
    && (if eta != 0 then j in nodes[j.home].queue.waiting && nodes[j.home].queue.waiting[j] == eta
        && j !in nodes[j.home].queue.ready
        else j in nodes[j.home].queue.ready && j !in nodes[j.home].queue.waiting)
    && forall p :: p in nodes && p != j.home ==> j !in Placed(nodes[p])
  }

  lemma AddDropsBack(n: Node, j: ChannelJob, eta: nat)
    requires j !in Jobs(n.queue)
    ensures var added := n.(queue := Add(n.queue, j, eta), running := n.running - {j}, failed := n.failed - {j});
            Without(added, j) == Without(n, j)
  {
    assert Drop(Add(n.queue, j, eta), j) == Drop(n.queue, j);
  }

  lemma SetPendingPlaces(nodes: Nodes, jobs: Entries, j: ChannelJob)
    requires TreeOk(nodes, jobs) && j.home in nodes && Registered(jobs, j)
    ensures var nodes' := SetPending(nodes, j.home, j, jobs[j.uuid].eta);
            TreeOk(nodes', jobs) && IsPendingAt(nodes', j, jobs[j.uuid].eta) && OthersStay(nodes, nodes', j)
  {
    var eta := jobs[j.uuid].eta;
    var nodes' := SetPending(nodes, j.home, j, eta);
    if j in Jobs(nodes[j.home].queue) {
      assert NodeOk(j.home, nodes[j.home], jobs);
      forall p | p in nodes && p != j.home ensures j !in Placed(nodes[p]) {
        RestingJobIsNowhereElse(nodes, jobs, j, p);
      }
    } else {
      forall p | p in nodes
        ensures Without(nodes'[p], j) == Without(nodes[p], j) && (p != j.home ==> j !in Placed(nodes'[p]))
      {
        WithoutForgets(nodes[p], j);
        if p == j.home {
          AddDropsBack(nodes[p], j, eta);
        } else if !(p <= j.home) {
          OnlyOnItsPath(nodes, jobs, j, p);
        }
      }
      TreeOkWithout(nodes, nodes', jobs, j);
    }
  }

  /** After FAILED the job is failed in its own channel and nowhere else. */
  ghost predicate IsFailedAt(nodes: Nodes, j: ChannelJob) {
    && j.home in nodes && j in nodes[j.home].failed && j !in Present(nodes[j.home])
    && forall p :: p in nodes && p != j.home ==> j !in Placed(nodes[p])
  }

  lemma SetFailedPlaces(nodes: Nodes, jobs: Entries, j: ChannelJob)
    requires TreeOk(nodes, jobs) && j.home in nodes && Registered(jobs, j)
    ensures var nodes' := SetFailed(nodes, j.home, j);
            TreeOk(nodes', jobs) && IsFailedAt(nodes', j) && OthersStay(nodes, nodes', j)
  {
    var nodes' := SetFailed(nodes, j.home, j);
    if j in nodes[j.home].failed {
      assert NodeOk(j.home, nodes[j.home], jobs);
      forall p | p in nodes && p != j.home ensures j !in Placed(nodes[p]) {
        RestingJobIsNowhereElse(nodes, jobs, j, p);
      }
    } else {
      forall p | p in nodes
        ensures Without(nodes'[p], j) == Without(nodes[p], j) && (p != j.home ==> j !in Placed(nodes'[p]))
      {
        WithoutForgets(nodes[p], j);
        if p != j.home && !(p <= j.home) {
          OnlyOnItsPath(nodes, jobs, j, p);
        }
      }
      TreeOkWithout(nodes, nodes', jobs, j);
    }
  }

  function Marked(n: Node, j: ChannelJob): Node {
    Without(n, j).(running := n.running + {j})
  }

  /** A job that runs in no channel on its way up is marked running in all of them. */
  lemma {:induction false} SetRunningMarksAll(nodes: Nodes, c: Path, j: ChannelJob)
    requires Rooted(nodes.Keys) && c in nodes
    requires forall p :: p in nodes && p <= c ==> j !in nodes[p].running
    ensures SetRunning(nodes, c, j) == map p | p in nodes :: if p <= c then Marked(nodes[p], j) else nodes[p]
    decreases |c|
  {
    var marked := nodes[c := Marked(nodes[c], j)];
    assert marked.Keys == nodes.Keys;
    if c == ROOT {
      assert forall p :: p in nodes && p <= c ==> p == c;
    } else {
      var up := Parent(c);
      assert forall p :: p in nodes ==> (p <= up <==> p <= c && p != c);
      SetRunningMarksAll(marked, up, j);
    }
  }

  /** After ENQUEUED or STARTED the job runs in its own channel; if it did not before, it now runs
      in every ancestor too. */
  ghost predicate IsRunningAt(nodes: Nodes, nodes': Nodes, j: ChannelJob) {
    && j.home in nodes && j.home in nodes' && j in nodes'[j.home].running
    && j !in Jobs(nodes'[j.home].queue) && j !in nodes'[j.home].failed
    && if j in nodes[j.home].running then nodes' == nodes
       else nodes'.Keys == nodes.Keys && forall p :: p in nodes ==>
         if p <= j.home then j in nodes'[p].running && j !in Jobs(nodes'[p].queue) else j !in Placed(nodes'[p])
  }

  lemma SetRunningPlaces(nodes: Nodes, jobs: Entries, j: ChannelJob)
    requires TreeOk(nodes, jobs) && j.home in nodes && Registered(jobs, j)
    ensures var nodes' := SetRunning(nodes, j.home, j);
            TreeOk(nodes', jobs) && IsRunningAt(nodes, nodes', j) && OthersStay(nodes, nodes', j)
  {
    assert NodeOk(j.home, nodes[j.home], jobs);
    if j !in nodes[j.home].running {
      forall p | p in nodes && p <= j.home ensures j !in nodes[p].running {
        if p != j.home && j in nodes[p].running {
          PresentMeansRunningBelow(nodes, jobs, p, j.home, j);
        }
      }
      SetRunningMarksAll(nodes, j.home, j);
      MarkAllPlaces(nodes, jobs, j, SetRunning(nodes, j.home, j));
    }
  }

  lemma MarkAllPlaces(nodes: Nodes, jobs: Entries, j: ChannelJob, nodes': Nodes)
    requires TreeOk(nodes, jobs) && j.home in nodes && Registered(jobs, j) && j !in nodes[j.home].running
    requires nodes'.Keys == nodes.Keys
    requires forall p :: p in nodes ==> nodes'[p] == if p <= j.home then Marked(nodes[p], j) else nodes[p]
    ensures TreeOk(nodes', jobs) && IsRunningAt(nodes, nodes', j) && OthersStay(nodes, nodes', j)
  {
    forall p | p in nodes ensures MarkedOk(p, nodes[p], nodes'[p], jobs, j) {
      MarkedIsOk(nodes, jobs, j, p);
    }
    MarkedTreeOk(nodes, jobs, j, nodes');
  }

  lemma MarkedTreeOk(nodes: Nodes, jobs: Entries, j: ChannelJob, nodes': Nodes)
    requires TreeOk(nodes, jobs) && j.home in nodes && j !in nodes[j.home].running
    requires nodes'.Keys == nodes.Keys
    requires forall p :: p in nodes ==> MarkedOk(p, nodes[p], nodes'[p], jobs, j)
    ensures TreeOk(nodes', jobs) && IsRunningAt(nodes, nodes', j) && OthersStay(nodes, nodes', j)
  {
    forall p | p in nodes' && j in Present(nodes'[p]) && p != j.home
      ensures TowardHome(p, j) in nodes' && j in nodes'[TowardHome(p, j)].running
    {
      assert p <= j.home;
      AncestorIsKey(nodes.Keys, j.home, TowardHome(p, j));
    }
    TreeOkWithout(nodes, nodes', jobs, j);
  }

  ghost predicate MarkedOk(p: Path, n: Node, n': Node, jobs: Entries, j: ChannelJob) {
    && Without(n', j) == Without(n, j) && HoldsOk(p, n', jobs, j)
    && if p <= j.home then j in n'.running && j !in Jobs(n'.queue) && j !in n'.failed else j !in Placed(n')
  }

  lemma MarkedIsOk(nodes: Nodes, jobs: Entries, j: ChannelJob, p: Path)
    requires TreeOk(nodes, jobs) && p in nodes && Registered(jobs, j)
    ensures MarkedOk(p, nodes[p], if p <= j.home then Marked(nodes[p], j) else nodes[p], jobs, j)
  {
    if p <= j.home {
      WithoutForgets(nodes[p], j);
      assert Without(Marked(nodes[p], j), j) == Without(nodes[p], j);
    } else {
      OnlyOnItsPath(nodes, jobs, j, p);
    }
  }

  /** Every channel between the root and a known channel is known. */
  lemma {:induction false} AncestorIsKey(keys: set<Path>, c: Path, p: Path)
    requires Rooted(keys) && c in keys && ROOT <= p <= c
    ensures p in keys
    decreases |c|
  {
    if p != c {
      assert p <= Parent(c);
      AncestorIsKey(keys, Parent(c), p);
    }
  }

  // ---------------------------------------------------------------- channels and entries come and go

  /** The tree after a lookup created the missing channels up to `c`. */
  function Extend(nodes: Nodes, c: Path): Nodes {
    map p | p in nodes.Keys + Prefixes(c) :: if p in nodes then nodes[p] else EMPTY_NODE
  }

  /** The channels on the way to `c` exist then; those that are new are empty and have no limits. */
  lemma ExtendOnFields(nodes: Nodes, c: Path, p: Path)
    ensures p in Extend(nodes, c) <==> p in nodes || (p != [] && p <= c)
    ensures p in nodes ==> Extend(nodes, c)[p] == nodes[p]
    ensures p in Extend(nodes, c) && p !in nodes ==>
              var n := Extend(nodes, c)[p];
              && n.queue.ready == {} && n.queue.waiting == map[] && n.running == {} && n.failed == {}
              && n.pause == 0 && n.capacity == 0 && n.throttle == 0 && !n.sequential
  {
    if p != [] && p <= c {
      assert p == c[..|p|];
    }
  }

  lemma ExtendKeepsTree(nodes: Nodes, jobs: Entries, c: Path)
    requires TreeOk(nodes, jobs) && ROOT <= c
    ensures TreeOk(Extend(nodes, c), jobs) && c in Extend(nodes, c)
    ensures forall p :: p in Extend(nodes, c) && p !in nodes ==> Placed(Extend(nodes, c)[p]) == {}
  {
    LookupKeepsRooted(nodes.Keys, c);
    var nodes' := Extend(nodes, c);
    assert nodes'.Keys == nodes.Keys + Prefixes(c);
    forall p | p in nodes' ensures NodeOk(p, nodes'[p], jobs) && (p !in nodes ==> Placed(nodes'[p]) == {}) {
      assert p !in nodes ==> nodes'[p] == EMPTY_NODE;
    }
    forall p, o | p in nodes' && o in Present(nodes'[p]) && p != o.home
      ensures TowardHome(p, o) in nodes' && o in nodes'[TowardHome(p, o)].running
    {
      assert p in nodes;
    }
  }

  /** An entry may be added, replaced or dropped while no channel holds a job of that uuid. */
  lemma EntryChangeKeepsTree(nodes: Nodes, jobs: Entries, jobs': Entries, us: set<string>)
    requires TreeOk(nodes, jobs)
    requires forall u :: u in jobs && u !in us ==> u in jobs' && jobs'[u] == jobs[u]
    requires forall p, o :: p in nodes && o in Placed(nodes[p]) ==> o.uuid !in us
    ensures TreeOk(nodes, jobs')
  {
    forall p | p in nodes ensures NodeOk(p, nodes[p], jobs') {
      assert NodeOk(p, nodes[p], jobs);
      forall o | o in Placed(nodes[p]) ensures Registered(jobs', o) && jobs'[o.uuid] == jobs[o.uuid] {
        assert o.uuid !in us;
      }
    }
  }
}
