/** The tree of channels as a map from full names to channel states, and what each operation of the
    channel manager does to it. */
module ChannelTree {
  import opened Sequences
  import opened ChannelJobs
  import opened ChannelNames
  import opened ChannelSteps

  type Nodes = map<Path, Node>

  function Under(keys: set<Path>, p: Path): set<Path> {
    set q | q in keys && p <= q
  }

  function Kids(keys: set<Path>, p: Path): set<Path> {
    set q | q in keys && p <= q && |q| == |p| + 1
  }

  /** On the way from channel `p` to the job's own channel, the first channel below `p`. */
  function TowardHome(p: Path, j: ChannelJob): Path {
    if |p| < |j.home| then j.home[..|p| + 1] else p
  }

  // ---------------------------------------------------------------- placing one job

  /** `remove`: the job leaves channel `c` and all its ancestors. */
  function Strip(nodes: Nodes, c: Path, j: ChannelJob): Nodes {
    map q | q in nodes :: if q <= c then Without(nodes[q], j) else nodes[q]
  }

  /** `set_pending`: the job is queued in its channel and leaves all ancestors. */
  function SetPending(nodes: Nodes, c: Path, j: ChannelJob, eta: nat): Nodes
    requires c in nodes
  {
    if j in Jobs(nodes[c].queue) then nodes else
      map q | q in nodes ::
        if q == c then nodes[q].(queue := Add(nodes[q].queue, j, eta),
                                 running := nodes[q].running - {j}, failed := nodes[q].failed - {j})
        else if q <= c then Without(nodes[q], j) else nodes[q]
  }

  /** `set_failed`: the job is failed in its channel and leaves all ancestors. */
  function SetFailed(nodes: Nodes, c: Path, j: ChannelJob): Nodes
    requires c in nodes
  {
    if j in nodes[c].failed then nodes else
      map q | q in nodes ::
        if q == c then Without(nodes[q], j).(failed := nodes[q].failed + {j})
        else if q <= c then Without(nodes[q], j) else nodes[q]
  }

  /** `set_running`: upwards from its channel, until a channel where the job already runs. */
  function SetRunning(nodes: Nodes, c: Path, j: ChannelJob): Nodes
    requires c in nodes && Rooted(nodes.Keys)
    decreases |c|
  {
    if j in nodes[c].running then nodes
    else
      var marked := nodes[c := Without(nodes[c], j).(running := nodes[c].running + {j})];
      assert marked.Keys == nodes.Keys;
      if c == ROOT then marked else SetRunning(marked, Parent(c), j)
  }

  // ---------------------------------------------------------------- one round on the whole tree

  /** What every channel yields to its parent (the root: to the runner). */
  type Flow = map<Path, seq<ChannelJob>>

  function Arrivals(flow: Flow, p: Path): set<ChannelJob> {
    set k, j | k in flow && k in Kids(flow.Keys, p) && j in flow[k] :: j
  }

  /** `get_jobs_to_run` ran on channel `top`: every channel below went through one round, fed by
      its children, and every other channel is as it was. */
  ghost predicate Ran(nodes: Nodes, top: Path, now: nat, nodes': Nodes, flow: Flow) {
    && nodes'.Keys == nodes.Keys
    && flow.Keys == Under(nodes.Keys, top)
    && (forall q :: q in nodes && !(top <= q) ==> nodes'[q] == nodes[q])
    && (forall q :: q in flow ==> Round(nodes[q], Arrivals(flow, q), now, nodes'[q], flow[q]))
  }

  // ---------------------------------------------------------------- the placement invariant

  /** A job the manager knows by its uuid, with the current value of its eta. */
  datatype Entry = Entry(job: ChannelJob, eta: nat)

  type Entries = map<string, Entry>

  ghost predicate Registered(jobs: Entries, j: ChannelJob) {
    j.uuid in jobs && jobs[j.uuid].job == j
  }

  ghost predicate HasEta(jobs: Entries, j: ChannelJob, eta: nat) {
    j.uuid in jobs && jobs[j.uuid].eta == eta
  }

  ghost predicate Disjoint(n: Node) {
    && n.queue.ready !! n.queue.waiting.Keys
    && Jobs(n.queue) !! n.running
    && Present(n) !! n.failed
  }

  ghost predicate NodeOk(p: Path, n: Node, jobs: Entries) {
    && Disjoint(n)
    && (forall j :: j in Placed(n) ==> p <= j.home && Registered(jobs, j))
    && (forall j :: j in n.failed ==> j.home == p)
    && (forall j :: j in n.queue.waiting ==>
        j.home == p && n.queue.waiting[j] != 0 && HasEta(jobs, j, n.queue.waiting[j]))
    && (forall j :: j in n.queue.ready ==> HasEta(jobs, j, 0))
    && (n.pause != 0 ==> n.throttle != 0)
  }

  /** A job present in an ancestor of its channel runs in the next channel on the way down. */
  ghost predicate Linked(nodes: Nodes) {
    forall p, j {:trigger TowardHome(p, j)} :: p in nodes && j in Present(nodes[p]) && p != j.home ==>
      TowardHome(p, j) in nodes && j in nodes[TowardHome(p, j)].running
  }

  ghost predicate TreeOk(nodes: Nodes, jobs: Entries) {
    && Rooted(nodes.Keys)
    && (forall p {:trigger NodeOk(p, nodes[p], jobs)} :: p in nodes ==> NodeOk(p, nodes[p], jobs))
    && Linked(nodes)
  }

  /** The placement invariant, spelt out: a job present in channel `p` runs in every channel
      between `p` and its own. */
  lemma {:induction false} PresentMeansRunningBelow(nodes: Nodes, jobs: Entries, p: Path, q: Path, j: ChannelJob)
    requires TreeOk(nodes, jobs)
    requires p in nodes && j in Present(nodes[p])
    requires p <= q <= j.home && p != q
    ensures q in nodes && j in nodes[q].running
    decreases |q| - |p|
  {
    var k := TowardHome(p, j);
    assert k == q[..|p| + 1];
    assert j in Present(nodes[k]);
    if k != q {
      PresentMeansRunningBelow(nodes, jobs, k, q, j);
    }
  }

  /** A job that is failed, or queued in its own channel, is in no other channel of the tree. */
  lemma RestingJobIsNowhereElse(nodes: Nodes, jobs: Entries, j: ChannelJob, p: Path)
    requires TreeOk(nodes, jobs)
    requires j.home in nodes && (j in nodes[j.home].failed || j in Jobs(nodes[j.home].queue))
    requires p in nodes && p != j.home
    ensures j !in Placed(nodes[p])
  {
    assert NodeOk(p, nodes[p], jobs) && NodeOk(j.home, nodes[j.home], jobs);
    if j in Present(nodes[p]) {
      PresentMeansRunningBelow(nodes, jobs, p, j.home, j);
    }
  }

  // ---------------------------------------------------------------- a round keeps the invariant

  /** A job that does not run in a channel below `p` on its way is nowhere in `p`. */
  lemma ParentLacks(nodes: Nodes, jobs: Entries, p: Path, k: Path, j: ChannelJob)
    requires TreeOk(nodes, jobs) && p in nodes && k in nodes
    requires p <= k <= j.home && |k| == |p| + 1 && j !in nodes[k].running
    ensures j !in Placed(nodes[p]) && TowardHome(p, j) == k
  {
    assert TowardHome(p, j) == k;
    assert p != j.home && NodeOk(p, nodes[p], jobs);
    assert j !in nodes[p].failed;
  }

  /** `j` reaches `p` from the next channel on its way, where it did not run before. */
  ghost predicate ArrivesNew(nodes: Nodes, jobs: Entries, flow: Flow, p: Path, j: ChannelJob) {
    && p in nodes && p <= j.home && j.home != p && Registered(jobs, j) && j !in Placed(nodes[p])
    && TowardHome(p, j) in flow && j in flow[TowardHome(p, j)]
  }

  ghost predicate YieldedNew(nodes: Nodes, jobs: Entries, p: Path, j: ChannelJob) {
    p in nodes && p <= j.home && Registered(jobs, j) && j !in nodes[p].running && j !in nodes[p].failed
  }

  /** A channel yields only jobs from its own subtree that did not run in it before; hence they
      were nowhere above it. */
  lemma {:induction false} YieldsAreNew(nodes: Nodes, jobs: Entries, top: Path, now: nat, nodes': Nodes, flow: Flow,
      p: Path)
    requires TreeOk(nodes, jobs) && Ran(nodes, top, now, nodes', flow)
    requires p in flow
    ensures forall j :: j in flow[p] ==> YieldedNew(nodes, jobs, p, j)
    ensures forall j :: j in Arrivals(flow, p) ==> ArrivesNew(nodes, jobs, flow, p, j)
    decreases Under(nodes.Keys, p)
  {
    var arrived := Arrivals(flow, p);
    forall j | j in arrived ensures ArrivesNew(nodes, jobs, flow, p, j) {
      var k :| k in flow && k in Kids(flow.Keys, p) && j in flow[k];
      assert p !in Under(nodes.Keys, k) && p in Under(nodes.Keys, p);
      YieldsAreNew(nodes, jobs, top, now, nodes', flow, k);
      assert YieldedNew(nodes, jobs, k, j);
      ParentLacks(nodes, jobs, p, k, j);
    }
    assert NodeOk(p, nodes[p], jobs);
    assert arrived !! Placed(nodes[p]);
    RoundMoves(nodes[p], arrived, now, nodes'[p], flow[p]);
    forall j | j in flow[p] ensures YieldedNew(nodes, jobs, p, j) {
      assert j in AsSet(flow[p]);
    }
  }

  /** A round took the eta of this job: it waited in its own channel and does no longer. */
  predicate LostEta(nodes: Nodes, nodes': Nodes, j: ChannelJob) {
    && j.home in nodes && j in nodes[j.home].queue.waiting
    && (j.home in nodes' ==> j !in nodes'[j.home].queue.waiting)
  }

  function EntryAfter(e: Entry, nodes: Nodes, nodes': Nodes): Entry {
    if LostEta(nodes, nodes', e.job) then Entry(e.job, 0) else e
  }

  /** The entries after a round. */
  function EtasAfter(jobs: Entries, nodes: Nodes, nodes': Nodes): Entries {
    map u | u in jobs :: EntryAfter(jobs[u], nodes, nodes')
  }

  lemma RanKeepsTree(nodes: Nodes, jobs: Entries, top: Path, now: nat, nodes': Nodes, flow: Flow)
    requires TreeOk(nodes, jobs) && Ran(nodes, top, now, nodes', flow)
    ensures TreeOk(nodes', EtasAfter(jobs, nodes, nodes'))
  {
    var jobs' := EtasAfter(jobs, nodes, nodes');
    forall p | p in nodes ensures NodeOk(p, nodes'[p], jobs') {
      RanKeepsNode(nodes, jobs, top, now, nodes', flow, p);
    }
    forall p, j | p in nodes' && j in Present(nodes'[p]) && p != j.home
      ensures TowardHome(p, j) in nodes' && j in nodes'[TowardHome(p, j)].running
    {
      RanKeepsLink(nodes, jobs, top, now, nodes', flow, p, j);
    }
  }

  /** What one round does to a channel `p`, whether it took part or not. */
  lemma RanMoves(nodes: Nodes, jobs: Entries, top: Path, now: nat, nodes': Nodes, flow: Flow, p: Path)
    requires TreeOk(nodes, jobs) && Ran(nodes, top, now, nodes', flow) && p in nodes
    ensures nodes[p].running <= nodes'[p].running
    ensures p in flow ==> AsSet(flow[p]) <= nodes'[p].running
    ensures Present(nodes'[p]) <= Present(nodes[p]) + if p in flow then Arrivals(flow, p) else {}
  {
    if p in flow {
      ArrivedIsNotPlaced(nodes, jobs, top, now, nodes', flow, p);
      RoundMoves(nodes[p], Arrivals(flow, p), now, nodes'[p], flow[p]);
    }
  }

  lemma ArrivedIsNotPlaced(nodes: Nodes, jobs: Entries, top: Path, now: nat, nodes': Nodes, flow: Flow, p: Path)
    requires TreeOk(nodes, jobs) && Ran(nodes, top, now, nodes', flow) && p in flow
    ensures Arrivals(flow, p) !! Placed(nodes[p]) && NodeOk(p, nodes[p], jobs)
  {
    YieldsAreNew(nodes, jobs, top, now, nodes', flow, p);
    assert forall i :: i in Arrivals(flow, p) ==> ArrivesNew(nodes, jobs, flow, p, i);
  }

  lemma RanKeepsLink(nodes: Nodes, jobs: Entries, top: Path, now: nat, nodes': Nodes, flow: Flow, p: Path,
      j: ChannelJob)
    requires TreeOk(nodes, jobs) && Ran(nodes, top, now, nodes', flow)
    requires p in nodes && j in Present(nodes'[p]) && p != j.home
    ensures TowardHome(p, j) in nodes' && j in nodes'[TowardHome(p, j)].running
  {
    var k := TowardHome(p, j);
    RanMoves(nodes, jobs, top, now, nodes', flow, p);
    if j !in Present(nodes[p]) {
      YieldsAreNew(nodes, jobs, top, now, nodes', flow, p);
      assert ArrivesNew(nodes, jobs, flow, p, j);
      assert j in AsSet(flow[k]);
    }
    RanMoves(nodes, jobs, top, now, nodes', flow, k);
  }

  lemma RanKeepsNode(nodes: Nodes, jobs: Entries, top: Path, now: nat, nodes': Nodes, flow: Flow, p: Path)
    requires TreeOk(nodes, jobs) && Ran(nodes, top, now, nodes', flow) && p in nodes
    ensures NodeOk(p, nodes'[p], EtasAfter(jobs, nodes, nodes'))
  {
    var jobs' := EtasAfter(jobs, nodes, nodes');
    var n, n' := nodes[p], nodes'[p];
    assert NodeOk(p, n, jobs);
    if p in flow {
      ArrivedIsNotPlaced(nodes, jobs, top, now, nodes', flow, p);
      RoundMoves(n, Arrivals(flow, p), now, n', flow[p]);
      forall j | j in Placed(n') ensures p <= j.home && Registered(jobs', j) {
        if j in Arrivals(flow, p) {
          YieldsAreNew(nodes, jobs, top, now, nodes', flow, p);
          assert ArrivesNew(nodes, jobs, flow, p, j);
        }
        EtaAfter(jobs, nodes, nodes', j);
      }
      forall j | j in n'.queue.ready ensures HasEta(jobs', j, 0) {
        ReadyHasNoEta(nodes, jobs, top, now, nodes', flow, p, j);
      }
      forall j | j in n'.queue.waiting ensures HasEta(jobs', j, n'.queue.waiting[j]) {
        EtaAfter(jobs, nodes, nodes', j);
        assert j.home == p;
      }
    } else {
      OtherNodeKept(p, n, jobs, nodes, nodes');
    }
  }

  lemma ReadyHasNoEta(nodes: Nodes, jobs: Entries, top: Path, now: nat, nodes': Nodes, flow: Flow, p: Path,
      j: ChannelJob)
    requires TreeOk(nodes, jobs) && Ran(nodes, top, now, nodes', flow)
    requires p in flow && j in nodes'[p].queue.ready
    ensures HasEta(EtasAfter(jobs, nodes, nodes'), j, 0)
  {
    var arrived := Arrivals(flow, p);
    if j in arrived {
      assert ArrivesNew(nodes, jobs, flow, p, j) by {
        YieldsAreNew(nodes, jobs, top, now, nodes', flow, p);
      }
      YieldHasNoEta(nodes, jobs, top, now, nodes', flow, TowardHome(p, j), j);
    } else {
      ArrivedIsNotPlaced(nodes, jobs, top, now, nodes', flow, p);
      ReadyWasHere(p, jobs, nodes[p], arrived, now, nodes'[p], flow[p], j);
      ReadyStaysWithoutEta(jobs, nodes, nodes', j);
    }
  }

  lemma ReadyWasHere(p: Path, jobs: Entries, n: Node, arrived: set<ChannelJob>, now: nat, n': Node,
      out: seq<ChannelJob>, j: ChannelJob)
    requires NodeOk(p, n, jobs) && Round(n, arrived, now, n', out) && arrived !! Placed(n)
    requires j in n'.queue.ready && j !in arrived
    ensures Registered(jobs, j)
        && (HasEta(jobs, j, 0) || (j.home == p && j in n.queue.waiting && j !in n'.queue.waiting))
  {
    RoundMoves(n, arrived, now, n', out);
    assert j in n'.queue.ready + AsSet(out);
  }

  lemma ReadyStaysWithoutEta(jobs: Entries, nodes: Nodes, nodes': Nodes, j: ChannelJob)
    requires Registered(jobs, j) && (HasEta(jobs, j, 0) || LostEta(nodes, nodes', j))
    ensures Registered(EtasAfter(jobs, nodes, nodes'), j) && HasEta(EtasAfter(jobs, nodes, nodes'), j, 0)
  {
    EtaAfter(jobs, nodes, nodes', j);
  }

  lemma OtherNodeKept(p: Path, n: Node, jobs: Entries, nodes: Nodes, nodes': Nodes)
    requires p in nodes && p in nodes' && nodes[p] == n && nodes'[p] == n && NodeOk(p, n, jobs)
    ensures NodeOk(p, n, EtasAfter(jobs, nodes, nodes'))
  {
    forall j | j in Placed(n) ensures Registered(EtasAfter(jobs, nodes, nodes'), j) {
      EtaAfter(jobs, nodes, nodes', j);
    }
    forall j | j in Jobs(n.queue)
      ensures Registered(jobs, j) && HasEta(EtasAfter(jobs, nodes, nodes'), j, jobs[j.uuid].eta)
    {
      EtaAfter(jobs, nodes, nodes', j);
    }
  }

  lemma EtaAfter(jobs: Entries, nodes: Nodes, nodes': Nodes, j: ChannelJob)
    requires Registered(jobs, j)
    ensures Registered(EtasAfter(jobs, nodes, nodes'), j)
    ensures HasEta(EtasAfter(jobs, nodes, nodes'), j, if LostEta(nodes, nodes', j) then 0 else jobs[j.uuid].eta)
  {
  }

  /** What one round moves, for a channel that none of the arriving jobs was in. */
  lemma RoundMoves(n: Node, arrived: set<ChannelJob>, now: nat, n': Node, out: seq<ChannelJob>)
    requires Round(n, arrived, now, n', out)
    requires Disjoint(n) && arrived !! Placed(n)
    requires n.pause != 0 ==> n.throttle != 0
    ensures Disjoint(n') && n'.failed == n.failed && n'.running == n.running + AsSet(out)
    ensures Placed(n') == Placed(n) + arrived
    ensures forall j :: j in n'.queue.waiting ==> j in n.queue.waiting && n'.queue.waiting[j] == n.queue.waiting[j]
    ensures forall j :: j in n'.queue.ready + AsSet(out) ==>
              j in n.queue.ready || j in arrived
                  || (j in n.queue.waiting && j !in n'.queue.waiting && n.queue.waiting[j] <= now)
    ensures n'.pause != 0 ==> n'.throttle != 0
  {
    RoundConserves(n, arrived, now, n', out);
    RoundSettles(n, arrived, now, n', out);
    var q := n.queue.(ready := n.queue.ready + arrived);
    assert Jobs(q) == Jobs(n.queue) + arrived;
  }

  /** Where a job yielded by a channel was before: ready in some channel of the subtree, or waiting
      in its own channel with an eta that is now over. */
  ghost predicate WasQueued(nodes: Nodes, nodes': Nodes, now: nat, j: ChannelJob) {
    || (exists q :: q in nodes && j in nodes[q].queue.ready)
    || (LostEta(nodes, nodes', j) && nodes[j.home].queue.waiting[j] <= now)
  }

  lemma {:induction false} YieldWasSomewhere(nodes: Nodes, jobs: Entries, top: Path, now: nat, nodes': Nodes,
      flow: Flow, k: Path, j: ChannelJob)
    requires TreeOk(nodes, jobs) && Ran(nodes, top, now, nodes', flow)
    requires k in flow && j in flow[k]
    ensures WasQueued(nodes, nodes', now, j)
    decreases Under(nodes.Keys, k)
  {
    var arrived := Arrivals(flow, k);
    ArrivedIsNotPlaced(nodes, jobs, top, now, nodes', flow, k);
    if j in arrived {
      var c :| c in flow && c in Kids(flow.Keys, k) && j in flow[c];
      assert k !in Under(nodes.Keys, c) && k in Under(nodes.Keys, k);
      YieldWasSomewhere(nodes, jobs, top, now, nodes', flow, c, j);
    } else {
      assert NodeOk(k, nodes[k], jobs);
      YieldWasQueued(nodes[k], arrived, now, nodes'[k], flow[k], j);
    }
  }

  /** A yielded job has no eta any more. */
  lemma YieldHasNoEta(nodes: Nodes, jobs: Entries, top: Path, now: nat, nodes': Nodes, flow: Flow, k: Path,
      j: ChannelJob)
    requires TreeOk(nodes, jobs) && Ran(nodes, top, now, nodes', flow)
    requires k in flow && j in flow[k]
    ensures Registered(EtasAfter(jobs, nodes, nodes'), j) && HasEta(EtasAfter(jobs, nodes, nodes'), j, 0)
  {
    assert Registered(jobs, j) by {
      YieldsAreNew(nodes, jobs, top, now, nodes', flow, k);
      assert YieldedNew(nodes, jobs, k, j);
    }
    assert WasQueued(nodes, nodes', now, j) by {
      YieldWasSomewhere(nodes, jobs, top, now, nodes', flow, k, j);
    }
    if !LostEta(nodes, nodes', j) {
      var q :| q in nodes && j in nodes[q].queue.ready;
      assert NodeOk(q, nodes[q], jobs);
    }
    ReadyStaysWithoutEta(jobs, nodes, nodes', j);
  }

  lemma YieldWasQueued(n: Node, arrived: set<ChannelJob>, now: nat, n': Node, out: seq<ChannelJob>, j: ChannelJob)
    requires Round(n, arrived, now, n', out) && Disjoint(n) && arrived !! Placed(n)
    requires n.pause != 0 ==> n.throttle != 0
    requires j in out && j !in arrived
    ensures j in n.queue.ready || (j in n.queue.waiting && j !in n'.queue.waiting && n.queue.waiting[j] <= now)
  {
    RoundMoves(n, arrived, now, n', out);
    assert j in AsSet(out);
  }
}
