/** The channel manager: the flat index of channels, the jobs by uuid, and the operations of the
    job runner on them. */
module ChannelManagers {
  import opened ChannelJobs
  import opened ChannelNames
  import opened PriorityQueues
  import opened ChannelQueues
  import opened ChannelSteps
  import opened ChannelTree
  import opened ChannelMoves
  import opened ChannelRuns
  import opened ChannelTheorems
  import opened ChannelWakeup
  import opened Channels
  import opened JobStates

  ghost function AllQueues(tree: Tree): set<PriorityQueue> {
    (set p | p in tree :: tree[p].queue.queue) + (set p | p in tree :: tree[p].queue.etaQueue)
  }

  ghost function EntriesOf(jobs: map<string, ChannelJob>): Entries
    reads jobs.Values
  {
    map u | u in jobs :: Entry(jobs[u], jobs[u].eta)
  }

  /** A new child of `parent`, which is in no other way known yet. */
  method NewChild(parent: Channel, n: string, ghost tree: Tree, ghost nodes: Nodes) returns (sub: Channel)
    requires Shaped(tree) && AllValid(tree) && nodes == Snap(tree)
    requires parent.path in tree && tree[parent.path] == parent && parent.path + [n] !in tree
    modifies parent`children
    ensures fresh(sub) && fresh(sub.queue) && fresh(sub.queue.queue) && fresh(sub.queue.etaQueue)
    ensures sub.path == parent.path + [n] && Shaped(tree[sub.path := sub]) && AllValid(tree[sub.path := sub])
    ensures Snap(tree[sub.path := sub]) == nodes[sub.path := EMPTY_NODE]
  {
    hide Channel.Valid, Channel.View, Shaped, ShapedOver, KidMaps, Snap, AllValid, ROOT, Rooted, Apart;
    ghost var c, kids := parent.path, KidMaps(tree);
    ShapedAsOver(tree);
    ViewFacts(tree);
    KidFacts(tree, c, n);
    sub := new Channel(n, parent, 0);
    forall p | p in tree ensures tree[p].Valid() && tree[p].View() == nodes[p] {
    }
    GrownShape(tree, kids, c, n, sub);
    GrownTree(tree, nodes, sub);
  }

  ghost function AllChannelQueues(tree: Tree): set<ChannelQueue> {
    set p | p in tree :: tree[p].queue
  }

  lemma RootPath(tree: Tree)
    requires Shaped(tree)
    ensures ROOT in tree && tree[ROOT].path == ROOT
  {
  }

  /** A round clears exactly the etas that its specification says. */
  lemma EtasAgree(tree: Tree, known: map<string, ChannelJob>, s: Sys, now: nat, nodes: Nodes, flow: Flow)
    requires Inv(s) && Shaped(tree) && AllValid(tree) && nodes == Snap(tree) && Ran(s.nodes, ROOT, now, nodes, flow)
    requires s.jobs.Keys == known.Keys && forall u :: u in known ==> IndexAgrees(known, s, u)
    requires forall j :: j in Lost(s.nodes, nodes, ROOT) ==> j.eta == 0
    requires forall u :: u in known && known[u] !in WaitingIn(s.nodes, ROOT) ==> known[u].eta == s.jobs[u].eta
    ensures EntriesOf(known) == EtasAfter(s.jobs, s.nodes, nodes)
  {
    hide Channel.Valid, Channel.View, Shaped, Snap, AllValid, Ran, Lost, WaitingIn, Inv, EntryAfter;
    forall u | u in known ensures Entry(known[u], known[u].eta) == EntryAfter(s.jobs[u], s.nodes, nodes) {
      assert IndexAgrees(known, s, u);
      EtaAgrees(tree, s, now, nodes, flow, u);
    }
  }

  lemma EtaAgrees(tree: Tree, s: Sys, now: nat, nodes: Nodes, flow: Flow, u: string)
    requires Inv(s) && Shaped(tree) && AllValid(tree) && nodes == Snap(tree) && Ran(s.nodes, ROOT, now, nodes, flow)
    requires u in s.jobs
    requires s.jobs[u].job in Lost(s.nodes, nodes, ROOT) ==> s.jobs[u].job.eta == 0
    requires s.jobs[u].job !in WaitingIn(s.nodes, ROOT) ==> s.jobs[u].job.eta == s.jobs[u].eta
    ensures Entry(s.jobs[u].job, s.jobs[u].job.eta) == EntryAfter(s.jobs[u], s.nodes, nodes)
  {
    hide Channel.Valid, Channel.View, Shaped, Snap, AllValid;
    var j := s.jobs[u].job;
    assert EntryOk(s, u);
    ViewFacts(tree);
    if LostEta(s.nodes, nodes, j) {
      RootIsAbove(s.nodes.Keys, j.home);
      assert j in Lost(s.nodes, nodes, ROOT);
    } else if j in WaitingIn(s.nodes, ROOT) {
      var p :| p in s.nodes && j in s.nodes[p].queue.waiting;
      StillWaits(s, now, nodes, flow, p, j);
      tree[p].QueueFacts();
    }
  }

  lemma StillWaits(s: Sys, now: nat, nodes: Nodes, flow: Flow, p: Path, j: ChannelJob)
    requires Inv(s) && Ran(s.nodes, ROOT, now, nodes, flow) && !LostEta(s.nodes, nodes, j)
    requires p in s.nodes && j in s.nodes[p].queue.waiting
    ensures p in nodes && j in nodes[p].queue.waiting && HasEta(s.jobs, j, nodes[p].queue.waiting[j])
        && Registered(s.jobs, j)
  {
    RootIsAbove(s.nodes.Keys, p);
    assert NodeOk(p, s.nodes[p], s.jobs);
    ArrivedIsNotPlaced(s.nodes, s.jobs, ROOT, now, nodes, flow, p);
    RoundMoves(s.nodes[p], Arrivals(flow, p), now, nodes[p], flow[p]);
  }

  lemma HasRun(s: Sys, now: nat, flow: Flow, s': Sys)
    requires Inv(s) && s.clock <= now && Ran(s.nodes, ROOT, now, s'.nodes, flow)
    requires s' == Sys(s'.nodes, EtasAfter(s.jobs, s.nodes, s'.nodes), s.made, now)
    ensures Next(s, Run(now, flow), s') && Inv(s')
  {
    RunKeepsInv(s, now, flow, s');
  }

  ghost predicate IndexAgrees(jobs: map<string, ChannelJob>, s: Sys, u: string) {
    u in jobs && u in s.jobs && s.jobs[u].job == jobs[u]
  }

  lemma NoneGone(s: Sys, jobs: map<string, ChannelJob>, db: string)
    requires jobs.Keys == s.jobs.Keys
    ensures StripAll(s.nodes, s.jobs, OfDb(s.jobs, db) - jobs.Keys) == s.nodes
    ensures jobs - (OfDb(s.jobs, db) - jobs.Keys) == jobs
  {
    assert OfDb(s.jobs, db) - jobs.Keys == {};
    StripNone(s.nodes, s.jobs);
  }

  lemma OneMoreGone(s: Sys, jobs: map<string, ChannelJob>, db: string, uuids: set<string>, u: string)
    requires jobs.Keys == s.jobs.Keys && u in uuids && u in jobs && IndexAgrees(jobs, s, u)
    ensures var was, gone := OfDb(s.jobs, db) - uuids, OfDb(s.jobs, db) - (uuids - {u});
            && u in jobs - was && (jobs - was)[u] == jobs[u]
            && if jobs[u].db == db then
                 && StripAll(s.nodes, s.jobs, gone) == Strip(StripAll(s.nodes, s.jobs, was), jobs[u].home, jobs[u])
                 && jobs - gone == jobs - was - {u}
               else gone == was
  {
    var was, gone := OfDb(s.jobs, db) - uuids, OfDb(s.jobs, db) - (uuids - {u});
    if jobs[u].db == db {
      assert gone - {u} == was;
      StripOneMore(s.nodes, s.jobs, gone, u);
    } else {
      assert gone == was;
    }
  }

  lemma EntriesKeys(jobs: map<string, ChannelJob>)
    ensures EntriesOf(jobs).Keys == jobs.Keys
  {
  }

  lemma EntriesWithoutAll(jobs: map<string, ChannelJob>, us: set<string>)
    ensures EntriesOf(jobs - us) == EntriesOf(jobs) - us
  {
  }

  lemma DbIsGone(s: Sys, db: string)
    requires Inv(s)
    ensures var s' := s.(nodes := StripAll(s.nodes, s.jobs, OfDb(s.jobs, db)), jobs := s.jobs - OfDb(s.jobs, db));
            Next(s, RemoveDb(db), s') && Inv(s')
  {
    RemoveDbKeepsInv(s, db,
        s.(nodes := StripAll(s.nodes, s.jobs, OfDb(s.jobs, db)), jobs := s.jobs - OfDb(s.jobs, db)));
  }

  lemma Forgotten(s: Sys, jobs: map<string, ChannelJob>, us: set<string>)
    requires Inv(s) && s.jobs.Keys == jobs.Keys && forall u :: u in jobs ==> IndexAgrees(jobs, s, u)
    requires forall u :: u in us && u in jobs ==> Nowhere(s.nodes, jobs[u])
    ensures var s' := s.(jobs := s.jobs - us); Next(s, Forget(us), s') && Inv(s')
  {
    ForgetKeepsInv(s, us, s.(jobs := s.jobs - us));
  }

  /** What placing the job object `j` of a notification makes of the state. */
  ghost predicate IsPlaced(s: Sys, ev: Event, nodes: Nodes, c: Path, j: ChannelJob, keeps: bool, s': Sys) {
    && ev.Notify? && Rooted(nodes.Keys) && j.home in nodes
    && if keeps then
         && ev.uuid in s.jobs && j == s.jobs[ev.uuid].job
         && s' == s.(nodes := Apply(nodes, j.home, j, s.jobs[ev.uuid].eta, ev.state))
       else
         && j !in s.made && IsJobOf(j, ev, c)
         && s'.nodes == Apply(nodes, j.home, j, ev.eta, ev.state) && s'.jobs == s.jobs[ev.uuid := Entry(j, ev.eta)]
         && s'.made == s.made + {j} && s'.clock == s.clock
  }

  lemma PlacedAs(s: Sys, ev: Event, nodes: Nodes, c: Path, j: ChannelJob, eta: nat, keeps: bool, s': Sys)
    requires ev.Notify? && Rooted(nodes.Keys) && j.home in nodes
    requires keeps ==> ev.uuid in s.jobs && s.jobs[ev.uuid] == Entry(j, eta) && s'.jobs == s.jobs && s'.made == s.made
    requires !keeps ==> j !in s.made && IsJobOf(j, ev, c) && eta == ev.eta
    requires !keeps ==> s'.jobs == s.jobs[ev.uuid := Entry(j, eta)] && s'.made == s.made + {j}
    requires s'.nodes == Apply(nodes, j.home, j, eta, ev.state) && s'.clock == s.clock
    ensures IsPlaced(s, ev, nodes, c, j, keeps, s')
  {
    hide Apply, IsJobOf, Rooted;
  }

  /** The notification is a step of the manager that ends up with the job object `j`. */
  ghost predicate EndsWith(s: Sys, ev: Event, j: ChannelJob, s': Sys) {
    ev.Notify? && Rooted(s.nodes.Keys) && j in s'.made && Notified(s, ev, j, s') && Next(s, ev, s')
  }

  /** The tree is prepared for a notification about channel `c`. */
  ghost predicate IsPrepared(s: Sys, ev: Event, nodes: Nodes, c: Path, keeps: bool) {
    && ev.Notify? && Rooted(s.nodes.Keys) && nodes == Prepared(s, ev)
    && c == ChannelFor(s.nodes.Keys, ev.name) && c in nodes && (keeps <==> Keeps(s, ev))
  }

  lemma KeptIsKnown(s: Sys, ev: Event, nodes: Nodes, c: Path, keeps: bool)
    requires IsPrepared(s, ev, nodes, c, keeps)
    ensures keeps ==> ev.uuid in s.jobs && s.jobs[ev.uuid].job.home == c
  {
  }

  lemma IsPreparedNow(s: Sys, ev: Event, nodes: Nodes, c: Path, keeps: bool)
    requires Inv(s) && ev.Notify? && c == ChannelFor(s.nodes.Keys, ev.name)
    requires keeps <==>
               && ev.uuid in s.jobs && ev.seqno == s.jobs[ev.uuid].job.seqno
                   && ev.priority == s.jobs[ev.uuid].job.priority
               && ev.eta == s.jobs[ev.uuid].eta && c == s.jobs[ev.uuid].job.home
    requires nodes ==
             if ev.uuid in s.jobs
                 && !keeps then Strip(Extend(s.nodes, c), s.jobs[ev.uuid].job.home, s.jobs[ev.uuid].job)
             else Extend(s.nodes, c)
    ensures IsPrepared(s, ev, nodes, c, keeps)
  {
    ExtendKeepsTree(s.nodes, s.jobs, c);
  }

  lemma NotifiedAs(s: Sys, ev: Event, nodes: Nodes, c: Path, j: ChannelJob, keeps: bool, s': Sys)
    requires Inv(s) && IsPrepared(s, ev, nodes, c, keeps)
    requires ev.uuid in s.jobs ==> s.jobs[ev.uuid].job.db == ev.db && s.jobs[ev.uuid].job.created == ev.created
    requires IsPlaced(s, ev, nodes, c, j, keeps, s')
    ensures EndsWith(s, ev, j, s') && Inv(s')
  {
    NotifyKeepsInv(s, ev, j, s');
  }

  lemma EntriesWith(jobs: map<string, ChannelJob>, uuid: string, j: ChannelJob)
    ensures EntriesOf(jobs[uuid := j]) == EntriesOf(jobs)[uuid := Entry(j, j.eta)]
  {
  }

  lemma EntriesWithout(jobs: map<string, ChannelJob>, uuid: string)
    ensures EntriesOf(jobs - {uuid}) == EntriesOf(jobs) - {uuid}
  {
  }

  lemma DropsEntry(s: Sys, uuid: string, s': Sys)
    requires Inv(s)
    requires s' == if uuid !in s.jobs then s
                   else s.(nodes := Strip(s.nodes, s.jobs[uuid].job.home, s.jobs[uuid].job), jobs := s.jobs - {uuid})
    ensures Inv(s') && Next(s, RemoveJob(uuid), s')
  {
    NextKeepsInv(s, RemoveJob(uuid), s');
  }

  lemma SameTree(tree: Tree, nodes: Nodes)
    requires nodes.Keys == tree.Keys
    requires forall p :: p in tree ==> tree[p].Valid() && tree[p].View() == nodes[p]
    ensures AllValid(tree) && Snap(tree) == nodes
  {
    hide Channel.Valid, Channel.View;
  }

  lemma UpFacts(tree: Tree, c: Path)
    requires Shaped(tree) && c in tree
    ensures tree[c].path == c && Up(tree, c) <= tree.Values && UpQueues(tree, c) <= AllQueues(tree)
  {
  }

  lemma AutocreateIsNormalised(keys: set<Path>, name: string)
    requires ROOT in keys
    ensures Resolve(keys, name, true, false) == Some(Normalise(name))
  {
    assert ROOT + Normalise(name)[1..] == Normalise(name);
  }

  lemma StaysInitial(s: Sys, p: Path, capacity: int, sequential: bool, throttle: nat, s': Sys)
    requires Initial(s) && p in Extend(s.nodes, p) && Rooted(s'.nodes.Keys)
    requires var nodes := Extend(s.nodes, p);
             s' == s.(nodes := nodes[p := Configured(nodes[p], capacity, sequential, throttle)])
    ensures Initial(s')
  {
    var nodes := Extend(s.nodes, p);
    forall q | q in s'.nodes ensures Placed(s'.nodes[q]) == {} && s'.nodes[q].pause == 0 {
      assert q !in s.nodes ==> nodes[q] == EMPTY_NODE;
      assert Placed(s'.nodes[q]) == Placed(nodes[q]);
    }
  }

  /** Settings do not matter to where jobs are. */
  lemma ConfiguredKeepsTree(nodes: Nodes, jobs: Entries, p: Path, n: Node)
    requires TreeOk(nodes, jobs) && p in nodes && Disjoint(n) && (n.pause != 0 ==> n.throttle != 0)
    requires n.queue == nodes[p].queue && n.running == nodes[p].running && n.failed == nodes[p].failed
    ensures TreeOk(nodes[p := n], jobs)
  {
    var nodes' := nodes[p := n];
    assert nodes'.Keys == nodes.Keys;
    assert Placed(n) == Placed(nodes[p]) && Present(n) == Present(nodes[p]);
    forall q | q in nodes' ensures NodeOk(q, nodes'[q], jobs) {
      assert NodeOk(q, nodes[q], jobs);
    }
    forall q, j | q in nodes' && j in Present(nodes'[q]) && q != j.home
      ensures TowardHome(q, j) in nodes' && j in nodes'[TowardHome(q, j)].running
    {
      assert j in Present(nodes[q]);
    }
  }

  lemma ConfiguredKeepsInv(s: Sys, p: Path, capacity: int, sequential: bool, throttle: nat, s': Sys)
    requires Inv(s) && ROOT <= p && (p in s.nodes && s.nodes[p].pause != 0 ==> throttle != 0)
    requires p in Extend(s.nodes, p)
    requires var nodes := Extend(s.nodes, p);
             s' == s.(nodes := nodes[p := Configured(nodes[p], capacity, sequential, throttle)])
    ensures Inv(s') && (Initial(s) ==> Initial(s'))
  {
    var nodes := Extend(s.nodes, p);
    ExtendKeepsTree(s.nodes, s.jobs, p);
    assert NodeOk(p, nodes[p], s.jobs);
    ConfiguredKeepsTree(nodes, s.jobs, p, Configured(nodes[p], capacity, sequential, throttle));
    forall u | u in s'.jobs ensures EntryOk(s', u) {
      assert EntryOk(s, u);
    }
    if Initial(s) {
      StaysInitial(s, p, capacity, sequential, throttle, s');
    }
  }

  /** The same channels and perhaps some new ones. */
  twostate predicate Grew(tree: Tree, new tree': Tree)
    reads {}
  {
    && tree.Keys <= tree'.Keys
    && (forall p :: p in tree ==> tree'[p] == tree[p])
    && (forall p :: p in tree' && p !in tree ==>
        fresh(tree'[p]) && fresh(tree'[p].queue) && fresh(tree'[p].queue.queue) && fresh(tree'[p].queue.etaQueue))
  }

  ghost function WithEmpty(nodes: Nodes, p: Path): Nodes {
    if p in nodes then nodes else nodes[p := EMPTY_NODE]
  }

  /** Looking up a known channel creates nothing. */
  lemma ExtendKnown(nodes: Nodes, c: Path)
    requires Rooted(nodes.Keys) && c in nodes
    ensures Extend(nodes, c) == nodes
  {
    forall p | p in Prefixes(c) ensures p in nodes {
      AncestorIsKey(nodes.Keys, c, p);
    }
  }

  lemma ExtendOneMore(nodes: Nodes, c: Path, n: string)
    ensures WithEmpty(Extend(nodes, c), c + [n]) == Extend(nodes, c + [n])
  {
    forall p ensures p in Prefixes(c + [n]) <==> p in Prefixes(c) || p == c + [n] {
      if p in Prefixes(c) {
        var i :| 1 <= i <= |c| && p == c[..i];
        assert p == (c + [n])[..i];
      }
      assert c + [n] == (c + [n])[..|c| + 1];
      if p in Prefixes(c + [n]) && p != c + [n] {
        var i :| 1 <= i <= |c| + 1 && p == (c + [n])[..i];
        assert p == c[..i];
      }
    }
  }

  lemma NormaliseRoot(name: string)
    requires name == "" || name == "root"
    ensures Normalise(name) == ROOT
  {
    if name == "root" {
      SplitJoin(ROOT);
      assert Join(ROOT) == name;
    }
  }

  lemma Alone(root: Channel)
    requires root.path == ROOT && root.parent == null && root.children == map[] && root.Valid()
    ensures Shaped(map[ROOT := root]) && AllValid(map[ROOT := root])
    ensures Snap(map[ROOT := root]) == map[ROOT := root.View()]
  {
    hide Channel.Valid, Channel.View;
  }

  lemma AloneState(nodes: Nodes)
    requires nodes == map[ROOT := EMPTY_NODE.(capacity := 1)]
    ensures Initial(Sys(nodes, map[], {}, 0))
  {
  }

  lemma KidFacts(tree: Tree, c: Path, n: string)
    requires Shaped(tree) && c in tree
    ensures n in tree[c].children <==> c + [n] in tree
    ensures c + [n] in tree ==> tree[c].children[n] == tree[c + [n]] && tree[c + [n]].path == c + [n]
    ensures KidMaps(tree).Keys == tree.Keys && forall p :: p in tree ==> KidMaps(tree)[p] == tree[p].children
  {
    if c + [n] in tree {
      assert Parent(c + [n]) == c;
    }
  }

  lemma GrownKids(tree: Tree, kids: map<Path, map<string, Channel>>, c: Path, n: string, sub: Channel)
    requires c in tree && c + [n] !in tree && kids.Keys == tree.Keys
    requires forall p :: p in tree ==> tree[p].children == if p == c then kids[c][n := sub] else kids[p]
    requires sub.children == map[]
    ensures KidMaps(tree[c + [n] := sub]) == kids[c := kids[c][n := sub]][c + [n] := map[]]
  {
  }

  lemma GrownShape(tree: Tree, kids: map<Path, map<string, Channel>>, c: Path, n: string, sub: Channel)
    requires ShapedOver(tree, kids) && c in tree && c + [n] !in tree
    requires sub.path == c + [n] && sub.parent == tree[c] && sub.children == map[]
    requires forall p :: p in tree ==> tree[p].children == if p == c then kids[c][n := sub] else kids[p]
    requires forall p :: p in tree ==>
               && sub.queue != tree[p].queue && sub.queue.queue != tree[p].queue.queue
                   && sub.queue.etaQueue != tree[p].queue.etaQueue
               && sub.queue.queue != tree[p].queue.etaQueue && sub.queue.etaQueue != tree[p].queue.queue
    ensures Shaped(tree[c + [n] := sub])
  {
    hide Shaped, KidMaps;
    ShapedGrows(tree, kids, c, n, sub);
    GrownKids(tree, kids, c, n, sub);
    ShapedAsOver(tree[c + [n] := sub]);
  }

  lemma GrownTree(tree: Tree, nodes: Nodes, sub: Channel)
    requires nodes.Keys == tree.Keys && sub.path !in tree && sub.Valid() && sub.View() == EMPTY_NODE
    requires forall p :: p in tree ==> tree[p].Valid() && tree[p].View() == nodes[p]
    ensures AllValid(tree[sub.path := sub]) && Snap(tree[sub.path := sub]) == nodes[sub.path := EMPTY_NODE]
  {
    hide Channel.Valid, Channel.View;
  }

  // ---------------------------------------------------------------- the manager

  class ChannelManager {
    const root: Channel
    var channelsByName: map<Path, Channel>  // by full name, split at its dots
    var jobsByUuid: map<string, ChannelJob>
    ghost var made: set<ChannelJob>
    ghost var clock: nat

    ghost function State(): Sys
      reads *
    {
      Sys(Snap(channelsByName), Entries(), made, clock)
    }

    ghost function Entries(): Entries
      reads this, jobsByUuid.Values
    {
      EntriesOf(jobsByUuid)
    }

    /** The index holds exactly the channels of the tree by their full names, and the state of all
        channels and jobs satisfies the invariant of runs. */
    ghost predicate Valid()
      reads *
    {
      && Shaped(channelsByName) && AllValid(channelsByName)
      && channelsByName[ROOT] == root
      && Inv(State())
    }

    constructor ()
      ensures Valid() && Initial(State())
      ensures channelsByName.Keys == {ROOT} && Snap(channelsByName)[ROOT] == EMPTY_NODE.(capacity := 1)
      ensures var n := Snap(channelsByName)[ROOT];
              && n.capacity == 1 && n.throttle == 0 && !n.sequential && n.pause == 0
              && n.queue.ready == {} && n.queue.waiting == map[] && n.running == {} && n.failed == {}
    {
      root := new Channel("root", null, 1);
      channelsByName := map[ROOT := root];
      jobsByUuid := map[];
      made, clock := {}, 0;
      new;
      hide Channel.Valid, Channel.View, Shaped, Inv, Initial;
      Alone(root);
      AloneState(Snap(channelsByName));
      assert Entries() == map[];
      InitialOk(State());
    }

    // -------------------------------------------------------------- channels by name

    /** The child `n` of `parent`, created without limits if it is not there. */
    method Subchannel(parent: Channel, n: string, ghost nodes: Nodes) returns (sub: Channel)
      requires Shaped(channelsByName) && AllValid(channelsByName) && nodes == Snap(channelsByName)
      requires parent.path in channelsByName && channelsByName[parent.path] == parent
      modifies this`channelsByName, parent`children
      ensures Shaped(channelsByName) && AllValid(channelsByName)
      ensures sub.path == parent.path + [n] && sub.path in channelsByName && channelsByName[sub.path] == sub
      ensures Grew(old(channelsByName), channelsByName)
      ensures Snap(channelsByName) == WithEmpty(nodes, sub.path)
    {
      hide Channel.Valid, Channel.View, Shaped, Snap, AllValid, ROOT;
      ViewFacts(channelsByName);
      KidFacts(channelsByName, parent.path, n);
      if n in parent.children {
        return parent.children[n];
      }
      sub := NewSubchannel(parent, n, nodes);
    }

    method NewSubchannel(parent: Channel, n: string, ghost nodes: Nodes) returns (sub: Channel)
      requires Shaped(channelsByName) && AllValid(channelsByName) && nodes == Snap(channelsByName)
      requires parent.path in channelsByName && channelsByName[parent.path] == parent
          && parent.path + [n] !in channelsByName
      modifies this`channelsByName, parent`children
      ensures Shaped(channelsByName) && AllValid(channelsByName)
      ensures sub.path == parent.path + [n] && fresh(sub) && fresh(sub.queue) && fresh(sub.queue.queue)
          && fresh(sub.queue.etaQueue)
      ensures channelsByName == old(channelsByName)[sub.path := sub]
      ensures Snap(channelsByName) == nodes[sub.path := EMPTY_NODE]
    {
      hide Channel.Valid, Channel.View, Shaped, Snap, AllValid, ROOT, Rooted, Apart;
      sub := NewChild(parent, n, channelsByName, nodes);
      Enlist(sub, nodes);
    }

    /** The new channel enters the index. */
    method Enlist(sub: Channel, ghost nodes: Nodes)
      requires Shaped(channelsByName[sub.path := sub]) && AllValid(channelsByName[sub.path := sub])
      requires Snap(channelsByName[sub.path := sub]) == nodes[sub.path := EMPTY_NODE]
      modifies this`channelsByName
      ensures channelsByName == old(channelsByName)[sub.path := sub]
      ensures Shaped(channelsByName) && AllValid(channelsByName)
          && Snap(channelsByName) == nodes[sub.path := EMPTY_NODE]
    {
      hide Channel.Valid, Channel.View, Shaped, Snap, AllValid;
      ghost var tree, nodes' := channelsByName[sub.path := sub], nodes[sub.path := EMPTY_NODE];
      ViewFacts(tree);
      channelsByName := channelsByName[sub.path := sub];
      forall p | p in tree ensures tree[p].Valid() && tree[p].View() == nodes'[p] {
      }
      SameTree(tree, nodes');
    }

    /** `get_channel_by_name`; no channel stands for the exception `ChannelNotFound`. */
    method GetChannelByName(name: string, autocreate: bool, parentFallback: bool, ghost nodes: Nodes)
        returns (r: Option<Channel>)
      requires Shaped(channelsByName) && AllValid(channelsByName) && channelsByName[ROOT] == root
          && nodes == Snap(channelsByName)
      modifies this`channelsByName, channelsByName.Values`children
      ensures Shaped(channelsByName) && AllValid(channelsByName) && channelsByName[ROOT] == root
      ensures Grew(old(channelsByName), channelsByName)
      ensures ROOT in nodes
      ensures var found := Resolve(nodes.Keys, name, autocreate, parentFallback);
              match found
              case None => r.None? && Snap(channelsByName) == nodes
              case Some(p) =>
                && r.Some? && r.value.path == p && p in channelsByName && channelsByName[p] == r.value
                && Snap(channelsByName) == Extend(nodes, p)
    {
      hide Channel.Valid, Channel.View, Shaped, Snap, AllValid;
      ViewFacts(channelsByName);
      if name == "" || name == "root" {
        ExtendKnown(nodes, ROOT);
        NormaliseRoot(name);
        return Some(root);
      }
      var p := Normalise(name);
      if p in channelsByName {
        ExtendKnown(nodes, p);
        return Some(channelsByName[p]);
      }
      if !autocreate && !parentFallback {
        return None;
      }
      var parent := root;
      if parentFallback {
        parent := FallbackParent(p);
        SnapKeys(channelsByName);
      }
      var sub := CreateBelow(parent, p[1..], nodes);
      r := Some(sub);
    }

    /** The first configured channel on the way up from a name that is not known. */
    method FallbackParent(p: Path) returns (parent: Channel)
      requires ROOT <= p && |p| > 1 && ROOT in channelsByName && channelsByName[ROOT] == root
      ensures LongestKnown(channelsByName.Keys, p) in channelsByName
      ensures parent == channelsByName[LongestKnown(channelsByName.Keys, p)]
    {
      parent := root;
      var up := p[..|p| - 1];
      while up != ROOT && up !in channelsByName
        invariant |up| >= 1 && ROOT <= up <= p && |up| < |p|
        invariant LongestKnown(channelsByName.Keys, p) ==
                  if up == ROOT || up in channelsByName then up else LongestKnown(channelsByName.Keys, up)
        decreases |up|
      {
        up := up[..|up| - 1];
      }
      if up != ROOT {
        parent := channelsByName[up];
      }
    }

    /** The channel reached from `parent` by these names, creating what is missing. */
    method CreateBelow(parent: Channel, names: seq<string>, ghost nodes: Nodes) returns (sub: Channel)
      requires Shaped(channelsByName) && AllValid(channelsByName) && nodes == Snap(channelsByName)
      requires parent.path in channelsByName && channelsByName[parent.path] == parent
      modifies this`channelsByName, channelsByName.Values`children
      ensures Shaped(channelsByName) && AllValid(channelsByName)
      ensures Grew(old(channelsByName), channelsByName)
      ensures sub.path == parent.path + names && sub.path in channelsByName && channelsByName[sub.path] == sub
      ensures Snap(channelsByName) == Extend(nodes, sub.path)
    {
      hide Channel.Valid, Channel.View, Shaped, Snap, AllValid, Extend, WithEmpty;
      ghost var base := parent.path;
      SnapKeys(channelsByName);
      ExtendKnown(nodes, base);
      sub := parent;
      assert names[..0] == [] && base + [] == base;
      for i := 0 to |names|
        invariant Shaped(channelsByName) && AllValid(channelsByName)
        invariant Grew(old(channelsByName), channelsByName)
        invariant sub.path == base + names[..i] && sub.path in channelsByName && channelsByName[sub.path] == sub
        invariant Snap(channelsByName) == Extend(nodes, sub.path)
      {
        ghost var c := sub.path;
        sub := Subchannel(sub, names[i], Extend(nodes, c));
        ExtendOneMore(nodes, c, names[i]);
        assert names[..i + 1] == names[..i] + [names[i]];
        assert base + names[..i + 1] == base + names[..i] + [names[i]];
      }
      assert names[..|names|] == names;
    }

    /** `get_channel_from_config`. That a sequential channel has another capacity than 1 is noticed
        after the settings have been stored. */
    method ConfigureChannel(name: string, capacity: int, sequential: bool, throttle: nat) returns (ok: bool)
      requires Valid()
      requires Normalise(name) in State().nodes && State().nodes[Normalise(name)].pause != 0 ==> throttle != 0
      modifies this`channelsByName, channelsByName.Values, AllChannelQueues(channelsByName)
      ensures Valid() && (old(Initial(State())) ==> Initial(State()))
      ensures ok <==> (sequential ==> capacity == 1)
      ensures var p, nodes := Normalise(name), Extend(old(State()).nodes, Normalise(name));
              p in nodes && State().nodes == nodes[p := Configured(nodes[p], capacity, sequential, throttle)]
      ensures forall q :: q in State().nodes <==> q in old(State()).nodes || (q != [] && q <= Normalise(name))
      ensures State().jobs == old(State()).jobs
      ensures forall q :: q in State().nodes ==>
                var n := State().nodes[q];
                && (q == Normalise(name) ==>
                      n.capacity == capacity && n.sequential == sequential && n.throttle == throttle)
                && (q in old(State()).nodes ==>
                      var o := old(State()).nodes[q];
                      && n.queue == o.queue && n.running == o.running && n.failed == o.failed && n.pause == o.pause
                      && (q != Normalise(name) ==> n == o))
                && (q !in old(State()).nodes ==>
                      && n.queue.ready == {} && n.queue.waiting == map[] && n.running == {} && n.failed == {}
                      && n.pause == 0
                      && (q != Normalise(name) ==> n.capacity == 0 && n.throttle == 0 && !n.sequential))
    {
      hide Channel.Valid, Channel.View, Shaped, Snap, AllValid, Rooted, ROOT, Extend, Inv, Initial, Valid, State,
          EntriesOf;
      ghost var s, jobs := State(), jobsByUuid;
      Facts();
      var channel := ChannelToConfigure(name, s.nodes);
      assert EntriesOf(jobs) == s.jobs;
      ghost var nodes := Snap(channelsByName);
      ok := ConfigureInTree(channel, capacity, sequential, throttle, nodes);
      assert EntriesOf(jobs) == s.jobs;
      ghost var s' := s.(nodes := nodes[channel.path := Configured(nodes[channel.path], capacity, sequential,
          throttle)]);
      ConfiguredKeepsInv(s, channel.path, capacity, sequential, throttle, s');
      IsValid(s');
      forall q {
        ExtendOnFields(s.nodes, channel.path, q);
      }
    }

    method ConfigureInTree(channel: Channel, capacity: int, sequential: bool, throttle: nat, ghost nodes: Nodes)
        returns (ok: bool)
      requires Shaped(channelsByName) && AllValid(channelsByName) && nodes == Snap(channelsByName)
      requires channel.path in channelsByName && channelsByName[channel.path] == channel
      modifies channel`capacity, channel`throttle, channel.queue`sequential
      ensures AllValid(channelsByName) && channel.path in nodes
      ensures Snap(channelsByName) ==
              nodes[channel.path := Configured(nodes[channel.path], capacity, sequential, throttle)]
      ensures ok <==> (sequential ==> capacity == 1)
    {
      hide Channel.Valid, Channel.View, Shaped, Snap, AllValid, Rooted, ROOT;
      ghost var tree := channelsByName;
      ViewFacts(tree);
      ok := channel.Configure(capacity, sequential, throttle);
      forall p | p in tree && p != channel.path ensures tree[p].Valid() && tree[p].View() == nodes[p] {
      }
      TreeFromChannels(tree, channel.path, nodes);
    }

    method ChannelToConfigure(name: string, ghost nodes: Nodes) returns (channel: Channel)
      requires Shaped(channelsByName) && AllValid(channelsByName) && ROOT in channelsByName
          && channelsByName[ROOT] == root && nodes == Snap(channelsByName)
      modifies this`channelsByName, channelsByName.Values`children
      ensures Shaped(channelsByName) && AllValid(channelsByName) && ROOT in channelsByName
          && channelsByName[ROOT] == root
      ensures channel.path == Normalise(name) && channel.path in channelsByName
          && channelsByName[channel.path] == channel
      ensures Snap(channelsByName) == Extend(nodes, channel.path)
      ensures channel in old(channelsByName.Values) || fresh(channel)
      ensures channel.queue in old(AllChannelQueues(channelsByName)) || fresh(channel.queue)
    {
      hide Channel.Valid, Channel.View, Shaped, Snap, AllValid, Rooted, Extend;
      ghost var tree := channelsByName;
      var found := GetChannelByName(name, true, false, nodes);
      channel := found.value;
      AutocreateIsNormalised(nodes.Keys, name);
      assert channel.path in tree ==>
          tree[channel.path] in tree.Values && tree[channel.path].queue in AllChannelQueues(tree);
    }

    // -------------------------------------------------------------- one job

    /** `job.channel.remove(job)`, then the job is forgotten. */
    method DropJob(uuid: string, ghost nodes: Nodes)
      requires Shaped(channelsByName) && AllValid(channelsByName) && nodes == Snap(channelsByName)
      requires uuid in jobsByUuid && jobsByUuid[uuid].home in channelsByName
      modifies this`jobsByUuid, this`made, channelsByName.Values`running, channelsByName.Values`failed,
          AllQueues(channelsByName)
      ensures AllValid(channelsByName) && made == old(made)
      ensures Snap(channelsByName) == Strip(nodes, old(jobsByUuid[uuid]).home, old(jobsByUuid[uuid]))
      ensures jobsByUuid == old(jobsByUuid) - {uuid}
    {
      hide Channel.Valid, Channel.View, Shaped, Snap, AllValid, Strip;
      var job := jobsByUuid[uuid];
      UpFacts(channelsByName, job.home);
      channelsByName[job.home].Remove(job, channelsByName);
      Index(jobsByUuid - {uuid}, made, Strip(nodes, job.home, job));
    }

    /** The jobs by uuid are these from now on. */
    method Index(jobs: map<string, ChannelJob>, ghost objects: set<ChannelJob>, ghost nodes: Nodes)
      requires Shaped(channelsByName) && AllValid(channelsByName) && nodes == Snap(channelsByName)
      modifies this`jobsByUuid, this`made
      ensures AllValid(channelsByName) && Snap(channelsByName) == nodes
      ensures jobsByUuid == jobs && made == objects
    {
      hide Channel.Valid, Channel.View, Shaped, Snap, AllValid;
      ghost var tree := channelsByName;
      ViewFacts(tree);
      jobsByUuid, made := jobs, objects;
      forall p | p in tree ensures tree[p].Valid() && tree[p].View() == nodes[p] {
      }
      SameTree(tree, nodes);
    }

    /** The transition that the notified state asks for. */
    method ApplyState(job: ChannelJob, state: NotifiedState, ghost nodes: Nodes)
      requires Shaped(channelsByName) && AllValid(channelsByName) && nodes == Snap(channelsByName)
      requires job.home in channelsByName
      modifies channelsByName.Values`running, channelsByName.Values`failed, AllQueues(channelsByName)
      ensures AllValid(channelsByName)
      ensures Rooted(nodes.Keys) && job.home in nodes
          && Snap(channelsByName) == Apply(nodes, job.home, job, job.eta, state)
    {
      hide Channel.Valid, Channel.View, Shaped, Snap, AllValid, Strip, ChannelTree.SetPending, ChannelTree.SetRunning,
          ChannelTree.SetFailed;
      SnapKeys(channelsByName);
      UpFacts(channelsByName, job.home);
      var channel := channelsByName[job.home];
      match state
      case NoState => channel.SetDone(job, channelsByName);
      case Known(Done) => channel.SetDone(job, channelsByName);
      case Known(Cancelled) => channel.SetDone(job, channelsByName);
      case Known(Pending) => channel.SetPending(job, channelsByName);
      case Known(Enqueued) => channel.SetRunning(job, channelsByName);
      case Known(Started) => channel.SetRunning(job, channelsByName);
      case Known(Failed) => channel.SetFailed(job, channelsByName);
      case Known(WaitDependencies) =>  // its parents are to finish first
      case Unexpected =>  // only logged
    }

    lemma Facts()
      requires Valid()
      ensures Shaped(channelsByName) && AllValid(channelsByName) && ROOT in channelsByName
          && channelsByName[ROOT] == root
      ensures State() == Sys(Snap(channelsByName), EntriesOf(jobsByUuid), made, clock) && Inv(State())
      ensures Rooted(channelsByName.Keys) && Snap(channelsByName).Keys == channelsByName.Keys
    {
      hide Channel.Valid, Channel.View;
      SnapKeys(channelsByName);
    }

    lemma JobFacts(uuid: string)
      requires Valid()
      ensures uuid in EntriesOf(jobsByUuid) <==> uuid in jobsByUuid
      ensures uuid in jobsByUuid ==>
                && jobsByUuid[uuid].home in channelsByName && jobsByUuid[uuid].uuid == uuid && jobsByUuid[uuid] in made
                && EntriesOf(jobsByUuid)[uuid] == Entry(jobsByUuid[uuid], jobsByUuid[uuid].eta)
    {
      hide Channel.Valid, Channel.View;
      SnapKeys(channelsByName);
      if uuid in jobsByUuid {
        assert EntryOk(State(), uuid);
      }
    }

    lemma IsValid(s: Sys)
      requires Shaped(channelsByName) && AllValid(channelsByName) && ROOT in channelsByName
          && channelsByName[ROOT] == root
      requires s == Sys(Snap(channelsByName), EntriesOf(jobsByUuid), made, clock) && Inv(s)
      ensures Valid() && State() == s
    {
      hide Channel.Valid, Channel.View, Shaped, Snap, AllValid, Inv;
    }

    /** `remove_job` */
    method RemoveJob(uuid: string)
      requires Valid()
      modifies this`jobsByUuid, this`made, channelsByName.Values`running, channelsByName.Values`failed,
          AllQueues(channelsByName)
      ensures Valid() && Next(old(State()), Event.RemoveJob(uuid), State())
    {
      hide Channel.Valid, Channel.View, Shaped, Snap, AllValid, Strip, Inv, Next, Valid, State, EntriesOf, Rooted,
          ROOT, AllQueues;
      ghost var s := State();
      Facts();
      JobFacts(uuid);
      if uuid !in jobsByUuid {
        DropsEntry(s, uuid, s);
        return;
      }
      ghost var jobs := jobsByUuid;
      DropJob(uuid, s.nodes);
      assert EntriesOf(jobs) == s.jobs;
      EntriesWithout(jobs, uuid);
      ghost var s' := s.(nodes := Strip(s.nodes, jobs[uuid].home, jobs[uuid]), jobs := s.jobs - {uuid});
      DropsEntry(s, uuid, s');
      IsValid(s');
    }

    /** The channel of a notification, created if need be. */
    method ChannelOf(channelName: string, ghost nodes: Nodes) returns (channel: Channel)
      requires Shaped(channelsByName) && AllValid(channelsByName) && ROOT in channelsByName
          && channelsByName[ROOT] == root && nodes == Snap(channelsByName)
      modifies this`channelsByName, channelsByName.Values`children
      ensures Shaped(channelsByName) && AllValid(channelsByName) && ROOT in channelsByName
          && channelsByName[ROOT] == root
      ensures ROOT in nodes && channel.path == ChannelFor(nodes.Keys, channelName) && channel.path in channelsByName
      ensures channelsByName[channel.path] == channel
      ensures Snap(channelsByName) == Extend(nodes, channel.path)
      ensures old(channelsByName).Keys <= channelsByName.Keys
      ensures fresh(channelsByName.Values - old(channelsByName).Values)
      ensures fresh(AllQueues(channelsByName) - AllQueues(old(channelsByName)))
    {
      hide Channel.Valid, Channel.View, Shaped, Snap, AllValid, Rooted, ROOT, Extend;
      ghost var tree := channelsByName;
      var found := GetChannelByName(channelName, false, true, nodes);
      channel := found.value;
      assert forall p :: p in tree ==>
          tree[p] in tree.Values && tree[p].queue.queue in AllQueues(tree) && tree[p].queue.etaQueue in AllQueues(tree);
    }

    /** If a property that influences scheduling has changed, the job of this uuid is removed. */
    method DropOutdated(channel: Channel, uuid: string, seqno: int, priority: int, eta: nat, ghost s: Sys,
        ghost ev: Event) returns (keeps: bool)
      requires Shaped(channelsByName) && AllValid(channelsByName)
          && Snap(channelsByName) == Extend(s.nodes, channel.path)
      requires channel.path in channelsByName && channelsByName[channel.path] == channel
      requires ev.Notify? && ev.uuid == uuid && ev.seqno == seqno && ev.priority == priority && ev.eta == eta
      requires Inv(s) && channel.path == ChannelFor(s.nodes.Keys, ev.name)
      requires uuid in s.jobs <==> uuid in jobsByUuid
      requires uuid in s.jobs ==>
          s.jobs[uuid] == Entry(jobsByUuid[uuid], jobsByUuid[uuid].eta) && jobsByUuid[uuid].home in channelsByName
      modifies this`jobsByUuid, this`made, channelsByName.Values`running, channelsByName.Values`failed,
          AllQueues(channelsByName)
      ensures Shaped(channelsByName) && AllValid(channelsByName) && made == old(made)
      ensures jobsByUuid == if keeps then old(jobsByUuid) else old(jobsByUuid) - {uuid}
      ensures IsPrepared(s, ev, Snap(channelsByName), channel.path, keeps)
    {
      hide Channel.Valid, Channel.View, Shaped, Snap, AllValid, Strip, ROOT, AllQueues, Inv, ChannelFor, Extend,
          IsPrepared;
      ghost var nodes := Snap(channelsByName);
      keeps := false;
      if uuid in jobsByUuid {
        var job := jobsByUuid[uuid];
        UpFacts(channelsByName, job.home);
        if seqno != job.seqno || priority != job.priority || eta != job.eta || channel != channelsByName[job.home] {
          DropJob(uuid, nodes);
        } else {
          keeps := true;
        }
      }
      IsPreparedNow(s, ev, Snap(channelsByName), channel.path, keeps);
    }

    /** The job of this uuid: the one that is known, or a new one. */
    method JobOf(db: string, channel: Channel, uuid: string, seqno: int, created: int, priority: int, eta: nat,
        ghost ev: Event, ghost keeps: bool, ghost jobs: map<string, ChannelJob>, ghost nodes: Nodes)
      returns (job: ChannelJob)
      requires Shaped(channelsByName) && AllValid(channelsByName) && nodes == Snap(channelsByName)
      requires ev.Notify? && ev.db == db && ev.uuid == uuid && ev.seqno == seqno && ev.created == created
          && ev.priority == priority && ev.eta == eta
      requires keeps ==> uuid in jobs
      requires jobsByUuid == if keeps then jobs else jobs - {uuid}
      modifies this`jobsByUuid, this`made
      ensures AllValid(channelsByName) && Snap(channelsByName) == nodes && uuid in jobsByUuid
      ensures if keeps then job == jobs[uuid] && jobsByUuid == jobs && made == old(made)
              else fresh(job) && jobsByUuid == jobs[uuid := job] && made == old(made) + {job}
      ensures !keeps ==> IsJobOf(job, ev, channel.path) && job.eta == eta && job.home == channel.path
    {
      hide Channel.Valid, Channel.View, Shaped, Snap, AllValid, ROOT;
      if uuid !in jobsByUuid {
        job := new ChannelJob(db, channel.path, uuid, seqno, created, priority, eta);
        assert (jobs - {uuid})[uuid := job] == jobs[uuid := job];
        Index(jobsByUuid[uuid := job], made + {job}, nodes);
      }
      job := jobsByUuid[uuid];
    }

    /** The channel of a notification, with an outdated job of its uuid out of the way. */
    method Prepare(channelName: string, uuid: string, seqno: int, priority: int, eta: nat, ghost s: Sys,
        ghost ev: Event)
      returns (channel: Channel, keeps: bool)
      requires Valid() && s == State()
      requires ev.Notify? && ev.name == channelName && ev.uuid == uuid && ev.seqno == seqno && ev.priority == priority
          && ev.eta == eta
      modifies this`channelsByName, this`jobsByUuid, this`made, channelsByName.Values, AllQueues(channelsByName)
      ensures Shaped(channelsByName) && AllValid(channelsByName) && ROOT in channelsByName
          && channelsByName[ROOT] == root
      ensures channel.path in channelsByName && IsPrepared(s, ev, Snap(channelsByName), channel.path, keeps)
      ensures jobsByUuid == (if keeps then old(jobsByUuid) else old(jobsByUuid) - {uuid}) && made == old(made)
      ensures fresh(channelsByName.Values - old(channelsByName).Values)
      ensures fresh(AllQueues(channelsByName) - AllQueues(old(channelsByName)))
    {
      hide Channel.Valid, Channel.View, Shaped, Snap, AllValid, Strip, Inv, Valid, State, EntriesOf, Rooted, ROOT,
          AllQueues, Extend, ChannelFor, IsPrepared;
      ghost var jobs := jobsByUuid;
      Facts();
      JobFacts(uuid);
      channel := ChannelOf(channelName, s.nodes);
      assert EntriesOf(jobs) == s.jobs;
      keeps := DropOutdated(channel, uuid, seqno, priority, eta, s, ev);
    }

    /** The job of the notification, in the place that its state names. */
    method Place(db: string, channel: Channel, uuid: string, seqno: int, created: int, priority: int, eta: nat,
        state: NotifiedState, ghost ev: Event, ghost keeps: bool, ghost jobs: map<string, ChannelJob>,
        ghost nodes: Nodes, ghost s: Sys)
      returns (job: ChannelJob)
      requires Shaped(channelsByName) && AllValid(channelsByName) && nodes == Snap(channelsByName)
      requires ev.Notify? && ev == Event.Notify(ev.name, db, uuid, seqno, created, priority, eta, state)
      requires keeps ==> uuid in jobs && jobs[uuid].home == channel.path
      requires jobsByUuid == if keeps then jobs else jobs - {uuid}
      requires channel.path in channelsByName && s.jobs == EntriesOf(jobs) && s.made == made && s.clock == clock
      requires uuid in jobs ==> uuid in s.jobs && s.jobs[uuid] == Entry(jobs[uuid], jobs[uuid].eta)
      modifies this`jobsByUuid, this`made, channelsByName.Values`running, channelsByName.Values`failed,
          AllQueues(channelsByName)
      ensures AllValid(channelsByName)
      ensures IsPlaced(s, ev, nodes, channel.path, job, keeps,
          Sys(Snap(channelsByName), EntriesOf(jobsByUuid), made, clock))
    {
      hide Channel.Valid, Channel.View, Shaped, Snap, AllValid, Strip, EntriesOf, Rooted, ROOT, AllQueues, Apply,
          IsJobOf, IsPlaced;
      job := JobOf(db, channel, uuid, seqno, created, priority, eta, ev, keeps, jobs, nodes);
      assert EntriesOf(jobs) == s.jobs;
      ApplyState(job, state, nodes);
      assert EntriesOf(jobs) == s.jobs;
      EntriesWith(jobs, uuid, job);
      ghost var s' := Sys(Snap(channelsByName), EntriesOf(jobsByUuid), made, clock);
      PlacedAs(s, ev, nodes, channel.path, job, job.eta, keeps, s');
    }

    /** After `Prepare`, placing the job is the whole step. */
    method Settle(db: string, channel: Channel, uuid: string, seqno: int, created: int, priority: int, eta: nat,
        state: NotifiedState, ghost ev: Event, ghost keeps: bool, ghost jobs: map<string, ChannelJob>, ghost s: Sys)
      returns (job: ChannelJob)
      requires Shaped(channelsByName) && AllValid(channelsByName) && ROOT in channelsByName
          && channelsByName[ROOT] == root
      requires ev.Notify? && ev == Event.Notify(ev.name, db, uuid, seqno, created, priority, eta, state)
      requires channel.path in channelsByName && IsPrepared(s, ev, Snap(channelsByName), channel.path, keeps)
      requires jobsByUuid == if keeps then jobs else jobs - {uuid}
      requires Inv(s) && s.jobs == EntriesOf(jobs) && s.made == made && s.clock == clock
      requires uuid in s.jobs <==> uuid in jobs
      requires uuid in jobs ==>
                 s.jobs[uuid] == Entry(jobs[uuid], jobs[uuid].eta) && jobs[uuid].db == db
                     && jobs[uuid].created == created
      modifies this`jobsByUuid, this`made, channelsByName.Values`running, channelsByName.Values`failed,
          AllQueues(channelsByName)
      ensures Valid() && EndsWith(s, ev, job, State())
    {
      hide Channel.Valid, Channel.View, Shaped, Snap, AllValid, Strip, Inv, Valid, State, EntriesOf, Rooted, ROOT,
          AllQueues, EndsWith, IsPrepared, IsPlaced;
      ghost var nodes := Snap(channelsByName);
      KeptIsKnown(s, ev, nodes, channel.path, keeps);
      job := Place(db, channel, uuid, seqno, created, priority, eta, state, ev, keeps, jobs, nodes, s);
      ghost var s' := Sys(Snap(channelsByName), EntriesOf(jobsByUuid), made, clock);
      NotifiedAs(s, ev, nodes, channel.path, job, keeps, s');
      IsValid(s');
    }

    /** `notify`. The source asserts that the database and the creation date of a known job do not
        change. */
    method Notify(db: string, channelName: string, uuid: string, seqno: int, created: int, priority: int, eta: nat,
        state: NotifiedState)
      returns (job: ChannelJob)
      requires Valid()
      requires uuid in jobsByUuid ==> jobsByUuid[uuid].db == db && jobsByUuid[uuid].created == created
      modifies this`channelsByName, this`jobsByUuid, this`made, channelsByName.Values, AllQueues(channelsByName)
      ensures Valid()
      ensures EndsWith(old(State()), Event.Notify(channelName, db, uuid, seqno, created, priority, eta, state), job,
          State())
    {
      hide Channel.Valid, Channel.View, Shaped, Snap, AllValid, Strip, Inv, Valid, State, EntriesOf, Rooted, ROOT,
          AllQueues, Extend, ChannelFor, Apply, EndsWith, IsPrepared, IsPlaced, Next, Keeps, Prepared;
      ghost var s, ev := State(), Event.Notify(channelName, db, uuid, seqno, created, priority, eta, state);
      ghost var jobs := jobsByUuid;
      Facts();
      JobFacts(uuid);
      var channel, keeps := Prepare(channelName, uuid, seqno, priority, eta, s, ev);
      assert EntriesOf(jobs) == s.jobs;
      job := Settle(db, channel, uuid, seqno, created, priority, eta, state, ev, keeps, jobs, s);
    }

    /** One turn of the loop of `remove_db`. */
    method DropIfOf(u: string, db: string, ghost s: Sys, ghost jobs: map<string, ChannelJob>, ghost uuids: set<string>)
      requires Shaped(channelsByName) && AllValid(channelsByName)
      requires Snap(channelsByName) == StripAll(s.nodes, s.jobs, OfDb(s.jobs, db) - uuids)
      requires jobs.Keys == s.jobs.Keys && u in uuids && u in jobs && IndexAgrees(jobs, s, u)
          && jobs[u].home in channelsByName
      requires jobsByUuid == jobs - (OfDb(s.jobs, db) - uuids)
      modifies this`jobsByUuid, this`made, channelsByName.Values`running, channelsByName.Values`failed,
          AllQueues(channelsByName)
      ensures AllValid(channelsByName) && made == old(made)
      ensures Snap(channelsByName) == StripAll(s.nodes, s.jobs, OfDb(s.jobs, db) - (uuids - {u}))
      ensures jobsByUuid == jobs - (OfDb(s.jobs, db) - (uuids - {u}))
    {
      hide Channel.Valid, Channel.View, Shaped, Snap, AllValid, Strip, StripAll, AllQueues, Rooted, ROOT, OfDb,
          IndexAgrees;
      OneMoreGone(s, jobs, db, uuids, u);
      if jobsByUuid[u].db == db {
        DropJob(u, StripAll(s.nodes, s.jobs, OfDb(s.jobs, db) - uuids));
      }
    }

    /** The loop of `remove_db`. */
    method DropAll(db: string, ghost s: Sys, ghost jobs: map<string, ChannelJob>)
      requires Shaped(channelsByName) && AllValid(channelsByName) && Snap(channelsByName) == s.nodes
      requires jobsByUuid == jobs && jobs.Keys == s.jobs.Keys
      requires forall u :: u in jobs ==> IndexAgrees(jobs, s, u)
      requires forall u :: u in jobs ==> jobs[u].home in channelsByName
      modifies this`jobsByUuid, this`made, channelsByName.Values`running, channelsByName.Values`failed,
          AllQueues(channelsByName)
      ensures AllValid(channelsByName) && Snap(channelsByName) == StripAll(s.nodes, s.jobs, OfDb(s.jobs, db))
          && made == old(made)
      ensures jobsByUuid == jobs - OfDb(s.jobs, db)
    {
      hide Channel.Valid, Channel.View, Shaped, Snap, AllValid, Strip, StripAll, AllQueues, Rooted, ROOT, OfDb,
          IndexAgrees;
      NoneGone(s, jobs, db);
      var uuids := jobsByUuid.Keys;
      while uuids != {}
        invariant AllValid(channelsByName) && made == old(made) && uuids <= jobs.Keys
        invariant Snap(channelsByName) == StripAll(s.nodes, s.jobs, OfDb(s.jobs, db) - uuids)
        invariant jobsByUuid == jobs - (OfDb(s.jobs, db) - uuids)
      {
        var u :| u in uuids;
        DropIfOf(u, db, s, jobs, uuids);
        uuids := uuids - {u};
      }
      assert OfDb(s.jobs, db) - uuids == OfDb(s.jobs, db);
    }

    /** `remove_db` */
    method RemoveDb(db: string)
      requires Valid()
      modifies this`jobsByUuid, this`made, channelsByName.Values`running, channelsByName.Values`failed,
          AllQueues(channelsByName)
      ensures Valid() && Next(old(State()), Event.RemoveDb(db), State())
    {
      hide Channel.Valid, Channel.View, Shaped, Snap, AllValid, Strip, StripAll, Inv, Next, Valid, State, EntriesOf,
          Rooted, ROOT, AllQueues;
      ghost var s, jobs := State(), jobsByUuid;
      Facts();
      EntriesKeys(jobs);
      forall u | u in jobs ensures IndexAgrees(jobs, s, u) && jobs[u].home in channelsByName {
        JobFacts(u);
      }
      ghost var gone := OfDb(s.jobs, db);
      DropAll(db, s, jobs);
      assert EntriesOf(jobs) == s.jobs;
      DbIsGone(s, db);
      EntriesWithoutAll(jobs, gone);
      IsValid(s.(nodes := StripAll(s.nodes, s.jobs, gone), jobs := s.jobs - gone));
    }

    /** The map of jobs by uuid holds its jobs weakly: those that are in no channel can vanish. */
    method Forget(uuids: set<string>)
      requires Valid()
      requires forall u :: u in uuids && u in jobsByUuid ==> Nowhere(Snap(channelsByName), jobsByUuid[u])
      modifies this`jobsByUuid, this`made
      ensures Valid() && Next(old(State()), Event.Forget(uuids), State())
    {
      hide Channel.Valid, Channel.View, Shaped, Snap, AllValid, Inv, Next, Valid, State, EntriesOf, Rooted, ROOT,
          Nowhere;
      ghost var s, jobs := State(), jobsByUuid;
      Facts();
      EntriesKeys(jobs);
      forall u | u in jobs ensures IndexAgrees(jobs, s, u) {
        JobFacts(u);
      }
      Index(jobsByUuid - uuids, made, s.nodes);
      assert EntriesOf(jobs) == s.jobs;
      EntriesWithoutAll(jobs, uuids);
      Forgotten(s, jobs, uuids);
      IsValid(s.(jobs := s.jobs - uuids));
    }

    // -------------------------------------------------------------- jobs to run

    /** Time goes on. */
    ghost method Tick(now: nat, nodes: Nodes)
      requires Shaped(channelsByName) && AllValid(channelsByName) && nodes == Snap(channelsByName)
      modifies this`clock
      ensures AllValid(channelsByName) && Snap(channelsByName) == nodes && clock == now
    {
      hide Channel.Valid, Channel.View, Shaped, Snap, AllValid;
      var tree := channelsByName;
      ViewFacts(tree);
      clock := now;
      forall p | p in tree ensures tree[p].Valid() && tree[p].View() == nodes[p] {
      }
      SameTree(tree, nodes);
    }

    /** `get_jobs_to_run`; `flow` records what every channel yielded. */
    method GetJobsToRun(now: nat) returns (jobs: seq<ChannelJob>, ghost flow: Flow)
      requires Valid() && clock <= now
      modifies this`clock, Down(channelsByName, ROOT)`running, Down(channelsByName, ROOT)`pauseUntil,
          DownQueues(channelsByName, ROOT), WaitingIn(Snap(channelsByName), ROOT)
      ensures Valid() && Next(old(State()), Event.Run(now, flow), State())
      ensures ROOT in flow && flow[ROOT] == jobs
    {
      hide Channel.Valid, Channel.View, Shaped, Snap, AllValid, Inv, Next, Valid, State, EntriesOf, Rooted, Ran, Lost,
          WaitingIn, Down, DownQueues, EtasAfter, LostEta, Under;
      ghost var s, known := State(), jobsByUuid;
      Facts();
      EntriesKeys(known);
      forall u | u in known ensures IndexAgrees(known, s, u) && s.jobs[u].eta == known[u].eta {
        JobFacts(u);
      }
      RootPath(channelsByName);
      Tick(now, s.nodes);
      jobs, flow := root.GetJobsToRun(now, channelsByName);
      RanHasTop(s.nodes, ROOT, now, Snap(channelsByName), flow);
      EtasAgree(channelsByName, known, s, now, Snap(channelsByName), flow);
      ghost var s' := Sys(Snap(channelsByName), EntriesOf(jobsByUuid), made, clock);
      HasRun(s, now, flow, s');
      IsValid(s');
    }

    /** `get_wakeup_time` */
    method GetWakeupTime() returns (w: nat)
      requires Valid()
      modifies DownQueues(channelsByName, ROOT)
      ensures Valid() && State() == old(State()) && WakesAt(State(), w)
    {
      hide Channel.Valid, Channel.View, Shaped, Snap, AllValid, Inv, Valid, State, EntriesOf, Rooted, DownQueues,
          Candidates, IsWakeup;
      ghost var s, known := State(), jobsByUuid;
      Facts();
      RootPath(channelsByName);
      w := root.GetWakeupTime(0, channelsByName);
      assert EntriesOf(known) == s.jobs;
      assert Candidates(s.nodes, ROOT) + Passed(0) == Candidates(s.nodes, ROOT);
      IsValid(s);
    }
  }
}
