/** The channel manager as a transition system: what every operation does to the whole tree, the
    invariant all of them keep, and what then holds of every run. */
module ChannelRuns {
  import opened Sequences
  import opened ChannelJobs
  import opened ChannelNames
  import opened ChannelSteps
  import opened ChannelTree
  import opened ChannelMoves
  import opened JobStates

  /** The state column of a notification; it can be empty or hold something unexpected. */
  datatype NotifiedState = NoState | Known(state: JobState) | Unexpected

  /** `made` are the job objects created so far, `clock` the latest time jobs were asked for. */
  datatype Sys = Sys(nodes: Nodes, jobs: Entries, made: set<ChannelJob>, clock: nat)

  datatype Event =
    | Notify(name: string, db: string, uuid: string, seqno: int, created: int, priority: int, eta: nat,
        state: NotifiedState)
    | RemoveJob(uuid: string)
    | RemoveDb(db: string)
    | Forget(uuids: set<string>)  // the weak map drops jobs that nothing else holds
    | Run(now: nat, flow: Flow)

  // ---------------------------------------------------------------- notify

  function ChannelFor(keys: set<Path>, name: string): (c: Path)
    requires ROOT in keys
    ensures ROOT <= c
  {
    Resolve(keys, name, false, true).value
  }

  /** None of the properties that influence scheduling has changed. */
  predicate Unchanged(e: Entry, ev: Event, c: Path)
    requires ev.Notify?
  {
    ev.seqno == e.job.seqno && ev.priority == e.job.priority && ev.eta == e.eta && c == e.job.home
  }

  ghost predicate IsJobOf(j: ChannelJob, ev: Event, c: Path)
    requires ev.Notify?
  {
    && j.db == ev.db && j.home == c && j.uuid == ev.uuid && j.seqno == ev.seqno
    && j.created == ev.created && j.priority == ev.priority && j.born == ev.eta
  }

  function Apply(nodes: Nodes, c: Path, j: ChannelJob, eta: nat, state: NotifiedState): Nodes
    requires Rooted(nodes.Keys) && c in nodes
  {
    match state
    case NoState => Strip(nodes, c, j)
    case Known(Done) => Strip(nodes, c, j)
    case Known(Cancelled) => Strip(nodes, c, j)
    case Known(Pending) => SetPending(nodes, c, j, eta)
    case Known(Enqueued) => SetRunning(nodes, c, j)
    case Known(Started) => SetRunning(nodes, c, j)
    case Known(Failed) => SetFailed(nodes, c, j)
    case Known(WaitDependencies) => nodes
    case Unexpected => nodes
  }

  /** The notification is about the job object already known, which is kept. */
  predicate Keeps(s: Sys, ev: Event)
    requires ev.Notify? && ROOT in s.nodes
  {
    ev.uuid in s.jobs && Unchanged(s.jobs[ev.uuid], ev, ChannelFor(s.nodes.Keys, ev.name))
  }

  /** The tree when the channel of the notification exists and an outdated job is out of the way. */
  function Prepared(s: Sys, ev: Event): Nodes
    requires ev.Notify? && ROOT in s.nodes
  {
    var nodes := Extend(s.nodes, ChannelFor(s.nodes.Keys, ev.name));
    if ev.uuid in s.jobs && !Keeps(s, ev) then Strip(nodes, s.jobs[ev.uuid].job.home, s.jobs[ev.uuid].job) else nodes
  }

  /** `notify`, where `j` is the job object that the notification ends up with. */
  ghost predicate Notified(s: Sys, ev: Event, j: ChannelJob, s': Sys)
    requires ev.Notify? && Rooted(s.nodes.Keys)
  {
    var c := ChannelFor(s.nodes.Keys, ev.name);
    && (ev.uuid in s.jobs ==> s.jobs[ev.uuid].job.db == ev.db && s.jobs[ev.uuid].job.created == ev.created)
    && Rooted(Prepared(s, ev).Keys) && c in Prepared(s, ev)
    && if Keeps(s, ev) then
         && j == s.jobs[ev.uuid].job
         && s' == s.(nodes := Apply(Prepared(s, ev), c, j, s.jobs[ev.uuid].eta, ev.state))
       else
         && j !in s.made && IsJobOf(j, ev, c)
         && s'.nodes == Apply(Prepared(s, ev), c, j, ev.eta, ev.state)
         && s'.jobs == s.jobs[ev.uuid := Entry(j, ev.eta)] && s'.made == s.made + {j} && s'.clock == s.clock
  }

  // ---------------------------------------------------------------- the other operations

  function StripAll(nodes: Nodes, jobs: Entries, us: set<string>): Nodes {
    map p | p in nodes ::
      var gone := set u | u in us && u in jobs && p <= jobs[u].job.home :: jobs[u].job;
      var n := nodes[p];
      n.(queue := Queue(n.queue.ready - gone, n.queue.waiting - gone),
         running := n.running - gone, failed := n.failed - gone)
  }

  function OfDb(jobs: Entries, db: string): set<string> {
    set u | u in jobs && jobs[u].job.db == db
  }

  ghost predicate Next(s: Sys, ev: Event, s': Sys) {
    && Rooted(s.nodes.Keys)
    && match ev
       case Notify(_, _, _, _, _, _, _, _) => exists j :: j in s'.made && Notified(s, ev, j, s')
       case RemoveJob(u) =>
         s' == if u !in s.jobs then s
               else s.(nodes := Strip(s.nodes, s.jobs[u].job.home, s.jobs[u].job), jobs := s.jobs - {u})
       case RemoveDb(db) =>
         s' == s.(nodes := StripAll(s.nodes, s.jobs, OfDb(s.jobs, db)), jobs := s.jobs - OfDb(s.jobs, db))
       case Forget(us) =>
         && (forall u :: u in us && u in s.jobs ==> Nowhere(s.nodes, s.jobs[u].job))
         && s' == s.(jobs := s.jobs - us)
       case Run(now, flow) =>
         && s.clock <= now && Ran(s.nodes, ROOT, now, s'.nodes, flow)
         && s' == Sys(s'.nodes, EtasAfter(s.jobs, s.nodes, s'.nodes), s.made, now)
  }

  // ---------------------------------------------------------------- the invariant

  ghost predicate EntryOk(s: Sys, u: string)
    requires u in s.jobs
  {
    var e := s.jobs[u];
    && e.job.uuid == u && e.job in s.made && e.job.home in s.nodes
    && (e.eta == 0 || e.eta == e.job.born)
    && (e.eta == 0 ==> e.job.born <= s.clock)
  }

  ghost predicate Inv(s: Sys) {
    && TreeOk(s.nodes, s.jobs)
    && forall u :: u in s.jobs ==> EntryOk(s, u)
  }

  /** The manager starts with a configured tree in which no channel holds a job. */
  ghost predicate Initial(s: Sys) {
    && Rooted(s.nodes.Keys) && s.jobs == map[] && s.made == {} && s.clock == 0
    && forall p :: p in s.nodes ==> Placed(s.nodes[p]) == {} && s.nodes[p].pause == 0
  }

  lemma InitialOk(s: Sys)
    requires Initial(s)
    ensures Inv(s)
  {
  }

  lemma ApplyKeepsTree(nodes: Nodes, jobs: Entries, j: ChannelJob, state: NotifiedState)
    requires TreeOk(nodes, jobs) && j.home in nodes && Registered(jobs, j)
    ensures TreeOk(Apply(nodes, j.home, j, jobs[j.uuid].eta, state), jobs)
    ensures OthersStay(nodes, Apply(nodes, j.home, j, jobs[j.uuid].eta, state), j)
  {
    match state
    case Known(Pending) => SetPendingPlaces(nodes, jobs, j);
    case Known(Enqueued) => ApplyRunningKeepsTree(nodes, jobs, j, state);
    case Known(Started) => ApplyRunningKeepsTree(nodes, jobs, j, state);
    case Known(Failed) => SetFailedPlaces(nodes, jobs, j);
    case Known(WaitDependencies) =>
    case Unexpected =>
    case _ => StripRemoves(nodes, jobs, j);
  }

  lemma ApplyRunningKeepsTree(nodes: Nodes, jobs: Entries, j: ChannelJob, state: NotifiedState)
    requires TreeOk(nodes, jobs) && j.home in nodes && Registered(jobs, j)
    requires state == Known(Enqueued) || state == Known(Started)
    ensures TreeOk(Apply(nodes, j.home, j, jobs[j.uuid].eta, state), jobs)
    ensures OthersStay(nodes, Apply(nodes, j.home, j, jobs[j.uuid].eta, state), j)
  {
    SetRunningPlaces(nodes, jobs, j);
  }

  /** An outdated job is taken out of the tree before the notification is applied. */
  lemma PreparedOk(s: Sys, ev: Event)
    requires Inv(s) && ev.Notify?
    ensures TreeOk(Prepared(s, ev), s.jobs)
    ensures Prepared(s, ev).Keys == s.nodes.Keys + Prefixes(ChannelFor(s.nodes.Keys, ev.name))
    ensures ChannelFor(s.nodes.Keys, ev.name) in Prepared(s, ev)
    ensures !Keeps(s, ev) && ev.uuid in s.jobs ==> Nowhere(Prepared(s, ev), s.jobs[ev.uuid].job)
  {
    var c := ChannelFor(s.nodes.Keys, ev.name);
    ExtendKeepsTree(s.nodes, s.jobs, c);
    if ev.uuid in s.jobs && !Keeps(s, ev) {
      StripRemoves(Extend(s.nodes, c), s.jobs, s.jobs[ev.uuid].job);
    }
  }

  /** All jobs of other uuids stay where they are. */
  lemma PreparedKeepsOthers(s: Sys, ev: Event, o: ChannelJob)
    requires Inv(s) && ev.Notify? && o.uuid != ev.uuid
    ensures SamePlaces(s.nodes, Prepared(s, ev), o)
  {
    var c := ChannelFor(s.nodes.Keys, ev.name);
    var nodes := Extend(s.nodes, c);
    ExtendKeepsTree(s.nodes, s.jobs, c);
    if ev.uuid in s.jobs && !Keeps(s, ev) {
      assert EntryOk(s, ev.uuid);
      StripRemoves(nodes, s.jobs, s.jobs[ev.uuid].job);
      OthersKeepPlaces(nodes, Prepared(s, ev), s.jobs[ev.uuid].job, o);
    }
  }

  lemma OthersKeepPlaces(nodes: Nodes, nodes': Nodes, j: ChannelJob, o: ChannelJob)
    requires OthersStay(nodes, nodes', j) && o != j
    ensures SamePlaces(nodes, nodes', o)
  {
    forall p | p in nodes ensures HeldAlike(nodes[p], nodes'[p], o) {
      WithoutKeepsOthers(nodes[p], nodes'[p], j, o);
    }
  }

  ghost predicate HeldAlike(n: Node, n': Node, o: ChannelJob) {
    && (o in n'.queue.ready <==> o in n.queue.ready)
    && (o in n'.queue.waiting <==> o in n.queue.waiting)
    && (o in n.queue.waiting ==> n'.queue.waiting[o] == n.queue.waiting[o])
    && (o in n'.running <==> o in n.running)
    && (o in n'.failed <==> o in n.failed)
  }

  /** A job is held alike by every channel, and by none that is new. */
  ghost predicate SamePlaces(nodes: Nodes, nodes': Nodes, o: ChannelJob) {
    && nodes.Keys <= nodes'.Keys
    && (forall p :: p in nodes ==> HeldAlike(nodes[p], nodes'[p], o))
    && (forall p :: p in nodes' && p !in nodes ==> o !in Placed(nodes'[p]))
  }

  lemma NotifyKeepsInv(s: Sys, ev: Event, j: ChannelJob, s': Sys)
    requires Inv(s) && ev.Notify? && Notified(s, ev, j, s')
    ensures Inv(s')
  {
    var c := ChannelFor(s.nodes.Keys, ev.name);
    var nodes := Prepared(s, ev);
    PreparedOk(s, ev);
    if !Keeps(s, ev) {
      NoneOfThese(nodes, s.jobs, {ev.uuid});
      EntryChangeKeepsTree(nodes, s.jobs, s'.jobs, {ev.uuid});
    }
    assert Registered(s'.jobs, j);
    ApplyKeepsTree(nodes, s'.jobs, j, ev.state);
    assert s'.nodes.Keys == nodes.Keys;
    forall u | u in s'.jobs ensures EntryOk(s', u) {
      if u != ev.uuid || Keeps(s, ev) {
        assert EntryOk(s, u);
      }
    }
  }

  lemma RemoveJobKeepsInv(s: Sys, u: string, s': Sys)
    requires Inv(s) && Next(s, RemoveJob(u), s')
    ensures Inv(s')
  {
    if u in s.jobs {
      StripRemoves(s.nodes, s.jobs, s.jobs[u].job);
      NoneOfThese(s'.nodes, s.jobs, {u});
      EntryChangeKeepsTree(s'.nodes, s.jobs, s'.jobs, {u});
      EntriesStayOk(s, s');
    }
  }

  lemma ForgetKeepsInv(s: Sys, us: set<string>, s': Sys)
    requires Inv(s) && Next(s, Forget(us), s')
    ensures Inv(s')
  {
    NoneOfThese(s.nodes, s.jobs, us);
    EntryChangeKeepsTree(s.nodes, s.jobs, s'.jobs, us);
    EntriesStayOk(s, s');
  }

  lemma EntriesStayOk(s: Sys, s': Sys)
    requires Inv(s) && s'.made == s.made && s'.clock == s.clock && s'.nodes.Keys == s.nodes.Keys
    requires forall u :: u in s'.jobs ==> u in s.jobs && s'.jobs[u] == s.jobs[u]
    ensures forall u :: u in s'.jobs ==> EntryOk(s', u)
  {
    forall u | u in s'.jobs ensures EntryOk(s', u) {
      assert EntryOk(s, u);
    }
  }

  lemma NoneOfThese(nodes: Nodes, jobs: Entries, us: set<string>)
    requires TreeOk(nodes, jobs)
    requires forall u :: u in us && u in jobs ==> Nowhere(nodes, jobs[u].job)
    ensures forall p, o :: p in nodes && o in Placed(nodes[p]) ==> o.uuid !in us
  {
    forall p, o | p in nodes && o in Placed(nodes[p]) ensures o.uuid !in us {
      assert NodeOk(p, nodes[p], jobs);
    }
  }

  /** Removing a database's jobs one by one is removing them all. */
  lemma {:induction false} StripAllRemoves(nodes: Nodes, jobs: Entries, us: set<string>)
    requires TreeOk(nodes, jobs) && us <= jobs.Keys
    ensures TreeOk(StripAll(nodes, jobs, us), jobs)
    ensures forall u :: u in us ==> Nowhere(StripAll(nodes, jobs, us), jobs[u].job)
    decreases us
  {
    if us == {} {
      StripNone(nodes, jobs);
    } else {
      var u :| u in us;
      var rest := StripAll(nodes, jobs, us - {u});
      StripAllRemoves(nodes, jobs, us - {u});
      StripRemoves(rest, jobs, jobs[u].job);
      StripOneMore(nodes, jobs, us, u);
      forall v | v in us ensures Nowhere(StripAll(nodes, jobs, us), jobs[v].job) {
        if v != u {
          StripOnlyTakes(rest, jobs[u].job, jobs[v].job);
        }
      }
    }
  }

  lemma StripOnlyTakes(nodes: Nodes, j: ChannelJob, o: ChannelJob)
    requires Nowhere(nodes, o)
    ensures Nowhere(Strip(nodes, j.home, j), o)
  {
    forall p | p in nodes ensures o !in Placed(Strip(nodes, j.home, j)[p]) {
      assert o !in Placed(nodes[p]);
    }
  }

  lemma StripNone(nodes: Nodes, jobs: Entries)
    ensures StripAll(nodes, jobs, {}) == nodes
  {
    forall p | p in nodes ensures StripAll(nodes, jobs, {})[p] == nodes[p] {
      assert nodes[p].queue.waiting - {} == nodes[p].queue.waiting;
    }
  }

  lemma StripOneMore(nodes: Nodes, jobs: Entries, us: set<string>, u: string)
    requires u in us && us <= jobs.Keys
    ensures StripAll(nodes, jobs, us) == Strip(StripAll(nodes, jobs, us - {u}), jobs[u].job.home, jobs[u].job)
  {
    var j := jobs[u].job;
    var rest := StripAll(nodes, jobs, us - {u});
    forall p | p in nodes
      ensures StripAll(nodes, jobs, us)[p] == Strip(rest, j.home, j)[p]
    {
      var gone := set v | v in us && v in jobs && p <= jobs[v].job.home :: jobs[v].job;
      var some := set v | v in us - {u} && v in jobs && p <= jobs[v].job.home :: jobs[v].job;
      assert gone == if p <= j.home then some + {j} else some;
      assert nodes[p].queue.waiting - (some + {j}) == (nodes[p].queue.waiting - some) - {j};
    }
  }

  lemma RemoveDbKeepsInv(s: Sys, db: string, s': Sys)
    requires Inv(s) && Next(s, RemoveDb(db), s')
    ensures Inv(s')
  {
    var us := OfDb(s.jobs, db);
    StripAllRemoves(s.nodes, s.jobs, us);
    NoneOfThese(s'.nodes, s.jobs, us);
    EntryChangeKeepsTree(s'.nodes, s.jobs, s'.jobs, us);
    EntriesStayOk(s, s');
  }

  lemma RunKeepsInv(s: Sys, now: nat, flow: Flow, s': Sys)
    requires Inv(s) && Next(s, Run(now, flow), s')
    ensures Inv(s')
  {
    RanKeepsTree(s.nodes, s.jobs, ROOT, now, s'.nodes, flow);
    forall u | u in s'.jobs ensures EntryOk(s', u) {
      assert EntryOk(s, u);
      var j := s.jobs[u].job;
      if LostEta(s.nodes, s'.nodes, j) {
        LostEtaWasDue(s, now, flow, s', j);
      }
    }
  }

  /** A job loses its eta only when that eta is over. */
  lemma LostEtaWasDue(s: Sys, now: nat, flow: Flow, s': Sys, j: ChannelJob)
    requires Inv(s) && Next(s, Run(now, flow), s') && LostEta(s.nodes, s'.nodes, j)
    ensures Registered(s.jobs, j) && j.born <= now
  {
    var p := j.home;
    var n, n', arrived := s.nodes[p], s'.nodes[p], Arrivals(flow, p);
    assert NodeOk(p, n, s.jobs);
    assert EntryOk(s, j.uuid);
    ArrivedIsNotPlaced(s.nodes, s.jobs, ROOT, now, s'.nodes, flow, p);
    WaitingLeavesWhenDue(n, arrived, now, n', flow[p], j);
  }

  lemma WaitingLeavesWhenDue(n: Node, arrived: set<ChannelJob>, now: nat, n': Node, out: seq<ChannelJob>, j: ChannelJob)
    requires Round(n, arrived, now, n', out) && Disjoint(n) && arrived !! Placed(n)
    requires n.pause != 0 ==> n.throttle != 0
    requires j in n.queue.waiting && j !in n'.queue.waiting
    ensures n.queue.waiting[j] <= now
  {
    RoundMoves(n, arrived, now, n', out);
    assert j in Placed(n');
    assert j in n'.queue.ready + AsSet(out);
  }

  /** Every operation keeps the invariant: the placement of jobs in the tree, one live object per
      uuid, and etas that are cleared only once they are over. */
  lemma NextKeepsInv(s: Sys, ev: Event, s': Sys)
    requires Inv(s) && Next(s, ev, s')
    ensures Inv(s')
  {
    match ev
    case Notify(_, _, _, _, _, _, _, _) =>
      var j :| j in s'.made && Notified(s, ev, j, s');
      NotifyKeepsInv(s, ev, j, s');
    case RemoveDb(db) => RemoveDbKeepsInv(s, db, s');
    case Run(now, flow) => RunKeepsInv(s, now, flow, s');
    case RemoveJob(u) => RemoveJobKeepsInv(s, u, s');
    case Forget(us) => ForgetKeepsInv(s, us, s');
  }
}
