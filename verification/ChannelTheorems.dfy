/** What holds of the channel manager: of one operation, and of every run of operations. */
module ChannelTheorems {
  import opened Sequences
  import opened ChannelJobs
  import opened ChannelNames
  import opened ChannelSteps
  import opened ChannelTree
  import opened ChannelMoves
  import opened ChannelRuns
  import opened JobStates

  // ---------------------------------------------------------------- notify refines a map of states

  /** After a notification the job is in exactly the place its state names. */
  ghost predicate PlacedByState(s: Sys, ev: Event, j: ChannelJob, s': Sys)
    requires ev.Notify? && ROOT in s.nodes
  {
    && Registered(s'.jobs, j)
    && match ev.state
       case NoState => Nowhere(s'.nodes, j)
       case Known(Done) => Nowhere(s'.nodes, j)
       case Known(Cancelled) => Nowhere(s'.nodes, j)
       case Known(Pending) => IsPendingAt(s'.nodes, j, s'.jobs[j.uuid].eta)
       case Known(Enqueued) => IsRunningAt(Prepared(s, ev), s'.nodes, j)
       case Known(Started) => IsRunningAt(Prepared(s, ev), s'.nodes, j)
       case Known(Failed) => IsFailedAt(s'.nodes, j)
       case Known(WaitDependencies) => if Keeps(s, ev) then SamePlaces(s.nodes, s'.nodes, j) else Nowhere(s'.nodes, j)
       case Unexpected => if Keeps(s, ev) then SamePlaces(s.nodes, s'.nodes, j) else Nowhere(s'.nodes, j)
  }

  lemma ApplyPlaces(nodes: Nodes, jobs: Entries, j: ChannelJob, state: NotifiedState)
    requires TreeOk(nodes, jobs) && j.home in nodes && Registered(jobs, j)
    ensures var nodes' := Apply(nodes, j.home, j, jobs[j.uuid].eta, state);
            match state
            case NoState => Nowhere(nodes', j)
            case Known(Done) => Nowhere(nodes', j)
            case Known(Cancelled) => Nowhere(nodes', j)
            case Known(Pending) => IsPendingAt(nodes', j, jobs[j.uuid].eta)
            case Known(Enqueued) => true
            case Known(Started) => true
            case Known(Failed) => IsFailedAt(nodes', j)
            case Known(WaitDependencies) => nodes' == nodes
            case Unexpected => nodes' == nodes
  {
    match state
    case Known(Pending) => SetPendingPlaces(nodes, jobs, j);
    case Known(Enqueued) =>
    case Known(Started) =>
    case Known(Failed) => SetFailedPlaces(nodes, jobs, j);
    case Known(WaitDependencies) =>
    case Unexpected =>
    case _ => StripRemoves(nodes, jobs, j);
  }

  lemma {:induction false} NotifyPlaces(s: Sys, ev: Event, j: ChannelJob, s': Sys)
    requires Inv(s) && ev.Notify? && Notified(s, ev, j, s')
    ensures PlacedByState(s, ev, j, s')
  {
    var nodes := Prepared(s, ev);
    NotifyReady(s, ev, j, s');
    if ev.state == Known(Enqueued) || ev.state == Known(Started) {
      SetRunningPlaces(nodes, s'.jobs, j);
    } else {
      ApplyPlaces(nodes, s'.jobs, j, ev.state);
      ExtendKeepsTree(s.nodes, s.jobs, ChannelFor(s.nodes.Keys, ev.name));
    }
  }

  /** Before its state is applied, a new job object is nowhere and the tree is in order. */
  lemma NotifyReady(s: Sys, ev: Event, j: ChannelJob, s': Sys)
    requires Inv(s) && ev.Notify? && Notified(s, ev, j, s')
    ensures TreeOk(Prepared(s, ev), s'.jobs) && Registered(s'.jobs, j) && j.home in Prepared(s, ev)
    ensures s'.nodes == Apply(Prepared(s, ev), j.home, j, s'.jobs[j.uuid].eta, ev.state)
    ensures !Keeps(s, ev) ==> Nowhere(Prepared(s, ev), j)
  {
    var nodes := Prepared(s, ev);
    PreparedOk(s, ev);
    if !Keeps(s, ev) {
      NoneOfThese(nodes, s.jobs, {ev.uuid});
      EntryChangeKeepsTree(nodes, s.jobs, s'.jobs, {ev.uuid});
    } else {
      assert EntryOk(s, ev.uuid);
    }
  }

  /** A notification moves no job of another uuid. */
  lemma NotifyMovesNoOther(s: Sys, ev: Event, j: ChannelJob, s': Sys, o: ChannelJob)
    requires Inv(s) && ev.Notify? && Notified(s, ev, j, s') && o.uuid != ev.uuid
    ensures SamePlaces(s.nodes, s'.nodes, o)
  {
    NotifyReady(s, ev, j, s');
    assert OthersStay(Prepared(s, ev), s'.nodes, j) by {
      ApplyKeepsTree(Prepared(s, ev), s'.jobs, j, ev.state);
    }
    SamePlacesAcross(s, ev, j, s'.nodes, o);
  }

  lemma SamePlacesAcross(s: Sys, ev: Event, j: ChannelJob, nodes': Nodes, o: ChannelJob)
    requires Inv(s) && ev.Notify? && o.uuid != ev.uuid && o != j && OthersStay(Prepared(s, ev), nodes', j)
    ensures SamePlaces(s.nodes, nodes', o)
  {
    assert ROOT in s.nodes;
    hide Inv, OthersStay, SamePlaces, Prepared;
    PreparedKeepsOthers(s, ev, o);
    OthersKeepPlaces(Prepared(s, ev), nodes', j, o);
    SamePlacesTwice(s.nodes, Prepared(s, ev), nodes', o);
  }

  lemma SamePlacesTwice(nodes: Nodes, mid: Nodes, nodes': Nodes, o: ChannelJob)
    requires SamePlaces(nodes, mid, o) && SamePlaces(mid, nodes', o)
    ensures SamePlaces(nodes, nodes', o)
  {
    forall p | p in nodes' && p !in nodes ensures o !in Placed(nodes'[p]) {
      assert p in mid ==> o !in Placed(mid[p]) && HeldAlike(mid[p], nodes'[p], o);
    }
  }

  /** After a notification its job object is the only one of its uuid in the tree. */
  lemma NotifyLeavesNoOutdated(s: Sys, ev: Event, j: ChannelJob, s': Sys, o: ChannelJob)
    requires Inv(s) && ev.Notify? && Notified(s, ev, j, s') && o != j && o.uuid == ev.uuid
    ensures Nowhere(s'.nodes, o)
  {
    NotifyKeepsInv(s, ev, j, s');
    assert Registered(s'.jobs, j) by { NotifyReady(s, ev, j, s'); }
    forall p | p in s'.nodes ensures o !in Placed(s'.nodes[p]) {
      assert NodeOk(p, s'.nodes[p], s'.jobs);
    }
  }

  /** Two placed jobs with the same uuid are the same object. */
  lemma OneObjectPerUuid(s: Sys, p: Path, i: ChannelJob, q: Path, j: ChannelJob)
    requires Inv(s)
    requires p in s.nodes && i in Placed(s.nodes[p]) && q in s.nodes && j in Placed(s.nodes[q]) && i.uuid == j.uuid
    ensures i == j
  {
    assert NodeOk(p, s.nodes[p], s.jobs) && NodeOk(q, s.nodes[q], s.jobs);
  }

  // ---------------------------------------------------------------- notifications, on their fields

  /** After a notification the manager knows the job as it was notified, and still by the same object
      if nothing that matters for its place in the queues has changed. */
  lemma NotifyTellsAll(s: Sys, ev: Event, s': Sys)
    requires Inv(s) && ev.Notify? && Next(s, ev, s')
    ensures ev.uuid in s'.jobs
    ensures var e := s'.jobs[ev.uuid];
            && e.eta == ev.eta && e.job.uuid == ev.uuid && e.job.db == ev.db && e.job.seqno == ev.seqno
            && e.job.created == ev.created && e.job.priority == ev.priority
            && e.job.home == ChannelFor(s.nodes.Keys, ev.name) && e.job.home in s'.nodes
    ensures if && ev.uuid in s.jobs && s.jobs[ev.uuid].eta == ev.eta && s.jobs[ev.uuid].job.seqno == ev.seqno
               && s.jobs[ev.uuid].job.priority == ev.priority
               && s.jobs[ev.uuid].job.home == ChannelFor(s.nodes.Keys, ev.name)
            then s'.jobs[ev.uuid].job == s.jobs[ev.uuid].job
            else s'.jobs[ev.uuid].job !in s.made
  {
    var j :| j in s'.made && Notified(s, ev, j, s');
    NotifyReady(s, ev, j, s');
    NotifyKeepsInv(s, ev, j, s');
    assert EntryOk(s', ev.uuid);
  }

  /** And the job is where its state wants it. */
  lemma NotifyPutsThere(s: Sys, ev: Event, s': Sys)
    requires Inv(s) && ev.Notify? && Next(s, ev, s')
    ensures ev.uuid in s'.jobs && s'.jobs[ev.uuid].job.home in s'.nodes
    ensures ev.state == Known(Pending) ==>
              var j := s'.jobs[ev.uuid].job;
              var n := s'.nodes[j.home];
              && (if ev.eta == 0 then j in n.queue.ready else j in n.queue.waiting && n.queue.waiting[j] == ev.eta)
              && j !in n.running && j !in n.failed
              && forall p :: p in s'.nodes && p != j.home ==> j !in Placed(s'.nodes[p])
    ensures ev.state == Known(Enqueued) || ev.state == Known(Started) ==>
              var j := s'.jobs[ev.uuid].job;
              && j in s'.nodes[j.home].running && j !in Jobs(s'.nodes[j.home].queue) && j !in s'.nodes[j.home].failed
              && (j !in s.made ==> forall p :: p in s'.nodes && p <= j.home ==> j in s'.nodes[p].running)
    ensures ev.state == Known(Failed) ==>
              var j := s'.jobs[ev.uuid].job;
              && j in s'.nodes[j.home].failed
              && forall p :: p in s'.nodes && p != j.home ==> j !in Placed(s'.nodes[p])
    ensures ev.state == NoState || ev.state == Known(Done) || ev.state == Known(Cancelled) ==>
              forall p :: p in s'.nodes ==> s'.jobs[ev.uuid].job !in Placed(s'.nodes[p])
  {
    NotifyTellsAll(s, ev, s');
    var j :| j in s'.made && Notified(s, ev, j, s');
    NotifyPlaces(s, ev, j, s');
    NotifyReady(s, ev, j, s');
    assert j == s'.jobs[ev.uuid].job;
  }

  /** A notice that the record is gone takes the job out of all channels, and no other. */
  lemma RemoveJobTakesIt(s: Sys, uuid: string, s': Sys)
    requires Inv(s) && Next(s, RemoveJob(uuid), s')
    ensures s'.jobs == s.jobs - {uuid}
    ensures forall p, j :: p in s'.nodes && j in Placed(s'.nodes[p]) ==> j.uuid != uuid
    ensures forall j :: j in s.made && j.uuid != uuid ==> SamePlaces(s.nodes, s'.nodes, j)
  {
    RemoveJobKeepsInv(s, uuid, s');
    forall p, j | p in s'.nodes && j in Placed(s'.nodes[p]) ensures j.uuid != uuid {
      assert NodeOk(p, s'.nodes[p], s'.jobs);
    }
    if uuid in s.jobs {
      assert EntryOk(s, uuid);
      StripRemoves(s.nodes, s.jobs, s.jobs[uuid].job);
      forall j | j in s.made && j.uuid != uuid ensures SamePlaces(s.nodes, s'.nodes, j) {
        OthersKeepPlaces(s.nodes, s'.nodes, s.jobs[uuid].job, j);
      }
    }
  }

  /** Removing a database takes exactly its jobs. */
  lemma RemoveDbTakesThem(s: Sys, db: string, s': Sys)
    requires Inv(s) && Next(s, RemoveDb(db), s')
    ensures forall u :: u in s'.jobs <==> u in s.jobs && s.jobs[u].job.db != db
    ensures forall u :: u in s'.jobs ==> s'.jobs[u] == s.jobs[u]
    ensures forall p, j :: p in s'.nodes && j in Placed(s'.nodes[p]) ==> j.db != db
    ensures forall j :: j in s.made && j.db != db ==> SamePlaces(s.nodes, s'.nodes, j)
  {
    RemoveDbKeepsInv(s, db, s');
    forall p, j | p in s'.nodes && j in Placed(s'.nodes[p]) ensures j.db != db {
      assert NodeOk(p, s'.nodes[p], s'.jobs);
    }
    hide Inv, SamePlaces;
    forall j | j in s.made && j.db != db ensures SamePlaces(s.nodes, s'.nodes, j) {
      StripAllKeeps(s.nodes, s.jobs, OfDb(s.jobs, db), j);
    }
  }

  lemma StripAllKeeps(nodes: Nodes, jobs: Entries, us: set<string>, j: ChannelJob)
    requires forall u :: u in us && u in jobs ==> jobs[u].job != j
    ensures SamePlaces(nodes, StripAll(nodes, jobs, us), j)
  {
  }

  // ---------------------------------------------------------------- one request for jobs

  /** The jobs that any channel yields come in order, and no job left ready there sorts before them. */
  lemma RunIsSorted(s: Sys, now: nat, flow: Flow, s': Sys, p: Path)
    requires Inv(s) && Next(s, Run(now, flow), s') && p in s.nodes
    ensures p in flow && forall i, k :: 0 <= i < k < |flow[p]| ==> !KeyLess(flow[p][k], flow[p][i])
    ensures forall j, i :: j in s'.nodes[p].queue.ready && 0 <= i < |flow[p]| ==> !KeyLess(j, flow[p][i])
  {
    assert p in flow by { RootIsAbove(s.nodes.Keys, p); }
    ArrivedIsNotPlaced(s.nodes, s.jobs, ROOT, now, s'.nodes, flow, p);
    RoundSorted(s.nodes[p], Arrivals(flow, p), now, s'.nodes[p], flow[p]);
    if flow[p] != [] {
      var last := flow[p][|flow[p]| - 1];
      forall j, i | j in s'.nodes[p].queue.ready && 0 <= i < |flow[p]| ensures !KeyLess(j, flow[p][i]) {
        LessIsWeakOrder(j, 0, flow[p][i], 0, last, 0);
      }
    }
  }

  /** That order is by smaller priority, then by earlier creation, then by smaller sequence. */
  lemma RunIsOrdered(s: Sys, now: nat, flow: Flow, s': Sys, p: Path)
    requires Inv(s) && Next(s, Run(now, flow), s') && p in s.nodes
    ensures p in flow
    ensures forall i, k :: 0 <= i < k < |flow[p]| ==>
              var a, b := flow[p][i], flow[p][k];
              || a.priority < b.priority
              || (a.priority == b.priority && a.created < b.created)
              || (a.priority == b.priority && a.created == b.created && a.seqno <= b.seqno)
    ensures forall b, i :: b in s'.nodes[p].queue.ready && 0 <= i < |flow[p]| ==>
              var a := flow[p][i];
              || a.priority < b.priority
              || (a.priority == b.priority && a.created < b.created)
              || (a.priority == b.priority && a.created == b.created && a.seqno <= b.seqno)
  {
    RunIsSorted(s, now, flow, s', p);
    hide Inv, Next, KeyLess;
    forall i, k | 0 <= i < k < |flow[p]|
      ensures var a, b := flow[p][i], flow[p][k];
              || a.priority < b.priority
              || (a.priority == b.priority && a.created < b.created)
              || (a.priority == b.priority && a.created == b.created && a.seqno <= b.seqno)
    {
      NotAfterOnFields(flow[p][i], flow[p][k]);
    }
    forall b, i | b in s'.nodes[p].queue.ready && 0 <= i < |flow[p]|
      ensures var a := flow[p][i];
              || a.priority < b.priority
              || (a.priority == b.priority && a.created < b.created)
              || (a.priority == b.priority && a.created == b.created && a.seqno <= b.seqno)
    {
      NotAfterOnFields(flow[p][i], b);
    }
  }

  /** What a sequential channel yields is not preceded, etas apart, by the earliest of the jobs that
      still wait for theirs. Another waiting job is overtaken exactly if the first of them by key,
      `m`, precedes the last job yielded. */
  lemma RunWaitsForEarliest(s: Sys, now: nat, flow: Flow, s': Sys, p: Path, e: ChannelJob, m: ChannelJob)
    requires Inv(s) && Next(s, Run(now, flow), s') && p in s.nodes && s.nodes[p].sequential
    requires IsEarliest(e, s'.nodes[p].queue.waiting) && IsFirst(m, s'.nodes[p].queue.waiting.Keys)
    ensures p in flow && forall i :: 0 <= i < |flow[p]| ==> !KeyLess(e, flow[p][i])
    ensures (exists w, i :: w in s'.nodes[p].queue.waiting && 0 <= i < |flow[p]| && KeyLess(w, flow[p][i])) <==>
            flow[p] != [] && KeyLess(m, flow[p][|flow[p]| - 1])
  {
    RootIsAbove(s.nodes.Keys, p);
    ArrivedIsNotPlaced(s.nodes, s.jobs, ROOT, now, s'.nodes, flow, p);
    RoundWaits(s.nodes[p], Arrivals(flow, p), now, s'.nodes[p], flow[p], e);
    RunIsSorted(s, now, flow, s', p);
    hide Inv, Next;
    assert m in s'.nodes[p].queue.waiting;
    forall w, i | w in s'.nodes[p].queue.waiting && 0 <= i < |flow[p]| && KeyLess(w, flow[p][i])
      ensures KeyLess(m, flow[p][|flow[p]| - 1])
    {
      var last := flow[p][|flow[p]| - 1];
      assert i < |flow[p]| - 1 ==> !KeyLess(last, flow[p][i]);
      LessIsWeakOrder(w, 0, flow[p][i], 0, last, 0);
      LessIsWeakOrder(w, 0, last, 0, m, 0);
    }
  }

  lemma RootIsAbove(keys: set<Path>, p: Path)
    requires Rooted(keys) && p in keys
    ensures p in Under(keys, ROOT)
  {
  }

  /** Work conservation: after a request, a channel that no failed job blocks, that is not paused and
      that is unlimited or below its capacity, has no job whose eta has passed, and no ready job either
      unless it is sequential and waits for an earlier job's eta. */
  lemma RunConservesWork(s: Sys, now: nat, flow: Flow, s': Sys, p: Path)
    requires Inv(s) && Next(s, Run(now, flow), s') && p in s.nodes
    ensures Settled(s'.nodes[p], now)
    ensures s'.nodes[p].pause == 0 || now < s'.nodes[p].pause
    ensures var n := s'.nodes[p];
            !(n.sequential && n.failed != {}) && n.pause == 0 && (n.capacity == 0 || |n.running| < n.capacity) ==>
              && (forall j :: j in n.queue.waiting ==> now < n.queue.waiting[j])
              && (!n.sequential ==> n.queue.ready == {})
              && (n.queue.ready != {} ==> EarliestComesFirst(n.queue))
  {
    RootIsAbove(s.nodes.Keys, p);
    ArrivedIsNotPlaced(s.nodes, s.jobs, ROOT, now, s'.nodes, flow, p);
    RoundMoves(s.nodes[p], Arrivals(flow, p), now, s'.nodes[p], flow[p]);
    RoundConserves(s.nodes[p], Arrivals(flow, p), now, s'.nodes[p], flow[p]);
    RoundSettles(s.nodes[p], Arrivals(flow, p), now, s'.nodes[p], flow[p]);
  }

  /** Progress: a job that is ready, or whose eta has passed, is yielded by the root at once, if after
      the request all channels from its own up to the root are not sequential, have no throttle, and
      are unlimited or still below their capacity. */
  lemma {:induction false} RunReachesRoot(s: Sys, now: nat, flow: Flow, s': Sys, p: Path, j: ChannelJob)
    requires Inv(s) && Next(s, Run(now, flow), s') && p in s.nodes
    requires || j in s.nodes[p].queue.ready
             || (j in s.nodes[p].queue.waiting && s.nodes[p].queue.waiting[j] <= now)
             || j in Arrivals(flow, p)
    requires forall q :: q in s'.nodes && q <= p ==>
               && !s'.nodes[q].sequential && s'.nodes[q].throttle == 0
               && (s'.nodes[q].capacity == 0 || |s'.nodes[q].running| < s'.nodes[q].capacity)
    ensures ROOT in flow && j in flow[ROOT]
    decreases |p|
  {
    hide Inv, Next, Arrivals, Parent;
    TakesPart(s, now, flow, s', p);
    assert p <= p;
    ChannelLetsThrough(s, now, flow, s', p, j);
    if p != ROOT {
      ArrivesAbove(s, now, flow, s', p, j);
      RunReachesRoot(s, now, flow, s', Parent(p), j);
    }
  }

  lemma TakesPart(s: Sys, now: nat, flow: Flow, s': Sys, p: Path)
    requires Inv(s) && Next(s, Run(now, flow), s') && p in s.nodes
    ensures s'.nodes.Keys == s.nodes.Keys && p in flow && ROOT in flow
  {
    RootIsAbove(s.nodes.Keys, p);
    RootIsAbove(s.nodes.Keys, ROOT);
  }

  /** What a channel yields arrives in its parent. */
  lemma ArrivesAbove(s: Sys, now: nat, flow: Flow, s': Sys, p: Path, j: ChannelJob)
    requires Inv(s) && Next(s, Run(now, flow), s') && p in s.nodes && p != ROOT && p in flow && j in flow[p]
    ensures Parent(p) in s.nodes && Parent(p) <= p && |Parent(p)| < |p| && j in Arrivals(flow, Parent(p))
    ensures Parent(p) in flow
  {
    hide Round;
    var up := Parent(p);
    assert up in s.nodes;
    RootIsAbove(s.nodes.Keys, up);
    assert p in Kids(flow.Keys, up);
  }

  lemma ChannelLetsThrough(s: Sys, now: nat, flow: Flow, s': Sys, p: Path, j: ChannelJob)
    requires Inv(s) && Next(s, Run(now, flow), s') && p in s.nodes && p in flow
    requires || j in s.nodes[p].queue.ready
             || (j in s.nodes[p].queue.waiting && s.nodes[p].queue.waiting[j] <= now)
             || j in Arrivals(flow, p)
    requires !s'.nodes[p].sequential && s'.nodes[p].throttle == 0
    requires s'.nodes[p].capacity == 0 || |s'.nodes[p].running| < s'.nodes[p].capacity
    ensures j in flow[p]
  {
    ArrivedIsNotPlaced(s.nodes, s.jobs, ROOT, now, s'.nodes, flow, p);
    RoundMoves(s.nodes[p], Arrivals(flow, p), now, s'.nodes[p], flow[p]);
    RoundConserves(s.nodes[p], Arrivals(flow, p), now, s'.nodes[p], flow[p]);
    RoundSettles(s.nodes[p], Arrivals(flow, p), now, s'.nodes[p], flow[p]);
    hide Inv, Next, Round;
    assert j in Jobs(s.nodes[p].queue) + Arrivals(flow, p);
    assert j !in Jobs(s'.nodes[p].queue);
    assert j in AsSet(flow[p]);
  }

  /** A request for jobs fills a limited channel at most up to its capacity, and a sequential one
      starts a job only when none is running or failed. */
  lemma RunRespectsCapacity(s: Sys, now: nat, flow: Flow, s': Sys, p: Path)
    requires Inv(s) && Next(s, Run(now, flow), s') && p in s.nodes
    ensures s.nodes[p].capacity != 0 ==>
        |s'.nodes[p].running| <= |s.nodes[p].running| || |s'.nodes[p].running| <= s.nodes[p].capacity
    ensures p in flow && (flow[p] != [] ==>
              && !(s.nodes[p].sequential && s.nodes[p].failed != {})
              && (s.nodes[p].capacity == 0 || |s.nodes[p].running| < s.nodes[p].capacity))
    ensures p in flow && (s.nodes[p].sequential && s.nodes[p].capacity == 1 && flow[p] != [] ==>
              s.nodes[p].running == {} && s.nodes[p].failed == {} && |flow[p]| == 1)
  {
    RootIsAbove(s.nodes.Keys, p);
    ArrivedIsNotPlaced(s.nodes, s.jobs, ROOT, now, s'.nodes, flow, p);
    RoundCapacity(s.nodes[p], Arrivals(flow, p), now, s'.nodes[p], flow[p]);
  }

  /** No channel yields a job before the eta it was created with. */
  lemma NoEarlyDispatch(s: Sys, now: nat, flow: Flow, s': Sys, p: Path, j: ChannelJob)
    requires Inv(s) && Next(s, Run(now, flow), s') && p in flow && j in flow[p]
    ensures j.born <= now
  {
    YieldHasNoEta(s.nodes, s.jobs, ROOT, now, s'.nodes, flow, p, j);
    RunKeepsInv(s, now, flow, s');
    assert EntryOk(s', j.uuid);
  }

  // ---------------------------------------------------------------- runs

  /** A run of the manager: states and the operations between them. Times never go back. */
  ghost predicate IsRun(states: seq<Sys>, events: seq<Event>) {
    && |states| == |events| + 1
    && Inv(states[0])
    && forall i: nat {:trigger IsStep(states, events, i)} :: i < |events| ==> IsStep(states, events, i)
  }

  ghost predicate IsStep(states: seq<Sys>, events: seq<Event>, i: nat) {
    i < |events| && i + 1 < |states| && Next(states[i], events[i], states[i + 1])
  }

  lemma {:induction false} InvAlways(states: seq<Sys>, events: seq<Event>, i: nat)
    requires IsRun(states, events) && i < |states|
    ensures Inv(states[i])
  {
    if i == 0 {
    } else {
      InvAlways(states, events, i - 1);
      assert IsStep(states, events, i - 1);
      NextKeepsInv(states[i - 1], events[i - 1], states[i]);
    }
  }

  lemma RunTail(states: seq<Sys>, events: seq<Event>)
    requires IsRun(states, events) && events != []
    ensures IsRun(states[1..], events[1..])
  {
    assert IsStep(states, events, 0);
    NextKeepsInv(states[0], events[0], states[1]);
    forall i: nat | i < |events[1..]| ensures IsStep(states[1..], events[1..], i) {
      assert IsStep(states, events, i + 1);
    }
  }

  // ---------------------------------------------------------------- no double dispatch

  /** The job is in the queue of some channel. */
  ghost predicate InSomeQueue(s: Sys, j: ChannelJob) {
    exists p :: p in s.nodes && j in Jobs(s.nodes[p].queue)
  }

  /** No job of this uuid is in a queue. */
  ghost predicate NoneQueued(s: Sys, uuid: string) {
    forall p, j :: p in s.nodes && j in Jobs(s.nodes[p].queue) ==> j.uuid != uuid
  }

  /** A PENDING notification about this uuid. */
  predicate PutsBack(ev: Event, uuid: string) {
    ev.Notify? && ev.uuid == uuid && ev.state == Known(Pending)
  }

  /** What a channel yields was queued before. */
  lemma YieldWasQueuedBefore(s: Sys, now: nat, flow: Flow, s': Sys, k: Path, j: ChannelJob)
    requires Inv(s) && Next(s, Run(now, flow), s') && k in flow && j in flow[k]
    ensures InSomeQueue(s, j)
  {
    YieldWasSomewhere(s.nodes, s.jobs, ROOT, now, s'.nodes, flow, k, j);
    if LostEta(s.nodes, s'.nodes, j) {
      assert j in Jobs(s.nodes[j.home].queue);
    } else {
      var q :| q in s.nodes && j in s.nodes[q].queue.ready;
      assert j in Jobs(s.nodes[q].queue);
    }
  }

  /** While a job runs in the root, no job of its uuid is queued. */
  lemma RunningInRootIsNotQueued(s: Sys, j: ChannelJob)
    requires Inv(s) && j in s.nodes[ROOT].running
    ensures NoneQueued(s, j.uuid)
  {
    assert NodeOk(ROOT, s.nodes[ROOT], s.jobs) && j in Placed(s.nodes[ROOT]);
    forall p, o | p in s.nodes && o in Jobs(s.nodes[p].queue) ensures o.uuid != j.uuid {
      assert NodeOk(p, s.nodes[p], s.jobs) && o in Placed(s.nodes[p]);
      if o == j {
        if p != ROOT && p <= j.home {
          PresentMeansRunningBelow(s.nodes, s.jobs, ROOT, p, j);
        }
      } else if o.uuid == j.uuid {
        OneObjectPerUuid(s, p, o, ROOT, j);
      }
    }
  }

  /** A job the root yields was queued before, and afterwards none of its uuid is. */
  lemma YieldTakesFromQueues(s: Sys, now: nat, flow: Flow, s': Sys, j: ChannelJob)
    requires Inv(s) && Next(s, Run(now, flow), s') && ROOT in flow && j in flow[ROOT]
    ensures !NoneQueued(s, j.uuid) && NoneQueued(s', j.uuid)
  {
    YieldWasQueuedBefore(s, now, flow, s', ROOT, j);
    RunKeepsInv(s, now, flow, s');
    RanMoves(s.nodes, s.jobs, ROOT, now, s'.nodes, flow, ROOT);
    assert j in AsSet(flow[ROOT]);
    RunningInRootIsNotQueued(s', j);
  }

  /** Only a PENDING notification queues a job when none of its uuid is queued. */
  lemma OnlyPendingQueues(s: Sys, ev: Event, s': Sys, uuid: string)
    requires Inv(s) && Next(s, ev, s') && NoneQueued(s, uuid) && !PutsBack(ev, uuid)
    ensures NoneQueued(s', uuid)
  {
    match ev
    case Run(now, flow) =>
      forall p, j | p in s'.nodes && j in Jobs(s'.nodes[p].queue) ensures j.uuid != uuid {
        if j.uuid == uuid {
          NotQueuedByRun(s, now, flow, s', j, p);
        }
      }
    case Notify(_, _, _, _, _, _, _, _) =>
      var i :| i in s'.made && Notified(s, ev, i, s');
      forall p, j | p in s'.nodes && j in Jobs(s'.nodes[p].queue) ensures j.uuid != uuid {
        if j.uuid == uuid {
          NotQueuedByNotify(s, ev, i, s', j, p);
        }
      }
    case _ =>
  }

  lemma NotQueuedByRun(s: Sys, now: nat, flow: Flow, s': Sys, j: ChannelJob, p: Path)
    requires Inv(s) && Next(s, Run(now, flow), s') && NoneQueued(s, j.uuid) && p in s'.nodes
    ensures j !in Jobs(s'.nodes[p].queue)
  {
    RootIsAbove(s.nodes.Keys, p);
    ArrivedIsNotPlaced(s.nodes, s.jobs, ROOT, now, s'.nodes, flow, p);
    RoundConserves(s.nodes[p], Arrivals(flow, p), now, s'.nodes[p], flow[p]);
    if j in Arrivals(flow, p) {
      var k :| k in flow && k in Kids(flow.Keys, p) && j in flow[k];
      YieldWasQueuedBefore(s, now, flow, s', k, j);
    }
  }

  lemma NotQueuedByNotify(s: Sys, ev: Event, i: ChannelJob, s': Sys, j: ChannelJob, p: Path)
    requires Inv(s) && ev.Notify? && Notified(s, ev, i, s') && NoneQueued(s, j.uuid) && !PutsBack(ev, j.uuid)
    requires p in s'.nodes
    ensures j !in Jobs(s'.nodes[p].queue)
  {
    hide Inv, Notified, Prepared;
    assert j in Jobs(s'.nodes[p].queue) ==> j in Placed(s'.nodes[p]);
    if j.uuid != ev.uuid {
      NotifyMovesNoOther(s, ev, i, s', j);
      if p in s.nodes {
        assert HeldAlike(s.nodes[p], s'.nodes[p], j);
      }
    } else if i != j {
      NotifyLeavesNoOutdated(s, ev, i, s', j);
    } else {
      NotifyPlaces(s, ev, j, s');
      PreparedQueuesNone(s, ev, j);
    }
  }

  lemma PreparedQueuesNone(s: Sys, ev: Event, j: ChannelJob)
    requires Inv(s) && ev.Notify? && NoneQueued(s, j.uuid)
    ensures forall p :: p in Prepared(s, ev) ==> j !in Jobs(Prepared(s, ev)[p].queue)
  {
  }

  lemma {:induction false} StaysUnqueued(states: seq<Sys>, events: seq<Event>, lo: nat, hi: nat, uuid: string)
    requires IsRun(states, events) && lo <= hi < |states| && NoneQueued(states[lo], uuid)
    requires forall m :: lo <= m < hi ==> !PutsBack(events[m], uuid)
    ensures NoneQueued(states[hi], uuid)
    decreases hi - lo
  {
    if lo == hi {
    } else {
      InvAlways(states, events, lo);
      assert IsStep(states, events, lo);
      OnlyPendingQueues(states[lo], events[lo], states[lo + 1], uuid);
      StaysUnqueued(states, events, lo + 1, hi, uuid);
    }
  }

  /** The root yields a job of this uuid in step `i`. */
  ghost predicate Dispatches(events: seq<Event>, i: nat, uuid: string) {
    i < |events| && events[i].Run? && ROOT in events[i].flow && exists j :: j in events[i].flow[ROOT] && j.uuid == uuid
  }

  lemma DispatchInRun(states: seq<Sys>, events: seq<Event>, i: nat, uuid: string)
    requires IsRun(states, events) && Dispatches(events, i, uuid)
    ensures !NoneQueued(states[i], uuid) && NoneQueued(states[i + 1], uuid)
  {
    InvAlways(states, events, i);
    assert IsStep(states, events, i);
    var j :| j in events[i].flow[ROOT] && j.uuid == uuid;
    YieldTakesFromQueues(states[i], events[i].now, events[i].flow, states[i + 1], j);
  }

  /** In every run, between two dispatches of jobs of one uuid by the root there is a PENDING
      notification about it, whatever objects stood for the job in between. */
  lemma NoDoubleDispatch(states: seq<Sys>, events: seq<Event>, first: nat, second: nat, uuid: string)
    requires IsRun(states, events) && first < second
    requires Dispatches(events, first, uuid) && Dispatches(events, second, uuid)
    ensures exists m :: first < m < second && PutsBack(events[m], uuid)
  {
    DispatchInRun(states, events, first, uuid);
    DispatchInRun(states, events, second, uuid);
    if forall m :: first < m < second ==> !PutsBack(events[m], uuid) {
      StaysUnqueued(states, events, first + 1, second, uuid);
    }
  }

  // ---------------------------------------------------------------- no dispatch before the eta

  /** Wherever a job of this uuid is, it waits there until this time or longer. */
  ghost predicate WaitsUntil(s: Sys, uuid: string, t: nat) {
    forall p, j :: p in s.nodes && j in Placed(s.nodes[p]) && j.uuid == uuid ==>
      j in s.nodes[p].queue.waiting && t <= s.nodes[p].queue.waiting[j]
  }

  lemma PendingWaits(s: Sys, ev: Event, s': Sys)
    requires Inv(s) && ev.Notify? && Next(s, ev, s') && ev.state == Known(Pending) && ev.eta != 0
    ensures WaitsUntil(s', ev.uuid, ev.eta)
  {
    NotifyPutsThere(s, ev, s');
    NextKeepsInv(s, ev, s');
    forall p, j | p in s'.nodes && j in Placed(s'.nodes[p]) && j.uuid == ev.uuid
      ensures j in s'.nodes[p].queue.waiting && ev.eta <= s'.nodes[p].queue.waiting[j]
    {
      assert NodeOk(p, s'.nodes[p], s'.jobs);
    }
  }

  /** No channel yields it before. */
  lemma NoneYieldedBefore(s: Sys, now: nat, flow: Flow, s': Sys, uuid: string, t: nat, p: Path, j: ChannelJob)
    requires Inv(s) && Next(s, Run(now, flow), s') && WaitsUntil(s, uuid, t) && now < t && p in flow && j in flow[p]
    ensures j.uuid != uuid
  {
    YieldWasSomewhere(s.nodes, s.jobs, ROOT, now, s'.nodes, flow, p, j);
    hide Next, Ran;
    assert forall q :: q in s.nodes ==> NodeOk(q, s.nodes[q], s.jobs);
    assert forall q :: q in s.nodes && j in s.nodes[q].queue.ready ==>
        j in Placed(s.nodes[q]) && Disjoint(s.nodes[q]);
    hide Inv;
    assert LostEta(s.nodes, s'.nodes, j) ==> j in Placed(s.nodes[j.home]);
  }

  lemma NoneArrivesBefore(s: Sys, now: nat, flow: Flow, s': Sys, uuid: string, t: nat, p: Path)
    requires Inv(s) && Next(s, Run(now, flow), s') && WaitsUntil(s, uuid, t) && now < t && p in s.nodes
    ensures forall j :: j in Arrivals(flow, p) ==> j.uuid != uuid
  {
    hide Inv, Next, WaitsUntil;
    forall j | j in Arrivals(flow, p) ensures j.uuid != uuid {
      var k :| k in flow && k in Kids(flow.Keys, p) && j in flow[k];
      NoneYieldedBefore(s, now, flow, s', uuid, t, k, j);
    }
  }

  lemma StaysWaiting(n: Node, arrived: set<ChannelJob>, now: nat, n': Node, out: seq<ChannelJob>, j: ChannelJob)
    requires Round(n, arrived, now, n', out) && Disjoint(n) && arrived !! Placed(n)
    requires n.pause != 0 ==> n.throttle != 0
    requires j in n.queue.waiting && now < n.queue.waiting[j]
    ensures j in n'.queue.waiting && n'.queue.waiting[j] == n.queue.waiting[j]
  {
    RoundMoves(n, arrived, now, n', out);
    if j !in n'.queue.waiting {
      WaitingLeavesWhenDue(n, arrived, now, n', out, j);
    }
  }

  lemma RequestKeepsWaiting(s: Sys, now: nat, flow: Flow, s': Sys, uuid: string, t: nat)
    requires Inv(s) && Next(s, Run(now, flow), s') && WaitsUntil(s, uuid, t) && now < t
    ensures WaitsUntil(s', uuid, t)
  {
    forall p, j | p in s'.nodes && j in Placed(s'.nodes[p]) && j.uuid == uuid
      ensures j in s'.nodes[p].queue.waiting && t <= s'.nodes[p].queue.waiting[j]
    {
      RootIsAbove(s.nodes.Keys, p);
      ArrivedIsNotPlaced(s.nodes, s.jobs, ROOT, now, s'.nodes, flow, p);
      RoundMoves(s.nodes[p], Arrivals(flow, p), now, s'.nodes[p], flow[p]);
      NoneArrivesBefore(s, now, flow, s', uuid, t, p);
      assert j in Placed(s.nodes[p]);
      StaysWaiting(s.nodes[p], Arrivals(flow, p), now, s'.nodes[p], flow[p], j);
    }
  }

  /** Only a notification about the job, or its time, ends that. */
  lemma NextKeepsWaiting(s: Sys, ev: Event, s': Sys, uuid: string, t: nat)
    requires Inv(s) && Next(s, ev, s') && WaitsUntil(s, uuid, t)
    requires (ev.Notify? ==> ev.uuid != uuid) && (ev.Run? ==> ev.now < t)
    ensures WaitsUntil(s', uuid, t)
  {
    match ev
    case Run(now, flow) => RequestKeepsWaiting(s, now, flow, s', uuid, t);
    case Notify(_, _, _, _, _, _, _, _) =>
      var i :| i in s'.made && Notified(s, ev, i, s');
      forall p, j | p in s'.nodes && j in Placed(s'.nodes[p]) && j.uuid == uuid
        ensures j in s'.nodes[p].queue.waiting && t <= s'.nodes[p].queue.waiting[j]
      {
        NotifyMovesNoOther(s, ev, i, s', j);
        assert HeldAlike(s.nodes[p], s'.nodes[p], j);
      }
    case _ => RemovalKeepsWaiting(s, ev, s', uuid, t);
  }

  lemma RemovalKeepsWaiting(s: Sys, ev: Event, s': Sys, uuid: string, t: nat)
    requires Inv(s) && Next(s, ev, s') && WaitsUntil(s, uuid, t) && !ev.Notify? && !ev.Run?
    ensures WaitsUntil(s', uuid, t)
  {
    forall p, j | p in s'.nodes && j in Placed(s'.nodes[p])
      ensures j in Placed(s.nodes[p])
      ensures j in s.nodes[p].queue.waiting ==>
          j in s'.nodes[p].queue.waiting && s'.nodes[p].queue.waiting[j] == s.nodes[p].queue.waiting[j]
    {
      assert NodeOk(p, s.nodes[p], s.jobs);
    }
  }

  lemma {:induction false} WaitsThrough(states: seq<Sys>, events: seq<Event>, i: nat, k: nat, uuid: string, t: nat)
    requires IsRun(states, events) && i <= k < |states| && WaitsUntil(states[i], uuid, t)
    requires forall m :: i <= m < k ==>
        (events[m].Notify? ==> events[m].uuid != uuid) && (events[m].Run? ==> events[m].now < t)
    ensures WaitsUntil(states[k], uuid, t)
    decreases k - i
  {
    if i == k {
    } else {
      InvAlways(states, events, i);
      assert IsStep(states, events, i);
      NextKeepsWaiting(states[i], events[i], states[i + 1], uuid, t);
      WaitsThrough(states, events, i + 1, k, uuid, t);
    }
  }

  lemma ClockMoves(s: Sys, ev: Event, s': Sys)
    requires Next(s, ev, s')
    ensures s.clock <= s'.clock && (ev.Run? ==> s.clock <= ev.now == s'.clock)
  {
  }

  lemma {:induction false} ClockGoesOn(states: seq<Sys>, events: seq<Event>, m: nat, k: nat)
    requires IsRun(states, events) && m <= k < |states|
    ensures states[m].clock <= states[k].clock
    decreases k - m
  {
    hide Inv, Next;
    if m == k {
    } else {
      assert IsStep(states, events, m);
      ClockMoves(states[m], events[m], states[m + 1]);
      ClockGoesOn(states, events, m + 1, k);
    }
  }

  /** In every run: when a job is notified as pending with an eta, no channel yields a job of its uuid
      in any request before that eta, unless the job is notified again in between. */
  lemma NothingBeforeEta(states: seq<Sys>, events: seq<Event>, i: nat, k: nat, p: Path, j: ChannelJob)
    requires IsRun(states, events) && i < k < |events|
    requires events[i].Notify? && events[i].state == Known(Pending)
    requires events[k].Run? && events[k].now < events[i].eta
    requires forall m :: i < m < k && events[m].Notify? ==> events[m].uuid != events[i].uuid
    requires p in events[k].flow && j in events[k].flow[p]
    ensures j.uuid != events[i].uuid
  {
    hide Inv, Next, WaitsUntil;
    InvAlways(states, events, i);
    InvAlways(states, events, k);
    assert IsStep(states, events, i) && IsStep(states, events, k);
    PendingWaits(states[i], events[i], states[i + 1]);
    ClockMoves(states[k], events[k], states[k + 1]);
    forall m | i < m < k && events[m].Run? ensures events[m].now < events[i].eta {
      assert IsStep(states, events, m);
      ClockMoves(states[m], events[m], states[m + 1]);
      ClockGoesOn(states, events, m + 1, k);
    }
    WaitsThrough(states, events, i + 1, k, events[i].uuid, events[i].eta);
    NoneYieldedBefore(states[k], events[k].now, events[k].flow, states[k + 1], events[i].uuid, events[i].eta, p, j);
  }
}
