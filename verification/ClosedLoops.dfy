/** The runner and the database together: whatever workers, users and other programs do to the stored
    jobs, and whenever notifications are taken in. A notification says only which job has changed;
    the runner then reads how it is stored now. */
module ClosedLoops {
  import opened Sequences
  import opened JobStates
  import opened ChannelJobs
  import opened ChannelNames
  import opened ChannelSteps
  import opened ChannelTree
  import opened ChannelMoves
  import opened ChannelRuns
  import opened ChannelTheorems
  import opened ChannelLimits
  import opened Notices
  import Protocol

  /** What the runner reads of a stored job. */
  datatype StoredJob = StoredJob(state: JobState, db: string, channel: string, seqno: int, created: int, priority: int,
                                 eta: nat)

  /** The channel manager, the stored jobs, those of which notifications are still to be taken in, and
      the jobs that the root has yielded and that are still to be stored as enqueued. */
  datatype Loop = Loop(manager: Sys, rows: map<string, StoredJob>, unread: set<string>, yielded: seq<ChannelJob>)

  datatype Turn =
    | Elsewhere                   // anyone else changes stored jobs
    | Read(uuid: string)          // one turn of `process_notifications`
    | Ask(now: nat, flow: Flow)   // `run_jobs` asks for jobs,
    | Enqueue                     // and stores one after the other as enqueued
    | Collect(uuids: set<string>)

  /** Enqueued or started. */
  predicate IsActive(state: JobState) {
    state == Enqueued || state == Started
  }

  /** Only the runner enqueues, and only enqueued jobs are started. */
  ghost predicate NoneActivated(rows: map<string, StoredJob>, rows': map<string, StoredJob>) {
    forall u :: u in rows' && IsActive(rows'[u].state) ==> u in rows && IsActive(rows[u].state)
  }

  function Told(uuid: string, r: StoredJob): Event {
    EventOf(r.db, uuid, Stored(r.channel, r.seqno, r.created, r.priority, r.eta, Known(r.state)))
  }

  function EventFor(rows: map<string, StoredJob>, uuid: string): Event {
    if uuid in rows then Told(uuid, rows[uuid]) else EventOf("", uuid, Gone)
  }

  ghost predicate Turns(l: Loop, turn: Turn, l': Loop) {
    match turn
    case Elsewhere =>
      && NoneActivated(l.rows, l'.rows) && l.unread <= l'.unread
      && (forall u :: u in l'.rows && !(u in l.rows && l'.rows[u] == l.rows[u]) ==> u in l'.unread)
      && l'.manager == l.manager && l'.yielded == l.yielded
    case Read(u) =>
      && l.yielded == [] && Next(l.manager, EventFor(l.rows, u), l'.manager)
      && l' == l.(manager := l'.manager, unread := l.unread - {u})
    case Ask(now, flow) =>
      && l.yielded == [] && Next(l.manager, Run(now, flow), l'.manager) && ROOT in flow
      && l' == l.(manager := l'.manager, yielded := flow[ROOT])
    case Enqueue =>
      && l.yielded != []
      && var u := l.yielded[0].uuid;
         l' == l.(rows := if u in l.rows then l.rows[u := l.rows[u].(state := Enqueued)] else l.rows,
                  unread := l.unread + {u}, yielded := l.yielded[1..])
    case Collect(us) =>
      Next(l.manager, Forget(us), l'.manager) && l' == l.(manager := l'.manager)
  }

  /** After reading, the manager knows the job as it is stored. */
  lemma ReadTellsAll(l: Loop, u: string, l': Loop)
    requires Inv(l.manager) && Turns(l, Read(u), l') && u in l.rows
    ensures u in l'.manager.jobs
    ensures var e, r := l'.manager.jobs[u], l.rows[u];
            && e.eta == r.eta && e.job.db == r.db && e.job.seqno == r.seqno && e.job.created == r.created
            && e.job.priority == r.priority && e.job.home == ChannelFor(l.manager.nodes.Keys, r.channel)
  {
    NotifyTellsAll(l.manager, Told(u, l.rows[u]), l'.manager);
  }

  /** Every step of the protocol but that of the runner is something done elsewhere. */
  lemma StepsActivateNone(s: Protocol.Db, step: Protocol.Step, s': Protocol.Db, u: string)
    requires Protocol.Next(s, step, s') && !step.SetEnqueued?
    requires u in s'.rows && IsActive(s'.rows[u].state)
    ensures u in s.rows && IsActive(s.rows[u].state)
  {
  }

  /** The stored states are those of the protocol's rows. */
  ghost predicate HasStates(rows: map<string, StoredJob>, others: map<string, Protocol.Row>) {
    rows.Keys == others.Keys && forall u :: u in rows ==> rows[u].state == others[u].state
  }

  /** And storing a yielded job as enqueued is that step of the runner, of which it is notified. */
  lemma EnqueueIsStep(l: Loop, l': Loop, s: Protocol.Db) returns (s': Protocol.Db)
    requires Turns(l, Enqueue, l') && HasStates(l.rows, s.rows) && l.yielded[0].uuid in l.rows
    ensures Protocol.Next(s, Protocol.SetEnqueued(l.yielded[0].uuid), s') && HasStates(l'.rows, s'.rows)
    ensures l.yielded[0].uuid in l'.unread && l.yielded == [l.yielded[0]] + l'.yielded
  {
    s' := s.(rows := Protocol.With(s.rows, l.yielded[0].uuid, Enqueued));
  }

  // ---------------------------------------------------------------- the invariant

  /** The job object of this uuid runs in the root. */
  ghost predicate RunsInRoot(s: Sys, uuid: string) {
    uuid in s.jobs && ROOT in s.nodes && s.jobs[uuid].job in s.nodes[ROOT].running
  }

  /** A pending job of which nothing is unread is in a queue, or has just been yielded. */
  ghost predicate IsKnown(l: Loop, uuid: string) {
    !NoneQueued(l.manager, uuid) || exists j :: j in l.yielded && j.uuid == uuid
  }

  ghost predicate LoopOk(l: Loop) {
    && Inv(l.manager) && Fits(l.manager.nodes[ROOT])
    && (forall u :: u in l.rows && IsActive(l.rows[u].state) ==> RunsInRoot(l.manager, u))
    && (forall j :: j in l.yielded ==> RunsInRoot(l.manager, j.uuid))
    && (forall u :: u in l.rows && l.rows[u].state == Pending && u !in l.unread ==> IsKnown(l, u))
  }

  /** The manager starts empty, with all stored jobs unread and none of them active. */
  lemma StartIsOk(l: Loop)
    requires Initial(l.manager) && l.rows.Keys <= l.unread && l.yielded == []
    requires forall u :: u in l.rows ==> !IsActive(l.rows[u].state)
    ensures LoopOk(l)
  {
    assert Placed(l.manager.nodes[ROOT]) == {};
    assert l.manager.nodes[ROOT].running == {};
  }

  // ---------------------------------------------------------------- reading

  lemma ReadKeepsOther(s: Sys, ev: Event, s': Sys, u: string)
    requires Inv(s) && ev.Notify? && Next(s, ev, s') && RunsInRoot(s, u) && u != ev.uuid
    ensures RunsInRoot(s', u)
  {
    var j :| j in s'.made && Notified(s, ev, j, s');
    assert EntryOk(s, u);
    NotifyMovesNoOther(s, ev, j, s', s.jobs[u].job);
    assert HeldAlike(s.nodes[ROOT], s'.nodes[ROOT], s.jobs[u].job);
  }

  /** A job that is still active is marked running again, all the way up. */
  lemma ReadKeepsActive(s: Sys, ev: Event, s': Sys)
    requires Inv(s) && ev.Notify? && Next(s, ev, s') && RunsInRoot(s, ev.uuid)
    requires ev.state == Known(Enqueued) || ev.state == Known(Started)
    ensures RunsInRoot(s', ev.uuid)
  {
    var j :| j in s'.made && Notified(s, ev, j, s');
    NotifyRuns(s, ev, j, s', ROOT);
    NotifyReady(s, ev, j, s');
    PreparedNode(s, ev, ROOT);
    assert Keeps(s, ev) ==> j == s.jobs[ev.uuid].job;
    assert ROOT <= j.home;
  }

  lemma ReadKeepsFit(s: Sys, ev: Event, s': Sys)
    requires Inv(s) && ev.Notify? && Next(s, ev, s') && Fits(s.nodes[ROOT])
    requires ev.state == Known(Enqueued) || ev.state == Known(Started) ==> RunsInRoot(s, ev.uuid)
    ensures ROOT in s'.nodes && Fits(s'.nodes[ROOT])
  {
    var j :| j in s'.made && Notified(s, ev, j, s');
    SettingsKept(s, ev, s', ROOT);
    if ev.state == Known(Enqueued) || ev.state == Known(Started) {
      assert RunsAlready(s, ev, ROOT) by {
        assert EntryOk(s, ev.uuid) && NodeOk(ROOT, s.nodes[ROOT], s.jobs);
        assert s.jobs[ev.uuid].job in Placed(s.nodes[ROOT]);
      }
      ToldToRunFitsExactlyIf(s, ev, j, s', ROOT);
    } else {
      NotifyFits(s, ev, j, s', ROOT);
    }
  }

  lemma ReadKeepsQueued(s: Sys, ev: Event, s': Sys, u: string)
    requires Inv(s) && ev.Notify? && Next(s, ev, s') && u != ev.uuid && !NoneQueued(s, u)
    ensures !NoneQueued(s', u)
  {
    var j :| j in s'.made && Notified(s, ev, j, s');
    var p, o :| p in s.nodes && o in Jobs(s.nodes[p].queue) && o.uuid == u;
    NotifyMovesNoOther(s, ev, j, s', o);
    assert HeldAlike(s.nodes[p], s'.nodes[p], o);
  }

  lemma ReadQueuesPending(s: Sys, ev: Event, s': Sys)
    requires Inv(s) && ev.Notify? && Next(s, ev, s') && ev.state == Known(Pending)
    ensures !NoneQueued(s', ev.uuid)
  {
    var j :| j in s'.made && Notified(s, ev, j, s');
    NotifyPlaces(s, ev, j, s');
    NotifyReady(s, ev, j, s');
    assert j in Jobs(s'.nodes[j.home].queue) && j.uuid == ev.uuid;
  }

  lemma ReadStored(l: Loop, u: string, l': Loop)
    requires LoopOk(l) && Turns(l, Read(u), l') && u in l.rows
    ensures LoopOk(l')
  {
    var s, ev, s' := l.manager, Told(u, l.rows[u]), l'.manager;
    NextKeepsInv(s, ev, s');
    ReadKeepsFit(s, ev, s');
    forall v | v in l'.rows && IsActive(l'.rows[v].state) ensures RunsInRoot(s', v) {
      if v == u {
        ReadKeepsActive(s, ev, s');
      } else {
        ReadKeepsOther(s, ev, s', v);
      }
    }
    forall v | v in l'.rows && l'.rows[v].state == Pending && v !in l'.unread ensures IsKnown(l', v) {
      if v == u {
        ReadQueuesPending(s, ev, s');
      } else {
        ReadKeepsQueued(s, ev, s', v);
      }
    }
  }

  lemma ReadGone(l: Loop, u: string, l': Loop)
    requires LoopOk(l) && Turns(l, Read(u), l') && u !in l.rows
    ensures LoopOk(l')
  {
    var s, s' := l.manager, l'.manager;
    NextKeepsInv(s, RemoveJob(u), s');
    FewerFit(s.nodes[ROOT], s'.nodes[ROOT]);
    forall v | v in l'.rows && IsActive(l'.rows[v].state) ensures RunsInRoot(s', v) {
      assert EntryOk(s, v) && (u in s.jobs ==> EntryOk(s, u));
    }
    forall v | v in l'.rows && l'.rows[v].state == Pending && v !in l'.unread ensures !NoneQueued(s', v) {
      var p, o :| p in s.nodes && o in Jobs(s.nodes[p].queue) && o.uuid == v;
      assert u in s.jobs ==> EntryOk(s, u);
      assert o in Jobs(s'.nodes[p].queue);
    }
  }

  // ---------------------------------------------------------------- asking

  /** A queued job stays in some queue until the root yields it. */
  lemma {:induction false} QueuedOrYielded(s: Sys, now: nat, flow: Flow, s': Sys, p: Path, j: ChannelJob)
    requires Inv(s) && Next(s, Run(now, flow), s') && p in s.nodes && p in flow && ROOT in flow
    requires j in Jobs(s.nodes[p].queue) || j in Arrivals(flow, p)
    ensures InSomeQueue(s', j) || j in flow[ROOT]
    decreases |p|
  {
    ArrivedIsNotPlaced(s.nodes, s.jobs, ROOT, now, s'.nodes, flow, p);
    RoundConserves(s.nodes[p], Arrivals(flow, p), now, s'.nodes[p], flow[p]);
    if j in Jobs(s'.nodes[p].queue) {
    } else if p != ROOT {
      ArrivesAbove(s, now, flow, s', p, j);
      QueuedOrYielded(s, now, flow, s', Parent(p), j);
    }
  }

  lemma AskKeepsRunning(s: Sys, now: nat, flow: Flow, s': Sys, u: string)
    requires Inv(s) && Next(s, Run(now, flow), s') && RunsInRoot(s, u)
    ensures RunsInRoot(s', u)
  {
    RanMoves(s.nodes, s.jobs, ROOT, now, s'.nodes, flow, ROOT);
  }

  lemma YieldedRuns(s: Sys, now: nat, flow: Flow, s': Sys, j: ChannelJob)
    requires Inv(s) && Next(s, Run(now, flow), s') && ROOT in flow && j in flow[ROOT]
    ensures RunsInRoot(s', j.uuid)
  {
    RunKeepsInv(s, now, flow, s');
    RanMoves(s.nodes, s.jobs, ROOT, now, s'.nodes, flow, ROOT);
    assert j in AsSet(flow[ROOT]);
    assert NodeOk(ROOT, s'.nodes[ROOT], s'.jobs) && j in Placed(s'.nodes[ROOT]);
  }

  lemma AskIsOk(l: Loop, now: nat, flow: Flow, l': Loop)
    requires LoopOk(l) && Turns(l, Ask(now, flow), l')
    ensures LoopOk(l')
  {
    var s, s' := l.manager, l'.manager;
    RunKeepsInv(s, now, flow, s');
    RunRespectsCapacity(s, now, flow, s', ROOT);
    SettingsKept(s, Run(now, flow), s', ROOT);
    forall u | RunsInRoot(s, u) ensures RunsInRoot(s', u) {
      AskKeepsRunning(s, now, flow, s', u);
    }
    forall j | j in l'.yielded ensures RunsInRoot(s', j.uuid) {
      YieldedRuns(s, now, flow, s', j);
    }
    forall u | u in l'.rows && l'.rows[u].state == Pending && u !in l'.unread ensures IsKnown(l', u) {
      assert IsKnown(l, u);
      var p, o :| p in s.nodes && o in Jobs(s.nodes[p].queue) && o.uuid == u;
      RootIsAbove(s.nodes.Keys, p);
      QueuedOrYielded(s, now, flow, s', p, o);
    }
  }

  // ---------------------------------------------------------------- the other turns

  lemma EnqueueIsOk(l: Loop, l': Loop)
    requires LoopOk(l) && Turns(l, Enqueue, l')
    ensures LoopOk(l')
  {
    hide Inv, Fits, NoneQueued, RunsInRoot;
    forall u | u in l'.rows && l'.rows[u].state == Pending && u !in l'.unread ensures IsKnown(l', u) {
      assert IsKnown(l, u);
      if j :| j in l.yielded && j.uuid == u {
        assert j != l.yielded[0];
        assert j in l'.yielded;
      }
    }
  }

  lemma ElsewhereIsOk(l: Loop, l': Loop)
    requires LoopOk(l) && Turns(l, Elsewhere, l')
    ensures LoopOk(l')
  {
    hide Inv, Fits, NoneQueued, RunsInRoot;
    forall u | u in l'.rows && l'.rows[u].state == Pending && u !in l'.unread ensures IsKnown(l', u) {
      assert IsKnown(l, u);
    }
  }

  lemma CollectIsOk(l: Loop, us: set<string>, l': Loop)
    requires LoopOk(l) && Turns(l, Collect(us), l')
    ensures LoopOk(l')
  {
    var s, s' := l.manager, l'.manager;
    NextKeepsInv(s, Forget(us), s');
    forall u | RunsInRoot(s, u) ensures RunsInRoot(s', u) {
      assert s.jobs[u].job in Placed(s.nodes[ROOT]);
    }
    forall u | u in l'.rows && l'.rows[u].state == Pending && u !in l'.unread ensures IsKnown(l', u) {
      assert IsKnown(l, u);
    }
  }

  /** Whatever turn comes next, active jobs run in the root, within its capacity, and no pending job is
      forgotten. */
  lemma TurnsKeepOk(l: Loop, turn: Turn, l': Loop)
    requires LoopOk(l) && Turns(l, turn, l')
    ensures LoopOk(l')
  {
    hide LoopOk, Turns;
    match turn
    case Elsewhere => ElsewhereIsOk(l, l');
    case Read(u) =>
      if u in l.rows {
        ReadStored(l, u, l');
      } else {
        ReadGone(l, u, l');
      }
    case Ask(now, flow) => AskIsOk(l, now, flow, l');
    case Enqueue => EnqueueIsOk(l, l');
    case Collect(us) => CollectIsOk(l, us, l');
  }

  // ---------------------------------------------------------------- over whole runs

  ghost predicate IsTurn(loops: seq<Loop>, turns: seq<Turn>, i: nat) {
    i < |turns| && i + 1 < |loops| && Turns(loops[i], turns[i], loops[i + 1])
  }

  ghost predicate IsLoopRun(loops: seq<Loop>, turns: seq<Turn>) {
    && |loops| == |turns| + 1 && LoopOk(loops[0])
    && forall i: nat {:trigger IsTurn(loops, turns, i)} :: i < |turns| ==> IsTurn(loops, turns, i)
  }

  lemma {:induction false} AlwaysOk(loops: seq<Loop>, turns: seq<Turn>, i: nat)
    requires IsLoopRun(loops, turns) && i < |loops|
    ensures LoopOk(loops[i])
  {
    if i == 0 {
    } else {
      AlwaysOk(loops, turns, i - 1);
      assert IsTurn(loops, turns, i - 1);
      TurnsKeepOk(loops[i - 1], turns[i - 1], loops[i]);
    }
  }

  lemma {:induction false} OneObjectEach(s: Sys, us: set<string>, js: set<ChannelJob>)
    requires Inv(s) && forall u :: u in us ==> u in s.jobs && s.jobs[u].job in js
    ensures |us| <= |js|
    decreases us
  {
    if us == {} {
    } else {
      var u :| u in us;
      var j := s.jobs[u].job;
      forall v | v in us - {u} ensures s.jobs[v].job in js - {j} {
        assert EntryOk(s, u) && EntryOk(s, v);
      }
      OneObjectEach(s, us - {u}, js - {j});
    }
  }

  /** In every run, at no time are more jobs stored as enqueued or started than the root may run. */
  lemma ActiveFitRoot(loops: seq<Loop>, turns: seq<Turn>, i: nat)
    requires IsLoopRun(loops, turns) && i < |loops|
    ensures ROOT in loops[i].manager.nodes
    ensures var capacity := loops[i].manager.nodes[ROOT].capacity;
            var active := set u | u in loops[i].rows && loops[i].rows[u].state in {Enqueued, Started};
            capacity != 0 && active != {} ==> |active| <= capacity
  {
    AlwaysOk(loops, turns, i);
    var l := loops[i];
    var active := set u | u in l.rows && l.rows[u].state in {Enqueued, Started};
    OneObjectEach(l.manager, active, l.manager.nodes[ROOT].running);
    if l.manager.nodes[ROOT].running == {} {
      assert active == {};
    }
  }

  /** And when all notifications are taken in and all yielded jobs stored as enqueued, every pending
      job is in the queue of some channel. */
  lemma NoneIsForgotten(loops: seq<Loop>, turns: seq<Turn>, i: nat, uuid: string)
    requires IsLoopRun(loops, turns) && i < |loops| && loops[i].unread == {} && loops[i].yielded == []
    requires uuid in loops[i].rows && loops[i].rows[uuid].state == Pending
    ensures exists p, j :: p in loops[i].manager.nodes && j in Jobs(loops[i].manager.nodes[p].queue) && j.uuid == uuid
  {
    AlwaysOk(loops, turns, i);
    assert IsKnown(loops[i], uuid);
  }

  /** What the runner reads is tame, and so keeps every channel within its capacity, exactly if the
      job is not active or is still of the channel that its object is in. */
  lemma ReadIsTameExactlyIf(l: Loop, uuid: string)
    requires LoopOk(l) && uuid in l.rows
    ensures IsActive(l.rows[uuid].state) ==> uuid in l.manager.jobs
    ensures Tame(l.manager, Told(uuid, l.rows[uuid])) <==>
            IsActive(l.rows[uuid].state) ==>
              ChannelFor(l.manager.nodes.Keys, l.rows[uuid].channel) == l.manager.jobs[uuid].job.home
  {
  }

  ghost predicate ReadsSameChannel(l: Loop, turn: Turn) {
    turn.Read? && turn.uuid in l.rows && IsActive(l.rows[turn.uuid].state) ==>
      && turn.uuid in l.manager.jobs && ROOT in l.manager.nodes
      && ChannelFor(l.manager.nodes.Keys, l.rows[turn.uuid].channel) == l.manager.jobs[turn.uuid].job.home
  }

  /** So when active jobs keep their channels, every channel stays within its capacity in every run. */
  lemma {:induction false} ChannelsFit(loops: seq<Loop>, turns: seq<Turn>, i: nat)
    requires IsLoopRun(loops, turns) && i < |loops| && WithinCapacity(loops[0].manager)
    requires forall k: nat :: k < |turns| ==> ReadsSameChannel(loops[k], turns[k])
    ensures WithinCapacity(loops[i].manager)
  {
    if i == 0 {
    } else {
      ChannelsFit(loops, turns, i - 1);
      AlwaysOk(loops, turns, i - 1);
      assert IsTurn(loops, turns, i - 1);
      TurnFits(loops[i - 1], turns[i - 1], loops[i]);
    }
  }

  lemma TurnFits(l: Loop, turn: Turn, l': Loop)
    requires LoopOk(l) && Turns(l, turn, l') && WithinCapacity(l.manager) && ReadsSameChannel(l, turn)
    ensures WithinCapacity(l'.manager)
  {
    match turn
    case Read(u) =>
      if u in l.rows {
        ReadIsTameExactlyIf(l, u);
      }
      NextFits(l.manager, EventFor(l.rows, u), l'.manager);
    case Ask(now, flow) => NextFits(l.manager, Run(now, flow), l'.manager);
    case Collect(us) => NextFits(l.manager, Forget(us), l'.manager);
    case _ =>
  }
}
