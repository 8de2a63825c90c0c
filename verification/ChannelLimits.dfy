/** Capacity and throttle over whole runs. */
module ChannelLimits {
  import opened ChannelJobs
  import opened ChannelNames
  import opened ChannelSteps
  import opened ChannelTree
  import opened ChannelMoves
  import opened ChannelRuns
  import opened ChannelTheorems
  import opened JobStates

  // ---------------------------------------------------------------- settings never change

  ghost predicate SameSettings(n: Node, n': Node) {
    n'.capacity == n.capacity && n'.throttle == n.throttle && n'.sequential == n.sequential
  }

  lemma WithoutKeepsSettings(n: Node, n': Node, j: ChannelJob)
    requires Without(n', j) == Without(n, j)
    ensures SameSettings(n, n') && n'.pause == n.pause
    ensures j !in n'.running ==> n'.running <= n.running
    ensures j !in n.running && j in n'.running ==> n'.running == n.running + {j}
  {
    assert Without(n', j).capacity == n'.capacity;
    assert Without(n', j).running == n'.running - {j};
    assert Without(n, j).running == n.running - {j};
    assert forall o :: o in n'.running && o != j ==> o in n'.running - {j};
    assert forall o :: o in n.running && o != j ==> o in n.running - {j};
  }

  /** The outdated object that the notification takes out of channel `p`. */
  function Outdated(s: Sys, ev: Event, p: Path): set<ChannelJob>
    requires ev.Notify? && ROOT in s.nodes
  {
    if ev.uuid in s.jobs && !Keeps(s, ev) && p <= s.jobs[ev.uuid].job.home then {s.jobs[ev.uuid].job} else {}
  }

  /** What a notification leaves of a channel before the job's state is applied: only a job object
      that is outdated is gone. */
  lemma PreparedNode(s: Sys, ev: Event, p: Path)
    requires Inv(s) && ev.Notify? && p in s.nodes
    ensures p in Prepared(s, ev)
    ensures SameSettings(s.nodes[p], Prepared(s, ev)[p]) && Prepared(s, ev)[p].pause == s.nodes[p].pause
    ensures Prepared(s, ev)[p].running == s.nodes[p].running - Outdated(s, ev, p)
  {
  }

  lemma NewNode(s: Sys, ev: Event, p: Path)
    requires Inv(s) && ev.Notify? && p in Prepared(s, ev) && p !in s.nodes
    ensures Prepared(s, ev)[p].capacity == 0 && Prepared(s, ev)[p].throttle == 0
  {
  }

  lemma NotifyKeepsSettings(s: Sys, ev: Event, j: ChannelJob, s': Sys, p: Path)
    requires Inv(s) && ev.Notify? && Notified(s, ev, j, s') && p in s'.nodes
    ensures p in s.nodes ==> SameSettings(s.nodes[p], s'.nodes[p]) && s'.nodes[p].pause == s.nodes[p].pause
    ensures p !in s.nodes ==> s'.nodes[p].capacity == 0 && s'.nodes[p].throttle == 0
    ensures p in Prepared(s, ev) && Without(s'.nodes[p], j) == Without(Prepared(s, ev)[p], j)
  {
    NotifyReady(s, ev, j, s');
    assert OthersStay(Prepared(s, ev), s'.nodes, j) by {
      ApplyKeepsTree(Prepared(s, ev), s'.jobs, j, ev.state);
    }
    WithoutKeepsSettings(Prepared(s, ev)[p], s'.nodes[p], j);
    if p in s.nodes {
      PreparedNode(s, ev, p);
    } else {
      NewNode(s, ev, p);
    }
  }

  /** No operation changes a channel's settings, and only a request for jobs changes its pause. */
  lemma SettingsKept(s: Sys, ev: Event, s': Sys, p: Path)
    requires Inv(s) && Next(s, ev, s') && p in s.nodes
    ensures p in s'.nodes && SameSettings(s.nodes[p], s'.nodes[p])
    ensures !ev.Run? ==> s'.nodes[p].pause == s.nodes[p].pause && s'.clock == s.clock
  {
    match ev
    case Notify(_, _, _, _, _, _, _, _) =>
      var j :| j in s'.made && Notified(s, ev, j, s');
      PreparedOk(s, ev);
      NotifyReady(s, ev, j, s');
      ApplyKeepsTree(Prepared(s, ev), s'.jobs, j, ev.state);
      NotifyKeepsSettings(s, ev, j, s', p);
    case Run(now, flow) =>
      RootIsAbove(s.nodes.Keys, p);
      ArrivedIsNotPlaced(s.nodes, s.jobs, ROOT, now, s'.nodes, flow, p);
      RoundConserves(s.nodes[p], Arrivals(flow, p), now, s'.nodes[p], flow[p]);
    case _ =>
  }

  // ---------------------------------------------------------------- capacity

  /** A limited channel runs no more jobs than it may. */
  ghost predicate WithinCapacity(s: Sys) {
    forall p :: p in s.nodes ==> Fits(s.nodes[p])
  }

  predicate Fits(n: Node) {
    n.capacity != 0 && n.running != {} ==> |n.running| <= n.capacity
  }

  /** Jobs are said to be enqueued or started only after the root dispatched them, and in the same
      channel; their other properties may have changed. */
  predicate Tame(s: Sys, ev: Event) {
    ev.Notify? && (ev.state == Known(Enqueued) || ev.state == Known(Started)) ==>
      && ev.uuid in s.jobs && ROOT in s.nodes
      && s.jobs[ev.uuid].job in s.nodes[ROOT].running
      && ChannelFor(s.nodes.Keys, ev.name) == s.jobs[ev.uuid].job.home
  }

  lemma FewerFit(n: Node, n': Node)
    requires Fits(n) && SameSettings(n, n') && n'.running <= n.running
    ensures Fits(n')
  {
    SubsetIsSmaller(n'.running, n.running);
  }

  lemma SubsetIsSmaller(a: set<ChannelJob>, b: set<ChannelJob>)
    requires a <= b
    ensures |a| <= |b|
  {
    assert b == a + (b - a);
  }

  /** A rescheduled job that was dispatched takes exactly the places that its old object had. */
  lemma RescheduledFits(s: Sys, ev: Event, j: ChannelJob, s': Sys, p: Path)
    requires Inv(s) && ev.Notify? && Notified(s, ev, j, s') && Tame(s, ev) && p in s.nodes && p in s'.nodes
    requires ev.state == Known(Enqueued) || ev.state == Known(Started)
    requires !Keeps(s, ev) && j in s'.nodes[p].running && Fits(s.nodes[p])
    ensures Fits(s'.nodes[p])
  {
    var gone := s.jobs[ev.uuid].job;
    NotifyKeepsSettings(s, ev, j, s', p);
    PreparedNode(s, ev, p);
    assert j !in Prepared(s, ev)[p].running by { NotifyReady(s, ev, j, s'); }
    WithoutKeepsSettings(Prepared(s, ev)[p], s'.nodes[p], j);
    assert p <= j.home == gone.home by {
      NotifyKeepsInv(s, ev, j, s');
      assert NodeOk(p, s'.nodes[p], s'.jobs) && j in Placed(s'.nodes[p]);
    }
    assert gone in s.nodes[p].running by {
      if p != ROOT {
        PresentMeansRunningBelow(s.nodes, s.jobs, ROOT, p, gone);
      }
    }
    assert s'.nodes[p].running == (s.nodes[p].running - {gone}) + {j};
    assert |s'.nodes[p].running| <= |s.nodes[p].running|;
  }

  lemma NotifyFits(s: Sys, ev: Event, j: ChannelJob, s': Sys, p: Path)
    requires Inv(s) && ev.Notify? && Notified(s, ev, j, s') && Tame(s, ev) && p in s'.nodes
    requires p in s.nodes ==> Fits(s.nodes[p])
    ensures Fits(s'.nodes[p])
  {
    NotifyKeepsSettings(s, ev, j, s', p);
    if p in s.nodes {
      PreparedNode(s, ev, p);
      WithoutKeepsSettings(Prepared(s, ev)[p], s'.nodes[p], j);
      if j !in s'.nodes[p].running || s'.nodes == Prepared(s, ev) {
        FewerFit(s.nodes[p], s'.nodes[p]);
      } else {
        NotifyPlaces(s, ev, j, s');
        RunsOnlyIfTold(s, ev, j, s', p);
        if Keeps(s, ev) {
          KeptIsRunning(s, ev, j);
        } else {
          RescheduledFits(s, ev, j, s', p);
        }
      }
    }
  }

  lemma RunsOnlyIfTold(s: Sys, ev: Event, j: ChannelJob, s': Sys, p: Path)
    requires Inv(s) && ev.Notify? && Notified(s, ev, j, s') && PlacedByState(s, ev, j, s')
    requires p in s'.nodes && j in s'.nodes[p].running && s'.nodes != Prepared(s, ev)
    ensures ev.state == Known(Enqueued) || ev.state == Known(Started)
  {
    assert j in Placed(s'.nodes[p]);
  }

  lemma KeptIsRunning(s: Sys, ev: Event, j: ChannelJob)
    requires Inv(s) && ev.Notify? && Keeps(s, ev) && Tame(s, ev) && j == s.jobs[ev.uuid].job
    requires ev.state == Known(Enqueued) || ev.state == Known(Started)
    ensures j.home in Prepared(s, ev) && j in Prepared(s, ev)[j.home].running
  {
    assert NodeOk(ROOT, s.nodes[ROOT], s.jobs) && j in Placed(s.nodes[ROOT]);
    assert EntryOk(s, ev.uuid);
    if j.home != ROOT {
      PresentMeansRunningBelow(s.nodes, s.jobs, ROOT, j.home, j);
    }
    PreparedNode(s, ev, j.home);
  }

  /** An object of the job runs in channel `p`, or the known one, which is kept, in its own channel. */
  predicate RunsAlready(s: Sys, ev: Event, p: Path)
    requires ev.Notify? && ROOT in s.nodes && p in s.nodes
  {
    && ev.uuid in s.jobs
    && var gone := s.jobs[ev.uuid].job;
       || (gone in s.nodes[p].running && p <= gone.home)
       || (Keeps(s, ev) && gone.home in s.nodes && gone in s.nodes[gone.home].running)
  }

  /** Notifications that a job is enqueued or started do not ask for capacity. Whether tame or not,
      they keep a channel within it if and only if it is unlimited or not above the job's channel,
      has room for one more, or has the job running already. */
  lemma ToldToRunFitsExactlyIf(s: Sys, ev: Event, j: ChannelJob, s': Sys, p: Path)
    requires Inv(s) && ev.Notify? && Notified(s, ev, j, s') && p in s.nodes && Fits(s.nodes[p])
    requires ev.state == Known(Enqueued) || ev.state == Known(Started)
    ensures p in s'.nodes
    ensures Fits(s'.nodes[p]) <==>
            || s.nodes[p].capacity == 0 || !(p <= ChannelFor(s.nodes.Keys, ev.name))
            || |s.nodes[p].running| < s.nodes[p].capacity || RunsAlready(s, ev, p)
  {
    assert ROOT in s.nodes;
    hide Inv, Notified, Prepared, Fits, RunsAlready, IsRunningAt, Keeps;
    NotifyRuns(s, ev, j, s', p);
    if j in Prepared(s, ev)[j.home].running || !(p <= j.home) {
      StaysOutFits(s, ev, j, s', p);
    } else {
      RunsAnewFits(s, ev, j, s', p);
    }
  }

  /** What such a notification does to a channel. */
  lemma NotifyRuns(s: Sys, ev: Event, j: ChannelJob, s': Sys, p: Path)
    requires Inv(s) && ev.Notify? && Notified(s, ev, j, s') && p in s.nodes
    requires ev.state == Known(Enqueued) || ev.state == Known(Started)
    ensures p in Prepared(s, ev) && p in s'.nodes && SameSettings(s.nodes[p], s'.nodes[p])
    ensures j.home == ChannelFor(s.nodes.Keys, ev.name)
    ensures j.home in Prepared(s, ev) && IsRunningAt(Prepared(s, ev), s'.nodes, j)
    ensures Without(s'.nodes[p], j) == Without(Prepared(s, ev)[p], j)
    ensures TreeOk(Prepared(s, ev), s'.jobs) && (!Keeps(s, ev) ==> Nowhere(Prepared(s, ev), j))
  {
    PreparedNode(s, ev, p);
    NotifyReady(s, ev, j, s');
    NotifyPlaces(s, ev, j, s');
    hide IsRunningAt, TreeOk, Inv;
    NotifyKeepsSettings(s, ev, j, s', p);
  }

  /** The job runs in its channel already, or `p` is not above that. */
  lemma StaysOutFits(s: Sys, ev: Event, j: ChannelJob, s': Sys, p: Path)
    requires Inv(s) && ev.Notify? && Notified(s, ev, j, s') && p in s.nodes && Fits(s.nodes[p])
    requires p in Prepared(s, ev) && p in s'.nodes && SameSettings(s.nodes[p], s'.nodes[p])
    requires j.home in Prepared(s, ev) && IsRunningAt(Prepared(s, ev), s'.nodes, j)
    requires Without(s'.nodes[p], j) == Without(Prepared(s, ev)[p], j)
    requires !Keeps(s, ev) ==> Nowhere(Prepared(s, ev), j)
    requires j in Prepared(s, ev)[j.home].running || !(p <= j.home)
    ensures Fits(s'.nodes[p])
    ensures p <= j.home ==> RunsAlready(s, ev, p)
  {
    PreparedNode(s, ev, p);
    WithoutKeepsSettings(Prepared(s, ev)[p], s'.nodes[p], j);
    FewerFit(s.nodes[p], s'.nodes[p]);
  }

  /** The job comes to run in `p`: one more, unless its outdated object makes room. */
  lemma RunsAnewFits(s: Sys, ev: Event, j: ChannelJob, s': Sys, p: Path)
    requires Inv(s) && ev.Notify? && Notified(s, ev, j, s') && p in s.nodes && Fits(s.nodes[p])
    requires p in Prepared(s, ev) && p in s'.nodes && SameSettings(s.nodes[p], s'.nodes[p])
    requires j.home in Prepared(s, ev) && IsRunningAt(Prepared(s, ev), s'.nodes, j)
    requires Without(s'.nodes[p], j) == Without(Prepared(s, ev)[p], j)
    requires TreeOk(Prepared(s, ev), s'.jobs) && (!Keeps(s, ev) ==> Nowhere(Prepared(s, ev), j))
    requires j !in Prepared(s, ev)[j.home].running && p <= j.home
    ensures Fits(s'.nodes[p]) <==>
            s.nodes[p].capacity == 0 || |s.nodes[p].running| < s.nodes[p].capacity || RunsAlready(s, ev, p)
  {
    PreparedNode(s, ev, p);
    AnewRunsAlready(s, ev, j, s', p);
    hide Inv, TreeOk, Notified, Nowhere, IsRunningAt, Prepared, Fits, RunsAlready, Keeps;
    WithoutKeepsSettings(Prepared(s, ev)[p], s'.nodes[p], j);
    NotRunningAbove(Prepared(s, ev), s'.jobs, p, j);
    OneMoreFits(s.nodes[p], s'.nodes[p], Outdated(s, ev, p), j);
  }

  lemma AnewRunsAlready(s: Sys, ev: Event, j: ChannelJob, s': Sys, p: Path)
    requires Inv(s) && ev.Notify? && Notified(s, ev, j, s') && p in s.nodes && p in Prepared(s, ev)
    requires TreeOk(Prepared(s, ev), s'.jobs) && j.home in Prepared(s, ev) && p <= j.home
    requires j !in Prepared(s, ev)[j.home].running
    ensures RunsAlready(s, ev, p) <==> Outdated(s, ev, p) * s.nodes[p].running != {}
  {
    NotRunningAbove(Prepared(s, ev), s'.jobs, p, j);
    hide TreeOk;
    PreparedNode(s, ev, p);
    if Keeps(s, ev) && j.home in s.nodes {
      PreparedNode(s, ev, j.home);
    }
  }

  lemma NotRunningAbove(nodes: Nodes, jobs: Entries, p: Path, j: ChannelJob)
    requires TreeOk(nodes, jobs) && p in nodes && p <= j.home && (j.home in nodes ==> j !in nodes[j.home].running)
    ensures j !in nodes[p].running
  {
    if j in nodes[p].running && p != j.home {
      PresentMeansRunningBelow(nodes, jobs, p, j.home, j);
    }
  }

  lemma OneMoreFits(n: Node, n': Node, gone: set<ChannelJob>, j: ChannelJob)
    requires SameSettings(n, n') && Fits(n) && n'.running == n.running - gone + {j} && j !in n.running - gone
    requires forall i, k :: i in gone && k in gone ==> i == k
    ensures Fits(n') <==> n.capacity == 0 || |n.running| < n.capacity || gone * n.running != {}
  {
    if g :| g in gone * n.running {
      assert n.running - gone == n.running - {g};
    } else {
      assert n.running - gone == n.running;
    }
  }

  /** One operation keeps every channel within its capacity. */
  lemma NextFits(s: Sys, ev: Event, s': Sys)
    requires Inv(s) && Next(s, ev, s') && WithinCapacity(s) && Tame(s, ev)
    ensures WithinCapacity(s')
  {
    forall p | p in s'.nodes ensures Fits(s'.nodes[p]) {
      match ev
      case Notify(_, _, _, _, _, _, _, _) =>
        var j :| j in s'.made && Notified(s, ev, j, s');
        NotifyFits(s, ev, j, s', p);
      case Run(now, flow) =>
        RunRespectsCapacity(s, now, flow, s', p);
        SettingsKept(s, ev, s', p);
      case _ =>
        SettingsKept(s, ev, s', p);
        FewerFit(s.nodes[p], s'.nodes[p]);
    }
  }

  /** In every run that starts within capacity and hears of started jobs only after dispatching
      them, every channel stays within its capacity. */
  lemma {:induction false} CapacityOverRuns(states: seq<Sys>, events: seq<Event>, i: nat)
    requires IsRun(states, events) && i < |states| && WithinCapacity(states[0])
    requires forall k: nat :: k < |events| ==> Tame(states[k], events[k])
    ensures WithinCapacity(states[i])
    ensures forall p :: p in states[i].nodes ==>
              var n := states[i].nodes[p]; n.capacity == 0 || n.running == {} || |n.running| <= n.capacity
  {
    if i == 0 {
    } else {
      CapacityOverRuns(states, events, i - 1);
      InvAlways(states, events, i - 1);
      assert IsStep(states, events, i - 1);
      NextFits(states[i - 1], events[i - 1], states[i]);
    }
  }

  // ---------------------------------------------------------------- throttle

  /** How many jobs channel `p` yields in the requests made in the time from `a` to `b`. */
  function YieldedIn(events: seq<Event>, p: Path, a: nat, b: nat): nat {
    if events == [] then 0
    else
      var rest := YieldedIn(events[1..], p, a, b);
      if events[0].Run? && a <= events[0].now <= b && p in events[0].flow then |events[0].flow[p]| + rest else rest
  }

  /** The earliest time in the window from `a` at which the channel may yield. */
  function Earliest(s: Sys, p: Path, a: nat): nat
    requires p in s.nodes
  {
    var b := if a < s.clock then s.clock else a;
    if b < s.nodes[p].pause then s.nodes[p].pause else b
  }

  function RateBound(earliest: nat, b: nat, d: nat): nat
    requires d > 0
  {
    if earliest > b then 0 else 1 + (b - earliest) / d
  }

  lemma RateBoundMonotone(e: nat, e': nat, b: nat, d: nat)
    requires d > 0 && e <= e'
    ensures RateBound(e', b, d) <= RateBound(e, b, d)
  {
    if e' <= b {
      DivMonotone(b - e', b - e, d);
    }
  }

  lemma RateBoundStep(now: nat, b: nat, d: nat)
    requires d > 0 && now <= b
    ensures RateBound(now + d, b, d) + 1 <= RateBound(now, b, d)
  {
    if now + d <= b {
      DivPlusOne(b - now - d, d);
    }
  }

  lemma LessByFactor(x: int, y: int, d: int)
    requires d > 0 && x * d < y * d
    ensures x < y
  {
    assert x * d - y * d == (x - y) * d;
  }

  lemma DivMonotone(x: nat, y: nat, d: nat)
    requires d > 0 && x <= y
    ensures x / d <= y / d
  {
    assert (x / d) * d <= x && y < (y / d + 1) * d;
    LessByFactor(x / d, y / d + 1, d);
  }

  lemma DivPlusOne(x: nat, d: nat)
    requires d > 0
    ensures (x + d) / d == x / d + 1
  {
    var q, r, p, t := (x + d) / d, (x + d) % d, x / d, x % d;
    assert x + d == q * d + r && x == p * d + t;
    assert (q - p - 1) * d == t - r;
    LessByFactor(q - p - 1, 1, d);
    LessByFactor(-1, q - p - 1, d);
  }

  /** What one request does to a throttled channel's pause. */
  lemma ThrottledPause(s: Sys, now: nat, flow: Flow, s': Sys, p: Path)
    requires Inv(s) && Next(s, Run(now, flow), s') && p in s.nodes && s.nodes[p].throttle > 0
    ensures p in flow && p in s'.nodes && s.clock <= now && s'.clock == now
    ensures flow[p] != [] ==>
        |flow[p]| == 1 && s.nodes[p].pause <= now && s'.nodes[p].pause == now + s.nodes[p].throttle
    ensures flow[p] == [] ==>
        s'.nodes[p].pause == s.nodes[p].pause || (s.nodes[p].pause <= now && s'.nodes[p].pause == 0)
  {
    RootIsAbove(s.nodes.Keys, p);
    ArrivedIsNotPlaced(s.nodes, s.jobs, ROOT, now, s'.nodes, flow, p);
    RoundThrottles(s.nodes[p], Arrivals(flow, p), now, s'.nodes[p], flow[p]);
  }

  /** What one request does to the earliest time and to the count. */
  lemma ThrottleStep(s: Sys, now: nat, flow: Flow, s': Sys, p: Path, a: nat)
    requires Inv(s) && Next(s, Run(now, flow), s') && p in s.nodes && s.nodes[p].throttle > 0
    ensures p in flow && p in s'.nodes && |flow[p]| <= 1
    ensures Earliest(s, p, a) <= Earliest(s', p, a)
    ensures flow[p] != [] && a <= now ==> Earliest(s, p, a) <= now && now + s.nodes[p].throttle <= Earliest(s', p, a)
    ensures now <= Earliest(s', p, a)
  {
    hide Inv, Next;
    ThrottledPause(s, now, flow, s', p);
  }

  lemma {:induction false} ThrottleFrom(states: seq<Sys>, events: seq<Event>, p: Path, a: nat, b: nat, d: nat)
    requires IsRun(states, events) && p in states[0].nodes && d > 0 && states[0].nodes[p].throttle == d
    ensures YieldedIn(events, p, a, b) <= RateBound(Earliest(states[0], p, a), b, d)
  {
    hide Inv, Next, RateBound;
    if events == [] {
    } else {
      var s, ev, s' := states[0], events[0], states[1];
      assert IsStep(states, events, 0);
      SettingsKept(s, ev, s', p);
      RunTail(states, events);
      ThrottleFrom(states[1..], events[1..], p, a, b, d);
      if ev.Run? {
        ThrottleStep(s, ev.now, ev.flow, s', p, a);
        if ev.flow[p] != [] && a <= ev.now <= b {
          RateBoundMonotone(ev.now + d, Earliest(s', p, a), b, d);
          RateBoundStep(ev.now, b, d);
          RateBoundMonotone(Earliest(s, p, a), ev.now, b, d);
        }
      }
      RateBoundMonotone(Earliest(s, p, a), Earliest(s', p, a), b, d);
    }
  }

  /** In every run, a channel with throttle `d` yields at most 1 + (b - a) / d jobs between the
      times `a` and `b`. */
  lemma ThrottleRate(states: seq<Sys>, events: seq<Event>, p: Path, a: nat, b: nat)
    requires IsRun(states, events) && p in states[0].nodes && states[0].nodes[p].throttle > 0 && a <= b
    ensures YieldedIn(events, p, a, b) <= 1 + (b - a) / states[0].nodes[p].throttle
  {
    var d := states[0].nodes[p].throttle;
    ThrottleFrom(states, events, p, a, b, d);
    RateBoundMonotone(a, Earliest(states[0], p, a), b, d);
  }
}
