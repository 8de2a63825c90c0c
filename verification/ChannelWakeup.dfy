/** The agreement between the wakeup time and what the next request for jobs would give. */
module ChannelWakeup {
  import opened Sequences
  import opened ChannelJobs
  import opened ChannelNames
  import opened ChannelSteps
  import opened ChannelTree
  import opened ChannelMoves
  import opened ChannelRuns
  import opened ChannelTheorems

  /** The times that `get_wakeup_time` of channel `p` considers: none when it is full, the end of
      its pause when it is paused, else the etas that wait in it and the times of its children. */
  function Candidates(nodes: Nodes, p: Path): set<nat>
    requires p in nodes
    decreases Under(nodes.Keys, p)
  {
    var n := nodes[p];
    if !HasCapacity(n) then {}
    else if n.pause != 0 then {n.pause}
    else
      (set j | j in n.queue.waiting :: n.queue.waiting[j]) +
      set k, t | k in Kids(nodes.Keys, p) && t in CandidatesBelow(nodes, p, k) :: t
  }

  function CandidatesBelow(nodes: Nodes, p: Path, k: Path): set<nat>
    requires p in nodes && k in Kids(nodes.Keys, p)
    decreases Under(nodes.Keys, p), 0
  {
    assert p !in Under(nodes.Keys, k) && p in Under(nodes.Keys, p);
    Candidates(nodes, k)
  }

  /** `w` is the least of these times, or 0 if there is none. */
  ghost predicate IsWakeup(w: nat, times: set<nat>) {
    if times == {} then w == 0 else w in times && forall t :: t in times ==> w <= t
  }

  ghost predicate EtasArePositive(nodes: Nodes) {
    forall p, j :: p in nodes && j in nodes[p].queue.waiting ==> nodes[p].queue.waiting[j] != 0
  }

  lemma {:induction false} CandidatesArePositive(nodes: Nodes, p: Path)
    requires EtasArePositive(nodes) && p in nodes
    ensures 0 !in Candidates(nodes, p)
    decreases Under(nodes.Keys, p)
  {
    forall k | k in Kids(nodes.Keys, p) ensures 0 !in CandidatesBelow(nodes, p, k) {
      assert p !in Under(nodes.Keys, k) && p in Under(nodes.Keys, p);
      CandidatesArePositive(nodes, k);
    }
  }

  /** `w` is the wakeup time of the whole tree. */
  ghost predicate WakesAt(s: Sys, w: nat) {
    ROOT in s.nodes && IsWakeup(w, Candidates(s.nodes, ROOT))
  }

  // ---------------------------------------------------------------- which times these are

  /** No channel from `c` to `p` is blocked by a failed job or full, and none above `p` is paused. */
  ghost predicate IsOpenTo(nodes: Nodes, c: Path, p: Path) {
    forall q :: q in nodes && c <= q <= p ==>
      && !(nodes[q].sequential && nodes[q].failed != {})
      && (nodes[q].capacity == 0 || |nodes[q].running| < nodes[q].capacity)
      && (q != p ==> nodes[q].pause == 0)
  }

  /** The end of the channel's pause, or the eta of a job that waits in it. */
  ghost predicate IsTimeOf(n: Node, t: nat) {
    if n.pause != 0 then t == n.pause else exists j :: j in n.queue.waiting && n.queue.waiting[j] == t
  }

  lemma {:induction false} CandidateIsTime(nodes: Nodes, c: Path, t: nat) returns (p: Path)
    requires c in nodes && t in Candidates(nodes, c)
    ensures p in nodes && c <= p && IsOpenTo(nodes, c, p) && IsTimeOf(nodes[p], t)
    decreases Under(nodes.Keys, c)
  {
    var n := nodes[c];
    if n.pause != 0 || exists j :: j in n.queue.waiting && n.queue.waiting[j] == t {
      p := c;
      forall q | q in nodes && c <= q <= c ensures q == c {
      }
    } else {
      var k :| k in Kids(nodes.Keys, c) && t in CandidatesBelow(nodes, c, k);
      assert c !in Under(nodes.Keys, k) && c in Under(nodes.Keys, c);
      p := CandidateIsTime(nodes, k, t);
      forall q | q in nodes && c <= q <= p && q != c ensures k <= q {
        assert q[..|k|] == p[..|k|] == k;
      }
    }
  }

  lemma {:induction false} TimeIsCandidate(nodes: Nodes, c: Path, p: Path, t: nat)
    requires Rooted(nodes.Keys) && c in nodes && p in nodes && c <= p
    requires IsOpenTo(nodes, c, p) && IsTimeOf(nodes[p], t)
    ensures t in Candidates(nodes, c)
    decreases |p| - |c|
  {
    assert c <= c <= p;
    if c == p {
    } else {
      var k := p[..|c| + 1];
      AncestorIsKey(nodes.Keys, p, k);
      assert k in Kids(nodes.Keys, c);
      TimeIsCandidate(nodes, k, p, t);
      assert t in CandidatesBelow(nodes, c, k);
    }
  }

  /** The wakeup time is none exactly if no channel has an end of a pause or an eta to wait for: of the
      channels that are neither blocked nor full and have no channel above them that is blocked, full
      or paused. Otherwise it is the least of these times. */
  lemma WakeupOnFields(s: Sys, w: nat)
    requires Inv(s) && WakesAt(s, w)
    ensures w != 0 ==> exists p :: p in s.nodes && IsOpenTo(s.nodes, ROOT, p) && IsTimeOf(s.nodes[p], w)
    ensures forall p, t :: p in s.nodes && IsOpenTo(s.nodes, ROOT, p) && IsTimeOf(s.nodes[p], t) ==> 0 < w <= t
  {
    forall p, j | p in s.nodes && j in s.nodes[p].queue.waiting ensures s.nodes[p].queue.waiting[j] != 0 {
      assert NodeOk(p, s.nodes[p], s.jobs);
    }
    CandidatesArePositive(s.nodes, ROOT);
    if w != 0 {
      var p := CandidateIsTime(s.nodes, ROOT, w);
    }
    forall p, t | p in s.nodes && IsOpenTo(s.nodes, ROOT, p) && IsTimeOf(s.nodes[p], t) ensures 0 < w <= t {
      TimeIsCandidate(s.nodes, ROOT, p, t);
    }
  }

  // ---------------------------------------------------------------- passing the least time along

  /** A time that is passed along, if there is one. */
  function Passed(w: nat): set<nat> {
    if w == 0 then {} else {w}
  }

  /** Passing the least time along, channel by channel, gives the least of all times. */
  lemma PassedAlong(w: nat, times: set<nat>, w': nat, more: set<nat>)
    requires IsWakeup(w, times) && 0 !in times && 0 !in more
    requires IsWakeup(w', more + Passed(w))
    ensures IsWakeup(w', times + more)
  {
    if times != {} {
      assert w in times && w in more + Passed(w);
    } else {
      assert more + Passed(w) == times + more;
    }
  }

  /** What the children named so far contribute. */
  function CandidatesOf(nodes: Nodes, p: Path, kids: set<Path>): set<nat>
    requires p in nodes && kids <= Kids(nodes.Keys, p)
  {
    set k, t | k in kids && t in CandidatesBelow(nodes, p, k) :: t
  }

  lemma OneMoreKid(nodes: Nodes, p: Path, kids: set<Path>, k: Path)
    requires p in nodes && kids <= Kids(nodes.Keys, p) && k in Kids(nodes.Keys, p)
    ensures CandidatesOf(nodes, p, kids + {k}) == CandidatesOf(nodes, p, kids) + Candidates(nodes, k)
  {
    assert CandidatesBelow(nodes, p, k) == Candidates(nodes, k);
  }

  /** After a request at `now`, every considered time is still to come. */
  lemma {:induction false} CandidatesAreLater(nodes: Nodes, jobs: Entries, now: nat, p: Path)
    requires TreeOk(nodes, jobs) && p in nodes
    requires forall q :: q in nodes ==> Settled(nodes[q], now)
    ensures forall t :: t in Candidates(nodes, p) ==> now < t
    decreases Under(nodes.Keys, p)
  {
    var n := nodes[p];
    if HasCapacity(n) && n.pause == 0 {
      forall k | k in Kids(nodes.Keys, p) ensures forall t :: t in CandidatesBelow(nodes, p, k) ==> now < t {
        assert p !in Under(nodes.Keys, k) && p in Under(nodes.Keys, p);
        CandidatesAreLater(nodes, jobs, now, k);
      }
      forall j | j in n.queue.waiting ensures now < n.queue.waiting[j] {
        assert j in Due(n.queue, now).waiting;
      }
    }
  }

  /** Until the first considered time, a channel yields nothing: full and paused channels do not,
      and the others get nothing from below. */
  lemma {:induction false} QuietUntilCandidate(nodes: Nodes, jobs: Entries, now: nat, t: nat, nodes': Nodes,
      flow: Flow, p: Path)
    requires TreeOk(nodes, jobs) && p in flow
    requires forall q :: q in nodes ==> Settled(nodes[q], now)
    requires now <= t && Ran(nodes, ROOT, t, nodes', flow)
    requires forall c :: c in Candidates(nodes, p) ==> t < c
    ensures flow[p] == []
    decreases Under(nodes.Keys, p)
  {
    var n, arrived := nodes[p], Arrivals(flow, p);
    ArrivedIsNotPlaced(nodes, jobs, ROOT, t, nodes', flow, p);
    if !HasCapacity(n) || IsPaused(n, t) {
      ClosedIsQuiet(n, arrived, t, nodes'[p], flow[p]);
    } else if n.pause != 0 {
      assert n.pause in Candidates(nodes, p);
    } else {
      forall j | j in arrived ensures false {
        var k :| k in flow && k in Kids(flow.Keys, p) && j in flow[k];
        assert k in Kids(nodes.Keys, p);
        assert p !in Under(nodes.Keys, k) && p in Under(nodes.Keys, p);
        assert forall c :: c in CandidatesBelow(nodes, p, k) ==> c in Candidates(nodes, p);
        QuietUntilCandidate(nodes, jobs, now, t, nodes', flow, k);
      }
      assert arrived == {};
      forall j | j in n.queue.waiting ensures t < n.queue.waiting[j] {
        assert n.queue.waiting[j] in Candidates(nodes, p);
      }
      SettledIsQuiet(n, now, t, nodes'[p], flow[p]);
    }
  }

  /** Right after a request at `now`, the wakeup time is none or still to come, and a request at any
      time from `now` on and before it (at any time at all if there is none) gives the runner
      nothing: no wakeup is missed and none is idle. */
  lemma WakeupAgrees(s: Sys, now: nat, flow: Flow, s': Sys, w: nat)
    requires Inv(s) && Next(s, Run(now, flow), s')
    requires IsWakeup(w, Candidates(s'.nodes, ROOT))
    ensures w == 0 || now < w
    ensures forall t: nat, flow2, s2 :: Next(s', Run(t, flow2), s2) && (w == 0 || t < w) ==>
        ROOT in flow2 && flow2[ROOT] == []
  {
    hide Inv, TreeOk, Settled, Round;
    RunSettlesAll(s, now, flow, s');
    CandidatesAreLater(s'.nodes, s'.jobs, now, ROOT);
    forall t: nat, flow2, s2 | Next(s', Run(t, flow2), s2) && (w == 0 || t < w) ensures ROOT in flow2
        && flow2[ROOT] == [] {
      RootIsAbove(s'.nodes.Keys, ROOT);
      QuietUntilCandidate(s'.nodes, s'.jobs, now, t, s2.nodes, flow2, ROOT);
    }
  }

  /** A request that gives nothing leaves the considered times as they are. */
  lemma {:induction false} QuietKeepsCandidates(nodes: Nodes, jobs: Entries, now: nat, t: nat, nodes': Nodes,
      flow: Flow, p: Path)
    requires TreeOk(nodes, jobs) && p in flow
    requires forall q :: q in nodes ==> Settled(nodes[q], now)
    requires now <= t && Ran(nodes, ROOT, t, nodes', flow)
    requires forall c :: c in Candidates(nodes, p) ==> t < c
    ensures p in nodes' && Candidates(nodes', p) == Candidates(nodes, p)
    decreases Under(nodes.Keys, p)
  {
    hide TreeOk, Round;
    var n, n', arrived := nodes[p], nodes'[p], Arrivals(flow, p);
    ArrivedIsNotPlaced(nodes, jobs, ROOT, t, nodes', flow, p);
    QuietUntilCandidate(nodes, jobs, now, t, nodes', flow, p);
    QuietRound(n, arrived, now, t, n');
    if HasCapacity(n) && n.pause == 0 {
      forall k | k in Kids(nodes.Keys, p) ensures CandidatesBelow(nodes', p, k) == CandidatesBelow(nodes, p, k)
          && flow[k] == [] {
        assert p !in Under(nodes.Keys, k) && p in Under(nodes.Keys, p);
        assert forall c :: c in CandidatesBelow(nodes, p, k) ==> c in Candidates(nodes, p);
        QuietKeepsCandidates(nodes, jobs, now, t, nodes', flow, k);
        QuietUntilCandidate(nodes, jobs, now, t, nodes', flow, k);
      }
      forall j | j in n.queue.waiting ensures t < n.queue.waiting[j] {
        assert n.queue.waiting[j] in Candidates(nodes, p);
      }
      OpenQuietRound(n, arrived, now, t, n');
    } else if HasCapacity(n) {
      assert n.pause in Candidates(nodes, p);
    }
  }

  /** A round that yields nothing changes neither the running and failed jobs nor, before its end,
      the pause. */
  lemma QuietRound(n: Node, arrived: set<ChannelJob>, now: nat, t: nat, n': Node)
    requires Round(n, arrived, t, n', []) && Settled(n, now)
    requires (n.queue.ready + arrived) !! n.queue.waiting.Keys
    ensures HasCapacity(n') <==> HasCapacity(n)
    ensures t < n.pause || n.pause == 0 ==> n'.pause == n.pause
  {
    RoundConserves(n, arrived, t, n', []);
    assert n.running + AsSet([]) == n.running;
  }

  lemma OpenQuietRound(n: Node, arrived: set<ChannelJob>, now: nat, t: nat, n': Node)
    requires Round(n, arrived, t, n', []) && Settled(n, now) && HasCapacity(n) && n.pause == 0 && now <= t
    requires n.queue.ready !! n.queue.waiting.Keys
    requires forall j :: j in n.queue.waiting ==> t < n.queue.waiting[j]
    ensures n'.queue.waiting == n.queue.waiting
  {
    StillDue(n.queue, now, t);
  }

  /** Until its wakeup time the runner may look for jobs as often as it likes and gets none: in
      every run of requests alone, all of them before that time. */
  lemma {:induction false} NothingBeforeWakeup(states: seq<Sys>, events: seq<Event>, w: nat, i: nat)
    requires IsRun(states, events) && 1 <= i < |events| && events[0].Run? && WakesAt(states[1], w)
    requires forall k: nat :: 1 <= k <= i ==> events[k].Run? && (w == 0 || events[k].now < w)
    ensures ROOT in events[i].flow && events[i].flow[ROOT] == []
    ensures WakesAt(states[i + 1], w)
  {
    hide Inv, Next, WakesAt;
    InvAlways(states, events, i - 1);
    InvAlways(states, events, i);
    assert IsStep(states, events, i - 1) && IsStep(states, events, i);
    if i > 1 {
      NothingBeforeWakeup(states, events, w, i - 1);
    }
    QuietRequest(states[i - 1], events[i - 1].now, events[i - 1].flow, states[i], w, events[i].now, events[i].flow,
        states[i + 1]);
  }

  lemma RunSettlesAll(s: Sys, now: nat, flow: Flow, s': Sys)
    requires Inv(s) && Next(s, Run(now, flow), s')
    ensures TreeOk(s'.nodes, s'.jobs) && ROOT in s'.nodes
    ensures forall q :: q in s'.nodes ==> Settled(s'.nodes[q], now)
  {
    hide TreeOk;
    RunKeepsInv(s, now, flow, s');
    forall q | q in s'.nodes ensures Settled(s'.nodes[q], now) {
      RunConservesWork(s, now, flow, s', q);
    }
  }

  lemma QuietRequest(s: Sys, now: nat, flow: Flow, s': Sys, w: nat, t: nat, flow2: Flow, s2: Sys)
    requires Inv(s) && Next(s, Run(now, flow), s') && Next(s', Run(t, flow2), s2)
    requires WakesAt(s', w) && (w == 0 || t < w)
    ensures ROOT in flow2 && flow2[ROOT] == [] && WakesAt(s2, w)
  {
    hide Inv, TreeOk, Settled, Round;
    RunSettlesAll(s, now, flow, s');
    RootIsAbove(s'.nodes.Keys, ROOT);
    CandidatesAreLater(s'.nodes, s'.jobs, now, ROOT);
    assert now == s'.clock <= t && forall c :: c in Candidates(s'.nodes, ROOT) ==> t < c;
    QuietUntilCandidate(s'.nodes, s'.jobs, now, t, s2.nodes, flow2, ROOT);
    QuietKeepsCandidates(s'.nodes, s'.jobs, now, t, s2.nodes, flow2, ROOT);
  }
}
