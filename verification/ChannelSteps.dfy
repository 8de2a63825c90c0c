/** What one channel does, on values: its queue, its capacity, its pause and one round of yielding jobs. */
module ChannelSteps {
  import opened ChannelJobs
  import opened Sequences

  /** The contents of a channel queue: jobs that compete now, and jobs set aside until their eta. */
  datatype Queue = Queue(ready: set<ChannelJob>, waiting: map<ChannelJob, nat>)

  const EMPTY_QUEUE := Queue({}, map[])

  function Jobs(q: Queue): set<ChannelJob> {
    q.ready + q.waiting.Keys
  }

  function Add(q: Queue, j: ChannelJob, eta: nat): Queue {
    if eta != 0 then q.(waiting := q.waiting[j := eta]) else q.(ready := q.ready + {j})
  }

  function Drop(q: Queue, j: ChannelJob): Queue {
    Queue(q.ready - {j}, q.waiting - {j})
  }

  /** The queue once the jobs whose eta has passed compete normally. */
  function Due(q: Queue, now: nat): Queue {
    Queue(q.ready + (set j | j in q.waiting && q.waiting[j] <= now),
          map j | j in q.waiting && q.waiting[j] > now :: q.waiting[j])
  }

  /** The earliest waiting job of a sequential queue would, but for its eta, come before all
      ready jobs: the queue waits for it. */
  ghost predicate HeldBack(q: Queue, sequential: bool) {
    sequential && exists e, r ::
        e in q.waiting && r in q.ready && IsEarliest(e, q.waiting) && IsFirst(r, q.ready) && KeyLess(e, r)
  }

  /** `j` is what `pop` may give at time `now`. */
  ghost predicate CanPop(q: Queue, sequential: bool, now: nat, j: ChannelJob) {
    !HeldBack(Due(q, now), sequential) && IsFirst(j, Due(q, now).ready)
  }

  /** `pop` gives nothing at time `now`. */
  ghost predicate NothingToPop(q: Queue, sequential: bool, now: nat) {
    Due(q, now).ready == {} || HeldBack(Due(q, now), sequential)
  }

  function AfterPop(q: Queue, now: nat, j: ChannelJob): Queue {
    var due := Due(q, now);
    due.(ready := due.ready - {j})
  }

  /** A queue gives a job exactly when it does not give nothing: `pop` is total. */
  lemma PopIsTotal(q: Queue, sequential: bool, now: nat)
    ensures NothingToPop(q, sequential, now) <==> !exists j :: CanPop(q, sequential, now, j)
  {
    if !NothingToPop(q, sequential, now) {
      var j := FirstExists(Due(q, now).ready);
      assert CanPop(q, sequential, now, j);
    }
  }

  /** Which earliest and which first job are compared does not matter, so `HeldBack` is what
      comparing any two of them tells. */
  lemma HeldBackByAny(q: Queue, sequential: bool, e: ChannelJob, r: ChannelJob)
    requires IsEarliest(e, q.waiting) && IsFirst(r, q.ready)
    ensures HeldBack(q, sequential) <==> sequential && KeyLess(e, r)
  {
    if HeldBack(q, sequential) {
      var e', r' :| IsEarliest(e', q.waiting) && IsFirst(r', q.ready) && KeyLess(e', r');
      LessIsWeakOrder(e', 0, r', 0, r, 0);
      LessIsWeakOrder(e', 0, r, 0, e, 0);
    }
  }

  /** A sequential queue looks only at its earliest waiting job. So what it gives comes before no
      waiting job that would be first, etas apart, exactly if the earliest one holds it back or the
      first one by key, `m`, does not sort before the ready jobs either. */
  lemma OvertakesNoneExactlyIf(q: Queue, now: nat, e: ChannelJob, m: ChannelJob, r: ChannelJob)
    requires IsEarliest(e, Due(q, now).waiting) && IsFirst(m, Due(q, now).waiting.Keys) && IsFirst(r, Due(q, now).ready)
    ensures (forall j, w :: CanPop(q, true, now, j) && w in Due(q, now).waiting ==> !KeyLess(w, j)) <==>
            KeyLess(e, r) || !KeyLess(m, r)
  {
    hide Due;
    HeldBackByAny(Due(q, now), true, e, r);
    assert !KeyLess(e, r) ==> CanPop(q, true, now, r);
    forall j, w | CanPop(q, true, now, j) && w in Due(q, now).waiting && !KeyLess(m, r) ensures !KeyLess(w, j) {
      LessIsWeakOrder(w, 0, j, 0, m, 0);
      LessIsWeakOrder(m, 0, j, 0, r, 0);
    }
    assert m in Due(q, now).waiting;
  }

  /** The state of one channel. A capacity of 0 stands for no limit, a pause of 0 for no pause. */
  datatype Node = Node(queue: Queue, running: set<ChannelJob>, failed: set<ChannelJob>, pause: nat,
                       capacity: int, throttle: nat, sequential: bool)

  /** A channel that the manager creates by itself has no limits. */
  const EMPTY_NODE := Node(EMPTY_QUEUE, {}, {}, 0, 0, 0, false)

  function Present(n: Node): set<ChannelJob> {
    Jobs(n.queue) + n.running
  }

  function Placed(n: Node): set<ChannelJob> {
    Present(n) + n.failed
  }

  predicate HasCapacity(n: Node) {
    if n.sequential && n.failed != {} then false
    else if n.capacity == 0 then true
    else |n.running| < n.capacity
  }

  function Without(n: Node, j: ChannelJob): Node {
    n.(queue := Drop(n.queue, j), running := n.running - {j}, failed := n.failed - {j})
  }

  predicate IsPaused(n: Node, now: nat) {
    n.throttle != 0 && n.pause != 0 && now < n.pause
  }

  function Unpaused(n: Node): Node {
    if n.throttle != 0 && n.pause != 0 then n.(pause := 0) else n
  }

  /** The channel after `pop` gave `j` and `j` was marked running. */
  function Take(n: Node, now: nat, j: ChannelJob): Node {
    n.(queue := AfterPop(n.queue, now, j), running := n.running + {j})
  }

  function TakeAll(n: Node, now: nat, out: seq<ChannelJob>): Node {
    if out == [] then n else Take(TakeAll(n, now, out[..|out| - 1]), now, out[|out| - 1])
  }

  /** The channel may yield exactly these jobs, in this order, each while it has capacity. */
  ghost predicate MayYield(n: Node, now: nat, out: seq<ChannelJob>) {
    out != [] ==>
      var before := TakeAll(n, now, out[..|out| - 1]);
      && MayYield(n, now, out[..|out| - 1])
      && HasCapacity(before)
      && CanPop(before.queue, n.sequential, now, out[|out| - 1])
  }

  /** The last loop of `get_jobs_to_run`: jobs are yielded while there is capacity and the queue
      gives any; a throttled channel stops after one and pauses. */
  ghost predicate Drained(open: Node, now: nat, n': Node, out: seq<ChannelJob>) {
    var end := TakeAll(open, now, out);
    && MayYield(open, now, out)
    && if open.throttle != 0 && out != [] then |out| == 1 && n' == end.(pause := now + open.throttle)
       else if HasCapacity(end) then NothingToPop(end.queue, open.sequential, now)
           && n' == end.(queue := Due(end.queue, now))
       else n' == end
  }

  /** One round of `get_jobs_to_run` on a channel whose children yielded `arrived`. */
  ghost predicate Round(n: Node, arrived: set<ChannelJob>, now: nat, n': Node, out: seq<ChannelJob>) {
    var full := n.(queue := n.queue.(ready := n.queue.ready + arrived));
    if IsPaused(full, now) then n' == full && out == []
    else Drained(Unpaused(full), now, n', out)
  }

  // ---------------------------------------------------------------- what yielding keeps

  /** The queue `q'` is `q` without the jobs `s`, each of which was due at `now`; some other due
      jobs may compete now that did not before. */
  ghost predicate Yielded(q: Queue, now: nat, s: set<ChannelJob>, q': Queue) {
    && s <= Jobs(q)
    && Jobs(q') == Jobs(q) - s
    && q'.ready !! q'.waiting.Keys
    && (forall j :: j in q'.waiting ==> j in q.waiting && q'.waiting[j] == q.waiting[j])
    && (forall j :: j in q'.ready + s ==> j in q.ready || (j in q.waiting && q.waiting[j] <= now))
  }

  lemma NothingYielded(q: Queue, now: nat)
    requires q.ready !! q.waiting.Keys
    ensures Yielded(q, now, {}, q)
  {
    assert Jobs(q) == Jobs(q) - {};
  }

  lemma DueYieldsNothing(q: Queue, now: nat)
    requires q.ready !! q.waiting.Keys
    ensures Yielded(q, now, {}, Due(q, now))
  {
    assert Jobs(Due(q, now)) == Jobs(q) - {};
  }

  lemma PopYields(q: Queue, now: nat, j: ChannelJob)
    requires q.ready !! q.waiting.Keys && j in Due(q, now).ready
    ensures Yielded(q, now, {j}, AfterPop(q, now, j))
    ensures Due(AfterPop(q, now, j), now) == AfterPop(q, now, j)
  {
    var p := AfterPop(q, now, j);
    assert Jobs(p) == Jobs(q) - {j};
    assert Due(p, now).waiting == p.waiting;
  }

  lemma YieldsCompose(q: Queue, now: nat, s: set<ChannelJob>, q1: Queue, t: set<ChannelJob>, q2: Queue)
    requires Yielded(q, now, s, q1) && Yielded(q1, now, t, q2)
    ensures Yielded(q, now, s + t, q2) && s !! t
  {
  }

  /** Yielding moves due jobs from the queue to the running ones and changes nothing else. */
  lemma {:induction false} TakeAllMoves(n: Node, now: nat, out: seq<ChannelJob>)
    requires MayYield(n, now, out)
    requires n.queue.ready !! n.queue.waiting.Keys
    ensures var m := TakeAll(n, now, out);
            && m == n.(queue := m.queue, running := n.running + AsSet(out))
            && Yielded(n.queue, now, AsSet(out), m.queue)
            && (out != [] ==> Due(m.queue, now) == m.queue)
    ensures forall i, k :: 0 <= i < k < |out| ==> out[i] != out[k]
  {
    if out == [] {
      assert Yielded(n.queue, now, {}, n.queue);
      assert AsSet(out) == {};
      assert n.running + {} == n.running;
    } else {
      var init, last := out[..|out| - 1], out[|out| - 1];
      var before := TakeAll(n, now, init);
      TakeAllMoves(n, now, init);
      PopYields(before.queue, now, last);
      YieldsCompose(n.queue, now, AsSet(init), before.queue, {last}, AfterPop(before.queue, now, last));
      assert out == init + [last];
      assert AsSet(out) == AsSet(init) + {last};
      assert last !in AsSet(init);
    }
  }

  /** The jobs yielded in one round come in order, and none left behind comes before them. */
  lemma {:induction false} TakeAllSorted(n: Node, now: nat, out: seq<ChannelJob>)
    requires MayYield(n, now, out)
    requires n.queue.ready !! n.queue.waiting.Keys
    ensures forall i, k :: 0 <= i < k < |out| ==> !KeyLess(out[k], out[i])
    ensures out != [] ==> forall j :: j in TakeAll(n, now, out).queue.ready ==> !KeyLess(j, out[|out| - 1])
  {
    if out == [] {
    } else {
      var init, last := out[..|out| - 1], out[|out| - 1];
      var before := TakeAll(n, now, init);
      TakeAllSorted(n, now, init);
      TakeAllMoves(n, now, init);
      if init != [] {
        var prev := init[|init| - 1];
        assert last in before.queue.ready;
        forall i | 0 <= i < |init| ensures !KeyLess(last, init[i]) {
          LessIsWeakOrder(last, 0, init[i], 0, prev, 0);
        }
      }
    }
  }

  /** A sequential channel gives nothing that its earliest waiting job would come before. */
  lemma {:induction false} TakeAllWaits(n: Node, now: nat, out: seq<ChannelJob>, e: ChannelJob)
    requires MayYield(n, now, out) && n.queue.ready !! n.queue.waiting.Keys && n.sequential
    requires out != [] && IsEarliest(e, TakeAll(n, now, out).queue.waiting)
    ensures forall i :: 0 <= i < |out| ==> !KeyLess(e, out[i])
    ensures TakeAll(n, now, out).queue.waiting == Due(n.queue, now).waiting
  {
    hide HasCapacity, KeyLess;
    var init, last := out[..|out| - 1], out[|out| - 1];
    var before := TakeAll(n, now, init);
    HeldBackByAny(Due(before.queue, now), true, e, last);
    if init == [] {
    } else {
      TakeAllMoves(n, now, init);
      TakeAllWaits(n, now, init, e);
    }
  }

  /** While jobs are yielded, a limited channel stays within its capacity. */
  lemma {:induction false} TakeAllCapacity(n: Node, now: nat, out: seq<ChannelJob>)
    requires MayYield(n, now, out)
    requires n.queue.ready !! n.queue.waiting.Keys
    ensures n.capacity != 0 && out != [] ==> |TakeAll(n, now, out).running| <= n.capacity
    ensures out != [] ==> HasCapacity(n)
  {
    if out == [] {
    } else {
      var init := out[..|out| - 1];
      TakeAllCapacity(n, now, init);
      TakeAllMoves(n, now, init);
      var before := TakeAll(n, now, init);
      assert |before.running + {out[|out| - 1]}| <= |before.running| + 1;
      if init == [] {
        assert before == n;
      }
    }
  }

  // ---------------------------------------------------------------- what one round achieves

  /** A round conserves jobs: whatever was queued or arrived is yielded or still queued, and
      exactly the yielded jobs become running. A yielded job was due. */
  lemma RoundConserves(n: Node, arrived: set<ChannelJob>, now: nat, n': Node, out: seq<ChannelJob>)
    requires Round(n, arrived, now, n', out)
    requires (n.queue.ready + arrived) !! n.queue.waiting.Keys
    ensures n' == n.(queue := n'.queue, running := n.running + AsSet(out), pause := n'.pause)
    ensures Yielded(n.queue.(ready := n.queue.ready + arrived), now, AsSet(out), n'.queue)
    ensures forall i, k :: 0 <= i < k < |out| ==> out[i] != out[k]
  {
    hide MayYield, TakeAll, CanPop, NothingToPop, HeldBack, Due, Yielded;
    var full := n.(queue := n.queue.(ready := n.queue.ready + arrived));
    if IsPaused(full, now) {
      NothingYielded(full.queue, now);
      assert AsSet(out) == {};
      assert n.running + {} == n.running;
    } else {
      TakeAllMoves(Unpaused(full), now, out);
      var end := TakeAll(Unpaused(full), now, out);
      DueYieldsNothing(end.queue, now);
      YieldsCompose(full.queue, now, AsSet(out), end.queue, {}, Due(end.queue, now));
      assert AsSet(out) + {} == AsSet(out);
    }
  }

  /** A limited channel ends a round with no more running jobs than it had or may have; a
      sequential channel starts a job only when none is failed and it has capacity. */
  lemma RoundCapacity(n: Node, arrived: set<ChannelJob>, now: nat, n': Node, out: seq<ChannelJob>)
    requires Round(n, arrived, now, n', out)
    requires (n.queue.ready + arrived) !! n.queue.waiting.Keys
    ensures n.capacity != 0 && out != [] ==> |n'.running| <= n.capacity
    ensures out == [] ==> n'.running == n.running
    ensures out != [] ==> HasCapacity(n)
    ensures n.sequential && n.capacity == 1 && out != [] ==> n.running == {} && n.failed == {} && |out| == 1
  {
    var full := n.(queue := n.queue.(ready := n.queue.ready + arrived));
    if !IsPaused(full, now) {
      TakeAllMoves(Unpaused(full), now, out);
      TakeAllCapacity(Unpaused(full), now, out);
    }
    if n.sequential && n.capacity == 1 && out != [] {
      assert n.running == {};
      RoundConserves(n, arrived, now, n', out);
      DistinctFit(out, n'.running);
    }
  }

  /** The jobs of a round come in the order of their keys, and no job left ready sorts before
      the last one yielded. */
  lemma RoundSorted(n: Node, arrived: set<ChannelJob>, now: nat, n': Node, out: seq<ChannelJob>)
    requires Round(n, arrived, now, n', out)
    requires (n.queue.ready + arrived) !! n.queue.waiting.Keys
    ensures forall i, k :: 0 <= i < k < |out| ==> !KeyLess(out[k], out[i])
    ensures out != [] ==> forall j :: j in n'.queue.ready ==> !KeyLess(j, out[|out| - 1])
  {
    var full := n.(queue := n.queue.(ready := n.queue.ready + arrived));
    if !IsPaused(full, now) {
      TakeAllMoves(Unpaused(full), now, out);
      TakeAllSorted(Unpaused(full), now, out);
    }
  }

  /** What a sequential channel yields is not preceded, etas apart, by the earliest of the jobs that
      still wait. */
  lemma RoundWaits(n: Node, arrived: set<ChannelJob>, now: nat, n': Node, out: seq<ChannelJob>, e: ChannelJob)
    requires Round(n, arrived, now, n', out) && n.sequential && IsEarliest(e, n'.queue.waiting)
    requires (n.queue.ready + arrived) !! n.queue.waiting.Keys
    ensures forall i :: 0 <= i < |out| ==> !KeyLess(e, out[i])
  {
    var full := n.(queue := n.queue.(ready := n.queue.ready + arrived));
    if out != [] {
      var end := TakeAll(Unpaused(full), now, out);
      TakeAllMoves(Unpaused(full), now, out);
      TakeAllWaits(Unpaused(full), now, out, e);
    }
  }

  /** After a round at `now`, a channel with capacity and no pause has nothing to give at `now`:
      it is idle, or a sequential queue waits for an eta. */
  ghost predicate Settled(n: Node, now: nat) {
    && (n.pause != 0 ==> n.throttle != 0)
    && (n.pause != 0 ==> now < n.pause)
    && (HasCapacity(n) && n.pause == 0 ==> Due(n.queue, now) == n.queue && NothingToPop(n.queue, n.sequential, now))
  }

  /** Work conservation: a channel that is not blocked, not paused, and unlimited or below its
      capacity, has no job left whose eta has passed, and no ready job either unless it is sequential
      and the earliest of its waiting jobs sorts before all of them, etas apart. */
  lemma RoundSettles(n: Node, arrived: set<ChannelJob>, now: nat, n': Node, out: seq<ChannelJob>)
    requires Round(n, arrived, now, n', out)
    requires (n.queue.ready + arrived) !! n.queue.waiting.Keys
    requires n.pause != 0 ==> n.throttle != 0
    ensures Settled(n', now)
    ensures n'.pause == 0 || now < n'.pause
    ensures !(n.sequential && n'.failed != {}) && n'.pause == 0 && (n.capacity == 0 || |n'.running| < n.capacity) ==>
              && (forall j :: j in n'.queue.waiting ==> now < n'.queue.waiting[j])
              && (!n.sequential ==> n'.queue.ready == {})
              && (n'.queue.ready != {} ==> EarliestComesFirst(n'.queue))
  {
    var full := n.(queue := n.queue.(ready := n.queue.ready + arrived));
    if !IsPaused(full, now) {
      TakeAllMoves(Unpaused(full), now, out);
      DueIsStable(TakeAll(Unpaused(full), now, out).queue, now);
    }
    if HasCapacity(n') && n'.pause == 0 && n'.queue.ready != {} {
      HeldBackOnFields(n'.queue, n.sequential);
    }
  }

  /** One of the waiting jobs that no other precedes, by eta and then by key, comes before all ready
      ones by priority, creation and sequence. */
  ghost predicate EarliestComesFirst(q: Queue) {
    exists e :: e in q.waiting && IsEarliest(e, q.waiting)
      && forall r :: r in q.ready ==>
           || e.priority < r.priority
           || (e.priority == r.priority && e.created < r.created)
           || (e.priority == r.priority && e.created == r.created && e.seqno < r.seqno)
  }

  lemma HeldBackOnFields(q: Queue, sequential: bool)
    requires HeldBack(q, sequential)
    ensures sequential && EarliestComesFirst(q)
  {
    var e, r :| e in q.waiting && r in q.ready && IsEarliest(e, q.waiting) && IsFirst(r, q.ready) && KeyLess(e, r);
    forall o | o in q.ready
      ensures || e.priority < o.priority
              || (e.priority == o.priority && e.created < o.created)
              || (e.priority == o.priority && e.created == o.created && e.seqno < o.seqno)
    {
      assert !KeyLess(o, r);
      LessIsWeakOrder(e, 0, r, 0, o, 0);
      assert KeyLess(e, o);
      KeyOnFields(e, o);
      KeyOnFields(o, e);
    }
  }

  lemma DueIsStable(q: Queue, now: nat)
    requires q.ready !! q.waiting.Keys
    ensures Due(Due(q, now), now) == Due(q, now)
  {
    var d := Due(q, now);
    assert Due(d, now).ready == d.ready;
    assert Due(d, now).waiting == d.waiting;
  }

  /** A settled channel yields nothing before its pause or its earliest eta has passed, as long
      as nothing arrives. */
  lemma SettledIsQuiet(n: Node, now: nat, t: nat, n': Node, out: seq<ChannelJob>)
    requires Settled(n, now) && now <= t
    requires n.queue.ready !! n.queue.waiting.Keys
    requires HasCapacity(n) && n.pause == 0 ==> forall j :: j in n.queue.waiting ==> t < n.queue.waiting[j]
    requires HasCapacity(n) && n.pause != 0 ==> t < n.pause
    requires Round(n, {}, t, n', out)
    ensures out == []
  {
    var full := n.(queue := n.queue.(ready := n.queue.ready + {}));
    assert full == n;
    RoundCapacity(n, {}, t, n', out);
    if out != [] && !IsPaused(n, t) {
      assert Unpaused(n) == n by {
        if n.throttle != 0 && n.pause != 0 {
          assert false;
        }
      }
      FirstIsPopped(n, t, out);
      StillDue(n.queue, now, t);
    }
  }

  lemma StillDue(q: Queue, now: nat, t: nat)
    requires Due(q, now) == q && now <= t && q.ready !! q.waiting.Keys
    requires forall j :: j in q.waiting ==> t < q.waiting[j]
    ensures Due(q, t) == q
  {
    assert Due(q, t).waiting == q.waiting;
    assert Due(q, t).ready == q.ready;
  }

  /** The first job of a round is one the queue could give. */
  lemma {:induction false} FirstIsPopped(n: Node, now: nat, out: seq<ChannelJob>)
    requires MayYield(n, now, out) && out != []
    ensures CanPop(n.queue, n.sequential, now, out[0])
  {
    if |out| <= 1 {
    } else {
      FirstIsPopped(n, now, out[..|out| - 1]);
    }
  }

  /** A channel that is full or paused yields nothing, whatever arrives. */
  lemma ClosedIsQuiet(n: Node, arrived: set<ChannelJob>, now: nat, n': Node, out: seq<ChannelJob>)
    requires Round(n, arrived, now, n', out)
    requires (n.queue.ready + arrived) !! n.queue.waiting.Keys
    requires !HasCapacity(n) || IsPaused(n, now)
    ensures out == []
  {
    RoundCapacity(n, arrived, now, n', out);
  }

  /** A throttled channel yields at most one job a round, only once its pause is over, and then
      pauses for its throttle. */
  lemma RoundThrottles(n: Node, arrived: set<ChannelJob>, now: nat, n': Node, out: seq<ChannelJob>)
    requires Round(n, arrived, now, n', out) && n.throttle != 0
    requires (n.queue.ready + arrived) !! n.queue.waiting.Keys
    ensures out != [] ==> |out| == 1 && n.pause <= now && n'.pause == now + n.throttle
    ensures out == [] ==> n'.pause == n.pause || (n.pause <= now && n'.pause == 0)
  {
    var full := n.(queue := n.queue.(ready := n.queue.ready + arrived));
    if !IsPaused(full, now) {
      TakeAllMoves(Unpaused(full), now, out);
    }
  }
}
