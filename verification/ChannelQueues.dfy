/** The queue of one channel: two priority queues, one for the jobs whose eta is still to come. */
module ChannelQueues {
  import opened ChannelJobs
  import opened PriorityQueues
  import opened ChannelSteps

  /** The queue once the waiting job `j` competes. */
  ghost function Released(q: Queue, j: ChannelJob): Queue {
    Queue(q.ready + {j}, q.waiting - {j})
  }

  ghost function ReleasedAll(q: Queue, s: set<ChannelJob>): Queue {
    Queue(q.ready + s, q.waiting - s)
  }

  lemma ReleaseOneMore(q: Queue, s: set<ChannelJob>, j: ChannelJob)
    requires j in s
    ensures Released(ReleasedAll(q, s - {j}), j) == ReleasedAll(q, s)
  {
    assert (q.ready + (s - {j})) + {j} == q.ready + s;
    assert (q.waiting - (s - {j})) - {j} == q.waiting - s;
  }

  lemma ReleasedAllIsDue(q: Queue, s: set<ChannelJob>, now: nat)
    requires s <= q.waiting.Keys
    requires forall j :: j in s ==> q.waiting[j] <= now
    requires forall j :: j in q.waiting && j !in s ==> q.waiting[j] > now
    ensures ReleasedAll(q, s) == Due(q, now)
  {
    assert ReleasedAll(q, s).ready == Due(q, now).ready;
    assert ReleasedAll(q, s).waiting == Due(q, now).waiting;
  }

  class ChannelQueue {
    const queue: PriorityQueue
    const etaQueue: PriorityQueue
    var sequential: bool

    /** Both heaps are in order, and no job sits in a heap with an eta of the other kind: what
        orders a heap does not change while a job is in it, although `Pop` clears etas. */
    ghost predicate Valid()
      reads this, queue, etaQueue, queue.known, etaQueue.known
    {
      && queue != etaQueue
      && queue.Valid() && etaQueue.Valid()
      && (forall j :: j in queue.known ==> j.eta == 0)
      && (forall j :: j in etaQueue.known ==> j.eta != 0)
    }

    ghost function View(): Queue
      reads queue, etaQueue, etaQueue.known
    {
      Queue(queue.Live(), map j | j in etaQueue.Live() :: j.eta)
    }

    constructor ()
      ensures Valid() && View() == EMPTY_QUEUE && !sequential
      ensures fresh(queue) && fresh(etaQueue) && queue.known == {} && etaQueue.known == {}
    {
      queue := new PriorityQueue();
      etaQueue := new PriorityQueue();
      sequential := false;
    }

    method Len() returns (n: nat)
      requires Valid()
      ensures n == |View().ready| + |View().waiting|
    {
      var m := etaQueue.Len();
      n := queue.Len();
      n := n + m;
      assert View().waiting.Keys == etaQueue.Live();
    }

    method Contains(o: ChannelJob) returns (b: bool)
      ensures b <==> o in Jobs(View())
    {
      b := etaQueue.Contains(o);
      if !b {
        b := queue.Contains(o);
      }
    }

    method Add(job: ChannelJob)
      requires Valid()
      modifies queue, etaQueue
      ensures Valid() && View() == ChannelSteps.Add(old(View()), job, job.eta)
      ensures queue.known <= old(queue.known) + {job}
      ensures etaQueue.known <= old(etaQueue.known) + if job.eta != 0 then {job} else {}
    {
      if job.eta != 0 {
        etaQueue.Add(job);
      } else {
        queue.Add(job);
      }
    }

    method Remove(job: ChannelJob)
      requires Valid()
      modifies queue, etaQueue
      ensures Valid() && View() == Drop(old(View()), job)
      ensures queue.known == old(queue.known) && etaQueue.known == old(etaQueue.known)
    {
      etaQueue.Remove(job);
      queue.Remove(job);
    }

    /** If the eta of the earliest waiting job has passed, clears it and lets the job compete. */
    method ReleaseFirst(now: nat) returns (moved: bool, ghost due: Option<ChannelJob>)
      requires Valid()
      modifies queue, etaQueue, etaQueue.Live()
      ensures Valid()
      ensures moved <==> due.Some?
      ensures !moved ==> View() == old(View()) && forall j :: j in View().waiting ==> View().waiting[j] > now
      ensures moved ==> due.value in old(View()).waiting && old(View()).waiting[due.value] <= now
                        && View() == Released(old(View()), due.value) && due.value.eta == 0
                            && due.value in old(etaQueue.Live())
      ensures etaQueue.known <= old(etaQueue.known) && etaQueue.Live() <= old(etaQueue.Live())
      ensures queue.known <= old(queue.known) + if moved then {due.value} else {}
    {
      moved, due := false, None;
      var first := etaQueue.First();
      assert View() == old(View());
      if first.Some? && first.value.eta <= now {
        var job := etaQueue.Pop();
        assert job.value.eta <= now by {
          assert first.value in old(etaQueue.Live());
        }
        TakeFromEta(job.value);
        moved, due := true, job;
        assert View().ready == old(View()).ready + {job.value};
        assert View().waiting == old(View()).waiting - {job.value};
      }
    }

    /** `eta_job.eta = None`, then the job joins the others. */
    method TakeFromEta(job: ChannelJob)
      requires Valid() && job !in etaQueue.known
      modifies queue, job
      ensures Valid() && job.eta == 0 && etaQueue.Live() == old(etaQueue.Live())
      ensures queue.Live() == old(queue.Live()) + {job} && queue.known == old(queue.known) + {job}
    {
      job.eta := 0;
      queue.Add(job);
    }

    /** Moves every job whose eta has passed to the other queue, clearing its eta. */
    method ReleaseDue(now: nat)
      requires Valid()
      modifies queue, etaQueue, etaQueue.Live()
      ensures Valid() && View() == Due(old(View()), now)
      ensures etaQueue.known <= old(etaQueue.known) && queue.known <= old(queue.known) + old(etaQueue.known)
      ensures etaQueue.Live() <= old(etaQueue.Live())
    {
      ghost var before := View();
      ghost var known := etaQueue.known;
      ghost var cleared: set<ChannelJob> := {};
      var moved := true;
      while moved
        invariant Valid() && etaQueue.known <= known && queue.known <= old(queue.known) + known
        invariant etaQueue.Live() <= old(etaQueue.Live())
        invariant View() == ReleasedAll(before, cleared) && cleared <= before.waiting.Keys
        invariant forall j :: j in cleared ==> before.waiting[j] <= now
        invariant !moved ==> forall j :: j in View().waiting ==> View().waiting[j] > now
        decreases before.waiting.Keys - cleared, moved
      {
        ghost var due;
        moved, due := ReleaseFirst(now);
        if moved {
          assert due.value in before.waiting.Keys - cleared;
          assert cleared + {due.value} - {due.value} == cleared;
          cleared := cleared + {due.value};
          ReleaseOneMore(before, cleared, due.value);
        }
      }
      assert forall j :: j in before.waiting && j !in cleared ==> j in View().waiting;
      ReleasedAllIsDue(before, cleared, now);
    }

    /** The first job by priority, creation and sequence of those that are ready or whose eta has
        passed; none only if there is none, or in a sequential queue. */
    method Pop(now: nat) returns (r: Option<ChannelJob>)
      requires Valid()
      modifies queue, etaQueue, etaQueue.Live()
      ensures Valid()
      ensures forall o :: o in View().waiting ==> now < View().waiting[o]
      ensures r.None? && View().ready != {} ==> sequential && EarliestComesFirst(View())
      ensures r.Some? && sequential ==> forall e :: e in View().waiting && IsEarliest(e, View().waiting) ==>
                || r.value.priority < e.priority
                || (r.value.priority == e.priority && r.value.created < e.created)
                || (r.value.priority == e.priority && r.value.created == e.created && r.value.seqno <= e.seqno)
      ensures r.Some? ==> forall o :: o in View().ready ==>
                || r.value.priority < o.priority
                || (r.value.priority == o.priority && r.value.created < o.created)
                || (r.value.priority == o.priority && r.value.created == o.created && r.value.seqno <= o.seqno)
      ensures r.None? ==> NothingToPop(old(View()), sequential, now) && View() == Due(old(View()), now)
      ensures r.Some? ==> CanPop(old(View()), sequential, now, r.value) && View() == AfterPop(old(View()), now, r.value)
      ensures r.Some? ==> r.value.eta == 0
      ensures etaQueue.known <= old(etaQueue.known) && queue.known <= old(queue.known) + old(etaQueue.known)
      ensures etaQueue.Live() <= old(etaQueue.Live())
    {
      hide PriorityQueue.Valid, KeyLess;
      ReleaseDue(now);
      label released:
      assert forall o :: o in View().waiting ==> now < View().waiting[o];
      hide Due;
      var held := MustWait();
      if held {
        HeldBackOnFields(View(), sequential);
        return None;
      }
      r := queue.Pop();
      assert View().waiting == old@released(View()).waiting;
      if r.Some? {
        assert IsFirst(r.value, old@released(View()).ready);
        FirstOnFields(r.value, old@released(View()).ready);
        ghost var q, first := old@released(View()), r.value;
        forall e | e in q.waiting && sequential && IsEarliest(e, q.waiting) ensures !KeyLess(e, first) {
          HeldBackByAny(q, sequential, e, first);
        }
        forall e {
          NotAfterOnFields(first, e);
        }
      }
    }

    /** A sequential queue compares its earliest waiting job with its first ready one. */
    method MustWait() returns (held: bool)
      requires Valid()
      modifies queue, etaQueue
      ensures Valid() && View() == old(View()) && queue.known <= old(queue.known)
          && etaQueue.known <= old(etaQueue.known)
      ensures etaQueue.Live() == old(etaQueue.Live())
      ensures held <==> HeldBack(View(), sequential)
    {
      held := false;
      if sequential {
        var e := etaQueue.First();
        var f := queue.First();
        assert View() == old(View());
        if e.Some? && f.Some? {
          assert IsEarliest(e.value, View().waiting);
          assert IsFirst(f.value, View().ready);
          HeldBackByAny(View(), sequential, e.value, f.value);
          held := KeyLess(e.value, f.value);
        }
      }
    }

    method GetWakeupTime(wakeup: nat) returns (w: nat)
      requires Valid()
      modifies etaQueue
      ensures Valid() && View() == old(View())
      ensures etaQueue.known <= old(etaQueue.known)
      ensures View().waiting.Keys == {} ==> w == wakeup
      ensures View().waiting.Keys != {} ==>
                && (w == wakeup != 0 || exists j :: j in View().waiting && w == View().waiting[j])
                && (wakeup != 0 ==> w <= wakeup)
                && forall j :: j in View().waiting ==> w <= View().waiting[j]
    {
      w := wakeup;
      var first := etaQueue.First();
      assert View() == old(View());
      if first.Some? {
        assert first.value in View().waiting && View().waiting[first.value] == first.value.eta;
        if w == 0 || first.value.eta < w {
          w := first.value.eta;
        }
      }
    }
  }
}
