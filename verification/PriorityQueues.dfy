/** The priority queue with lazy deletion that a channel queue is made of. */
module PriorityQueues {
  import opened ChannelJobs
  import opened Sequences

  /** All that `heapq` promises of a heap: its front is not larger than any of its items. */
  ghost predicate FrontIsLeast(heap: seq<ChannelJob>)
    reads heap
  {
    forall j :: j in heap && heap != [] ==> !Less(j, heap[0])
  }

  /** `heappush`: the new item goes to the front exactly if it is smaller than the front. */
  method HeapPush(heap: seq<ChannelJob>, x: ChannelJob) returns (r: seq<ChannelJob>)
    requires FrontIsLeast(heap) && NoDuplicates(heap) && x !in heap
    ensures FrontIsLeast(r) && NoDuplicates(r)
    ensures forall j :: j in r <==> j in heap || j == x
  {
    if heap != [] && Less(x, heap[0]) {
      forall j | j in heap ensures !Less(j, x) {
        LessIsWeakOrder(j, j.eta, x, x.eta, heap[0], heap[0].eta);
      }
      r := [x] + heap;
    } else {
      r := heap + [x];
    }
  }

  /** `heappop`: takes the front away and brings a smallest of the others there. */
  method HeapPop(heap: seq<ChannelJob>) returns (o: ChannelJob, r: seq<ChannelJob>)
    requires heap != [] && FrontIsLeast(heap) && NoDuplicates(heap)
    ensures o == heap[0] && |r| == |heap| - 1
    ensures FrontIsLeast(r) && NoDuplicates(r)
    ensures forall j :: j in heap <==> j in r || j == o
    ensures o !in r
  {
    o := heap[0];
    r := heap[1..];
    if r == [] {
      return;
    }
    var least := 0;
    for i := 1 to |r|
      invariant 0 <= least < |r|
      invariant forall k :: 0 <= k < i ==> !Less(r[k], r[least])
    {
      if Less(r[i], r[least]) {
        forall k | 0 <= k < i ensures !Less(r[k], r[i]) {
          LessIsWeakOrder(r[k], r[k].eta, r[i], r[i].eta, r[least], r[least].eta);
        }
        least := i;
      }
    }
    var swapped := r[0 := r[least]][least := r[0]];
    assert swapped[0] == r[least];
    forall j ensures j in swapped <==> j in r {
      if j in r {
        var k :| 0 <= k < |r| && r[k] == j;
        assert swapped[if k == 0 then least else if k == least then 0 else k] == j;
      }
    }
    r := swapped;
  }

  /** A heap from which any job can be taken out: the job stays there, marked, until it gets to the
      front. What the queue stands for is `Live()`. */
  class PriorityQueue {
    var heap: seq<ChannelJob>
    var known: set<ChannelJob>    // what the heap holds, marked or not
    var removed: set<ChannelJob>  // the marked ones

    ghost predicate Valid()
      reads this, known
    {
      && NoDuplicates(heap)
      && (forall j :: j in heap ==> j in known)
      && (forall j :: j in known ==> j in heap)
      && removed <= known
      && FrontIsLeast(heap)
    }

    ghost function Live(): (s: set<ChannelJob>)
      reads this
    {
      known - removed
    }

    constructor ()
      ensures Valid() && known == {} && Live() == {}
    {
      heap, known, removed := [], {}, {};
    }

    method Len() returns (n: nat)
      requires Valid()
      ensures n == |Live()|
    {
      assert |known| == |known - removed| + |removed| by {
        assert (known - removed) + removed == known;
      }
      n := |known| - |removed|;
    }

    method Contains(o: ChannelJob) returns (b: bool)
      ensures b <==> o in Live()
    {
      b := o in known && o !in removed;
    }

    /** `q[0]`: drops removed objects from the front; the live objects do not change. */
    method First() returns (o: Option<ChannelJob>)
      requires Valid()
      modifies this
      ensures Valid() && known <= old(known) && Live() == old(Live())
      ensures o.None? <==> Live() == {}
      ensures o.Some? ==> o.value in Live() && forall j :: j in Live() ==> !Less(j, o.value)
    {
      while true
        invariant Valid() && known <= old(known) && Live() == old(Live())
        decreases |heap|
      {
        if heap == [] {
          return None;
        }
        var front := heap[0];
        if front in removed {
          var o2, rest := HeapPop(heap);
          heap := rest;
          removed := removed - {front};
          known := known - {front};
        } else {
          assert front in Live();
          return Some(front);
        }
      }
    }

    method Add(o: ChannelJob)
      requires Valid()
      modifies this
      ensures Valid() && known == old(known) + {o} && Live() == old(Live()) + {o}
    {
      if o in removed {
        removed := removed - {o};
      }
      if o in known {
        return;
      }
      known := known + {o};
      heap := HeapPush(heap, o);
    }

    method Remove(o: ChannelJob)
      requires Valid()
      modifies this
      ensures Valid() && known == old(known) && Live() == old(Live()) - {o}
    {
      if o !in known {
        return;
      }
      if o !in removed {
        removed := removed + {o};
      }
    }

    method Pop() returns (o: Option<ChannelJob>)
      requires Valid()
      modifies this
      ensures Valid() && known <= old(known)
      ensures o.None? <==> old(Live()) == {}
      ensures o.None? ==> Live() == {}
      ensures o.Some? ==> o.value in old(Live()) && o.value !in known && Live() == old(Live()) - {o.value}
      ensures o.Some? ==> forall j :: j in old(Live()) ==> !Less(j, o.value)
    {
      while true
        invariant Valid() && known <= old(known) && Live() == old(Live())
        decreases |heap|
      {
        if heap == [] {
          return None;
        }
        var front, rest := HeapPop(heap);
        heap := rest;
        known := known - {front};
        if front in removed {
          removed := removed - {front};
        } else {
          assert front in old(Live());
          return Some(front);
        }
      }
    }
  }
}
