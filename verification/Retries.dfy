/** The retry counter of one job over whole runs. */
module Retries {
  import opened JobStates
  import opened StoredJobs

  /** One stored job. A worker that runs it works with the counter that it loaded. */
  datatype Life = Life(state: JobState, retry: int, maxRetries: int, loaded: map<nat, int>)

  datatype Change =
    | Enqueue                        // the runner enqueues a pending job
    | Unqueue                        // and takes that back when the request fails
    | Start(worker: nat)
    | End(worker: nat, attempt: Attempt, ready: bool)
    | Promote                        // the last parent is done
    | Requeue(ready: bool)           // by hand
    | FinishByHand
    | Cancel

  /** The counter and the state at the end of an attempt are those of `StoredJobs.AfterAttempt`. */
  function StateAfter(maxRetries: int, retry: int, a: Attempt, ready: bool): JobState {
    match EndingOf(maxRetries, retry, a)
    case Completes => Done
    case Fails => Failed
    case Postpones(_) => if ready then Pending else WaitDependencies
  }

  lemma EndsLikeAttempt(r: Record, a: Attempt, ready: bool, now: nat, pid: nat, wait: nat)
    ensures var s := AfterAttempt(r, a, ready, now, pid, wait);
            s.state == StateAfter(r.maxRetries, r.retry, a, ready) && s.retry == RetryAfter(r.retry, a)
                && s.maxRetries == r.maxRetries
  {
  }

  ghost predicate Changes(l: Life, c: Change, l': Life) {
    match c
    case Enqueue => l.state == Pending && l' == l.(state := Enqueued)
    case Unqueue => l.state == Enqueued && l' == l.(state := Pending)
    case Start(w) => l.state == Enqueued && w !in l.loaded
        && l' == l.(state := Started, loaded := l.loaded[w := l.retry])
    case End(w, a, ready) =>
      && w in l.loaded
      && l' == l.(state := StateAfter(l.maxRetries, l.loaded[w], a, ready), retry := RetryAfter(l.loaded[w], a),
                  loaded := l.loaded - {w})
    case Promote => l.state == WaitDependencies && l' == l.(state := Pending)
    case Requeue(ready) => l.state != WaitDependencies
        && l' == l.(state := if ready then Pending else WaitDependencies, retry := 0)
    case FinishByHand => l' == l.(state := Done)
    case Cancel => l' == l.(state := Cancelled)
  }

  /** The job still is to be run, or is being run. */
  predicate Awaits(s: JobState) {
    s == WaitDependencies || s == Pending || s == Enqueued || s == Started
  }

  /** A concurrency error of PostgreSQL after the counter was increased. */
  predicate IsCountedConflict(a: Attempt) {
    a == ConflictAtEnd || a == Performs(Conflict)
  }

  // ---------------------------------------------------------------- the bound

  /** No job that awaits its run, and no worker, has used up its retries. */
  ghost predicate WithinBound(l: Life) {
    l.maxRetries > 0 ==>
      && 0 <= l.retry <= l.maxRetries
      && (Awaits(l.state) ==> l.retry < l.maxRetries)
      && forall w :: w in l.loaded ==> 0 <= l.loaded[w] < l.maxRetries
  }

  /** One change keeps the bound, whoever else runs the job, unless it is the end of an attempt
      that PostgreSQL refused on the last retry. */
  lemma BoundIsKeptUnless(l: Life, c: Change, l': Life)
    requires WithinBound(l) && Changes(l, c, l') && l.maxRetries > 0
    ensures WithinBound(l') <==> !(c.End? && IsCountedConflict(c.attempt) && l.loaded[c.worker] + 1 == l.maxRetries)
  {
    if c.End? && IsCountedConflict(c.attempt) && l.loaded[c.worker] + 1 == l.maxRetries {
      assert Awaits(l'.state) && l'.retry == l.maxRetries;
    }
  }

  ghost predicate IsLife(lives: seq<Life>, changes: seq<Change>) {
    && |lives| == |changes| + 1
    && lives[0].state in {Pending, WaitDependencies} && lives[0].retry == 0 && lives[0].loaded == map[]
    && forall i: nat {:trigger IsChange(lives, changes, i)} :: i < |changes| ==> IsChange(lives, changes, i)
  }

  ghost predicate IsChange(lives: seq<Life>, changes: seq<Change>, i: nat) {
    i < |changes| && i + 1 < |lives| && Changes(lives[i], changes[i], lives[i + 1])
  }

  lemma IsLifeBefore(lives: seq<Life>, changes: seq<Change>)
    requires IsLife(lives, changes) && changes != []
    ensures IsLife(lives[..|lives| - 1], changes[..|changes| - 1])
    ensures Changes(lives[|lives| - 2], changes[|changes| - 1], lives[|lives| - 1])
  {
    var n := |changes| - 1;
    assert IsChange(lives, changes, n);
    var ls, cs := lives[..n + 1], changes[..n];
    forall i: nat | i < n ensures IsChange(ls, cs, i) {
      assert IsChange(lives, changes, i);
    }
  }

  /** In every run without such conflicts, and whatever workers overlap, the counter stays below
      the limit while the job awaits its run, and never goes above it. */
  lemma {:induction false} BoundOverRuns(lives: seq<Life>, changes: seq<Change>)
    requires IsLife(lives, changes) && lives[0].maxRetries > 0
    requires forall i :: 0 <= i < |changes| && changes[i].End? ==> !IsCountedConflict(changes[i].attempt)
    ensures WithinBound(lives[|lives| - 1]) && lives[|lives| - 1].maxRetries == lives[0].maxRetries
  {
    if changes == [] {
    } else {
      var n := |changes| - 1;
      IsLifeBefore(lives, changes);
      BoundOverRuns(lives[..n + 1], changes[..n]);
      BoundIsKeptUnless(lives[n], changes[n], lives[n + 1]);
    }
  }

  // ---------------------------------------------------------------- what the counter counts

  /** An attempt counts unless its error says otherwise, or it did not get to start. */
  predicate Counts(a: Attempt) {
    a != ConflictAtStart && !(a.Performs? && a.outcome.Retryable? && a.outcome.ignoreRetry)
  }

  /** The counted attempts since the job was created or last requeued by hand. */
  ghost function CountedSince(changes: seq<Change>): nat {
    if changes == [] then 0
    else
      var before := CountedSince(changes[..|changes| - 1]);
      match changes[|changes| - 1]
      case Requeue(_) => 0
      case End(_, a, _) => if Counts(a) then before + 1 else before
      case _ => before
  }

  /** One worker at a time, and none while the job is requeued. */
  ghost predicate IsSerial(lives: seq<Life>, changes: seq<Change>)
    requires |lives| == |changes| + 1
  {
    forall i {:trigger changes[i]} :: 0 <= i < |changes| && (changes[i].Start? || changes[i].Requeue?) ==>
        lives[i].loaded == map[]
  }

  lemma IsSerialBefore(lives: seq<Life>, changes: seq<Change>)
    requires |lives| == |changes| + 1 && changes != [] && IsSerial(lives, changes)
    ensures IsSerial(lives[..|lives| - 1], changes[..|changes| - 1])
  {
    var ls, cs := lives[..|lives| - 1], changes[..|changes| - 1];
    forall i {:trigger cs[i]} | 0 <= i < |cs| && (cs[i].Start? || cs[i].Requeue?) ensures ls[i].loaded == map[] {
      assert cs[i] == changes[i];
    }
  }

  /** The counter, and what a worker loaded, is the number of counted attempts. */
  lemma {:induction false} CounterCounts(lives: seq<Life>, changes: seq<Change>)
    requires IsLife(lives, changes) && IsSerial(lives, changes)
    ensures lives[|lives| - 1].retry == CountedSince(changes)
    ensures forall w :: w in lives[|lives| - 1].loaded ==> lives[|lives| - 1].loaded == map[w := CountedSince(changes)]
  {
    if changes == [] {
    } else {
      var n := |changes| - 1;
      IsLifeBefore(lives, changes);
      IsSerialBefore(lives, changes);
      CounterCounts(lives[..n + 1], changes[..n]);
      var l := lives[n];
      assert lives[..n + 1][n] == l;
      if changes[n].End? {
        var w := changes[n].worker;
        assert l.loaded == map[w := CountedSince(changes[..n])];
        assert l.loaded - {w} == map[];
      }
    }
  }

  /** So at most `maxRetries` counted attempts happen before the job is done, failed or requeued. */
  lemma AttemptsAreBounded(lives: seq<Life>, changes: seq<Change>)
    requires IsLife(lives, changes) && IsSerial(lives, changes) && lives[0].maxRetries > 0
    requires forall i :: 0 <= i < |changes| && changes[i].End? ==> !IsCountedConflict(changes[i].attempt)
    ensures CountedSince(changes) <= lives[0].maxRetries
    ensures Awaits(lives[|lives| - 1].state) ==> CountedSince(changes) < lives[0].maxRetries
  {
    BoundOverRuns(lives, changes);
    CounterCounts(lives, changes);
  }

  /** Conflicts alone can postpone a job for ever: as many as one likes, whatever the limit, and the job
      is pending. */
  lemma {:induction false} ConflictsAreNotBounded(n: nat, maxRetries: int)
      returns (lives: seq<Life>, changes: seq<Change>)
    ensures IsLife(lives, changes) && lives[0].maxRetries == maxRetries
    ensures lives[|lives| - 1] == Life(Pending, n, maxRetries, map[]) && CountedSince(changes) == n
  {
    if n == 0 {
      lives, changes := [Life(Pending, 0, maxRetries, map[])], [];
    } else {
      lives, changes := ConflictsAreNotBounded(n - 1, maxRetries);
      var l := lives[|lives| - 1];
      var started := Life(Started, n - 1, maxRetries, map[0 := n - 1]);
      lives, changes := OneMore(lives, changes, Enqueue, l.(state := Enqueued));
      lives, changes := OneMore(lives, changes, Start(0), started);
      assert started.loaded - {0} == map[];
      var last := Life(Pending, n, maxRetries, map[]);
      lives, changes := OneMore(lives, changes, End(0, Performs(Conflict), true), last);
    }
  }

  lemma OneMore(lives: seq<Life>, changes: seq<Change>, c: Change, l: Life)
      returns (lives': seq<Life>, changes': seq<Change>)
    requires IsLife(lives, changes) && Changes(lives[|lives| - 1], c, l)
    ensures lives' == lives + [l] && changes' == changes + [c] && IsLife(lives', changes')
    ensures CountedSince(changes') ==
            if c.Requeue? then 0
            else CountedSince(changes) + if c.End? && Counts(c.attempt) then 1 else 0
  {
    lives', changes' := lives + [l], changes + [c];
    assert changes'[..|changes|] == changes;
    forall i: nat | i < |changes'| ensures IsChange(lives', changes', i) {
      assert i < |changes| ==> IsChange(lives, changes, i);
    }
  }
}
