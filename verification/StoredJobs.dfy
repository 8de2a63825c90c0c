/** One stored job: its changes of state, one attempt to run it, and how long it is postponed. */
module StoredJobs {
  import opened Sequences
  import opened JobStates
  import opened Graphs

  const RETRY_INTERVAL := 600
  const PG_RETRY := 5
  const DEPENDS_MAX_TRIES_ON_CONCURRENCY_FAILURE := 5

  // ---------------------------------------------------------------- how long to postpone

  /** A value of the retry pattern: some seconds, or a range to draw from. */
  datatype Pause = Seconds(seconds: nat) | Between(least: nat, most: nat)

  /** How long to postpone from a number of retries on. */
  type RetryPattern = map<int, Pause>

  predicate IsPattern(pattern: RetryPattern) {
    forall k :: k in pattern && pattern[k].Between? ==> pattern[k].least <= pattern[k].most
  }

  predicate Within(n: nat, p: Pause) {
    match p
    case Seconds(s) => n == s
    case Between(least, most) => least <= n <= most
  }

  /** `k` is the largest threshold that `retry` has reached. */
  ghost predicate IsReached(pattern: RetryPattern, retry: int, k: int) {
    k in pattern && k <= retry && forall i :: i in pattern && i <= retry ==> i <= k
  }

  /** What the pattern says for so many retries. */
  ghost predicate IsPauseFor(pattern: RetryPattern, retry: int, p: Pause) {
    && (forall k :: IsReached(pattern, retry, k) ==> p == pattern[k])
    && ((forall k :: k in pattern ==> retry < k) ==> p == Seconds(RETRY_INTERVAL))
  }

  /** The thresholds from low to high. */
  method Thresholds(pattern: RetryPattern) returns (ks: seq<int>)
    ensures forall i, k :: 0 <= i < k < |ks| ==> ks[i] < ks[k]
    ensures AsSet(ks) == pattern.Keys
  {
    ks := [];
    var rest := pattern.Keys;
    while rest != {}
      invariant AsSet(ks) !! rest && AsSet(ks) + rest == pattern.Keys
      invariant forall i, k :: 0 <= i < k < |ks| ==> ks[i] < ks[k]
      invariant forall i, r :: 0 <= i < |ks| && r in rest ==> ks[i] < r
    {
      var k := Least(rest);
      AppendAsSet(ks, k);
      ks := ks + [k];
      rest := rest - {k};
    }
  }

  method Least(s: set<int>) returns (k: int)
    requires s != {}
    ensures k in s && forall i :: i in s ==> k <= i
  {
    var rest := s;
    HasMember(rest);
    k :| k in rest;
    rest := rest - {k};
    while rest != {}
      invariant k in s - rest && rest <= s
      invariant forall i :: i in s ==> i in rest || k <= i
    {
      HasMember(rest);
      var o :| o in rest;
      if o < k {
        k := o;
      }
      rest := rest - {o};
    }
  }

  lemma HasMember(s: set<int>)
    requires s != {}
    ensures exists i :: i in s
  {
    assert (forall i :: i !in s) ==> s == {};
  }

  /** `randint`, with the chance given. */
  method RandInt(least: nat, most: nat, chance: nat) returns (n: nat)
    requires least <= most
    ensures least <= n <= most
  {
    n := least + chance % (most - least + 1);
  }

  // ---------------------------------------------------------------- one job

  /** What is stored of a job; times and the process id are 0 where there is none. */
  datatype Record = Record(state: JobState, retry: int, maxRetries: int, eta: nat, enqueuedAt: nat,
                           startedAt: nat, doneAt: nat, cancelledAt: nat, pid: nat)

  /** How the method of a job ends. `Conflict` is a concurrency error of PostgreSQL. */
  datatype Outcome = Returned | NothingToDo | Retryable(seconds: nat, ignoreRetry: bool) | Raised | Conflict

  /** One attempt: PostgreSQL can also refuse to store that the job starts or that it is done. */
  datatype Attempt = ConflictAtStart | Performs(outcome: Outcome) | ConflictAtEnd

  datatype Ending = Completes | Postpones(seconds: nat) | Fails

  /** The retry counter after the attempt. */
  function RetryAfter(retry: int, a: Attempt): int {
    match a
    case ConflictAtStart => retry
    case Performs(Retryable(_, ignoreRetry)) => if ignoreRetry then retry else retry + 1
    case _ => retry + 1
  }

  /** How the attempt ends: only a retryable error of the method itself looks at the limit. */
  function EndingOf(maxRetries: int, retry: int, a: Attempt): Ending {
    match a
    case ConflictAtStart => Postpones(PG_RETRY)
    case ConflictAtEnd => Postpones(PG_RETRY)
    case Performs(Returned) => Completes
    case Performs(NothingToDo) => Completes
    case Performs(Raised) => Fails
    case Performs(Conflict) => Postpones(PG_RETRY)
    case Performs(Retryable(seconds, ignoreRetry)) =>
      if ignoreRetry || maxRetries == 0 || retry + 1 < maxRetries then Postpones(seconds) else Fails
  }

  /** What is stored at the end of an attempt, when the parents are all done or not, and the pause
      turned out to be `wait` seconds. */
  function AfterAttempt(r: Record, a: Attempt, ready: bool, now: nat, pid: nat, wait: nat): Record {
    var counted := r.(retry := RetryAfter(r.retry, a));
    match EndingOf(r.maxRetries, r.retry, a)
    case Completes => counted.(state := Done, startedAt := now, doneAt := now, pid := pid)
    case Fails => counted.(state := Failed, startedAt := now, pid := pid)
    case Postpones(_) =>
      counted.(state := if ready then Pending else WaitDependencies, eta := if wait == 0 then 0 else now + wait,
               enqueuedAt := 0, startedAt := 0, doneAt := 0, cancelledAt := 0, pid := 0)
  }

  /** The pause after an attempt: as the error says, else as the pattern says for the new count. */
  ghost predicate IsWait(pattern: RetryPattern, r: Record, a: Attempt, wait: nat) {
    match EndingOf(r.maxRetries, r.retry, a)
    case Postpones(seconds) =>
      if seconds != 0 then wait == seconds
      else exists p :: IsPauseFor(pattern, RetryAfter(r.retry, a), p) && Within(wait, p)
    case _ => true
  }

  /** What an attempt stores, on its fields. */
  lemma AttemptOnFields(r: Record, a: Attempt, ready: bool, now: nat, pid: nat, wait: nat)
    ensures var s := AfterAttempt(r, a, ready, now, pid, wait);
            && s.maxRetries == r.maxRetries
            && s.retry == r.retry + (if a == ConflictAtStart
                || (a.Performs? && a.outcome.Retryable? && a.outcome.ignoreRetry) then 0 else 1)
            && if a == Performs(Returned) || a == Performs(NothingToDo) then
                 && s.state == Done && s.startedAt == now && s.doneAt == now && s.pid == pid
                 && s.eta == r.eta && s.enqueuedAt == r.enqueuedAt && s.cancelledAt == r.cancelledAt
               else if a == Performs(Raised) || (a.Performs? && a.outcome.Retryable? && !a.outcome.ignoreRetry
                   && r.maxRetries != 0 && r.retry + 1 >= r.maxRetries) then
                 && s.state == Failed && s.startedAt == now && s.pid == pid
                 && s.eta == r.eta && s.enqueuedAt == r.enqueuedAt && s.doneAt == r.doneAt
                 && s.cancelledAt == r.cancelledAt
               else
                 && s.state == (if ready then Pending else WaitDependencies)
                 && s.eta == (if wait == 0 then 0 else now + wait)
                 && s.enqueuedAt == s.startedAt == s.doneAt == s.cancelledAt == s.pid == 0
  {
  }

  lemma PauseIsReached(pattern: RetryPattern, ks: seq<int>, retry: int, i: nat, pause: Pause)
    requires AsSet(ks) == pattern.Keys && forall n, k :: 0 <= n < k < |ks| ==> ks[n] < ks[k]
    requires i <= |ks| && (forall k :: 0 <= k < i ==> ks[k] <= retry) && (i < |ks| ==> retry < ks[i])
    requires i == 0 ==> pause == Seconds(RETRY_INTERVAL)
    requires i > 0 ==> ks[i - 1] in pattern && pause == pattern[ks[i - 1]]
    ensures IsPauseFor(pattern, retry, pause)
  {
    forall k | k in pattern ensures exists n :: 0 <= n < |ks| && ks[n] == k {
      assert k in AsSet(ks);
    }
    forall k | IsReached(pattern, retry, k) ensures pause == pattern[k] {
      var n :| 0 <= n < |ks| && ks[n] == k;
      assert n < i;
    }
    assert i > 0 ==> ks[i - 1] in pattern && ks[i - 1] <= retry;
  }

  class Job {
    const uuid: string
    const pattern: RetryPattern
    var state: JobState
    var retry: int
    var maxRetries: int
    var eta: nat
    var enqueuedAt: nat
    var startedAt: nat
    var doneAt: nat
    var cancelledAt: nat
    var pid: nat
    var dependsOn: set<Job>
    var reverseDependsOn: set<Job>

    ghost function View(): Record
      reads this`state, this`retry, this`maxRetries, this`eta, this`enqueuedAt, this`startedAt, this`doneAt,
          this`cancelledAt, this`pid
    {
      Record(state, retry, maxRetries, eta, enqueuedAt, startedAt, doneAt, cancelledAt, pid)
    }

    constructor (uuid: string, pattern: RetryPattern, maxRetries: int, eta: nat)
      ensures this.uuid == uuid && this.pattern == pattern
      ensures View() == Record(Pending, 0, maxRetries, eta, 0, 0, 0, 0, 0)
      ensures dependsOn == {} && reverseDependsOn == {}
    {
      this.uuid, this.pattern, this.maxRetries, this.eta := uuid, pattern, maxRetries, eta;
      state, retry, dependsOn, reverseDependsOn := Pending, 0, {}, {};
      enqueuedAt, startedAt, doneAt, cancelledAt, pid := 0, 0, 0, 0, 0;
    }

    /** All parents are done. */
    predicate Ready()
      reads this`dependsOn, dependsOn`state
    {
      forall j :: j in dependsOn ==> j.state == Done
    }

    method SetPending(resetRetry: bool)
      modifies this`state, this`retry, this`enqueuedAt, this`startedAt, this`doneAt, this`cancelledAt, this`pid
      ensures state == if old(forall j :: j in dependsOn ==> j.state == Done) then Pending else WaitDependencies
      ensures View() == old(View()).(state := if old(Ready()) then Pending else WaitDependencies,
                                     enqueuedAt := 0, startedAt := 0, doneAt := 0, cancelledAt := 0, pid := 0,
                                     retry := if resetRetry then 0 else old(retry))
    {
      state := if Ready() then Pending else WaitDependencies;
      enqueuedAt, startedAt, doneAt, pid, cancelledAt := 0, 0, 0, 0, 0;
      if resetRetry {
        retry := 0;
      }
    }

    method SetStarted(now: nat, worker: nat)
      modifies this`state, this`startedAt, this`pid
      ensures View() == old(View()).(state := Started, startedAt := now, pid := worker)
    {
      state, startedAt, pid := Started, now, worker;
    }

    method SetDone(now: nat)
      modifies this`state, this`doneAt
      ensures View() == old(View()).(state := Done, doneAt := now)
    {
      state, doneAt := Done, now;
    }

    method SetCancelled(now: nat)
      modifies this`state, this`cancelledAt
      ensures View() == old(View()).(state := Cancelled, cancelledAt := now)
    {
      state, cancelledAt := Cancelled, now;
    }

    method SetFailed()
      modifies this`state
      ensures View() == old(View()).(state := Failed)
    {
      state := Failed;
    }

    /** Runs the method of the job, which ends with `outcome`, and gives what is raised for it. */
    method Perform(outcome: Outcome) returns (raised: Outcome)
      modifies this`retry
      ensures retry == old(retry) + if outcome.Retryable? && outcome.ignoreRetry then 0 else 1
      ensures raised == if outcome.Retryable? && !outcome.ignoreRetry && maxRetries != 0 && old(retry) + 1 >= maxRetries
                        then Raised else outcome
      ensures retry == RetryAfter(old(retry), Performs(outcome))
      ensures raised == if EndingOf(maxRetries, old(retry), Performs(outcome)).Fails? then Raised else outcome
    {
      retry := retry + 1;
      if outcome.Retryable? {
        if outcome.ignoreRetry {
          retry := retry - 1;
          return outcome;
        } else if maxRetries == 0 {
          return outcome;
        } else if retry >= maxRetries {
          return Raised;
        }
      }
      raised := outcome;
    }

    /** `_get_retry_seconds` */
    method GetRetrySeconds(seconds: nat, chance: nat) returns (n: nat)
      requires IsPattern(pattern)
      ensures seconds != 0 ==> n == seconds
      ensures seconds == 0 && (forall k :: k in pattern ==> retry < k) ==> n == 600
      ensures seconds == 0 ==>
                forall k :: k in pattern && k <= retry && (forall i :: i in pattern && i <= retry ==> i <= k) ==>
                  match pattern[k] case Seconds(s) => n == s case Between(least, most) => least <= n <= most
      ensures seconds == 0 ==> exists p :: IsPauseFor(pattern, retry, p) && Within(n, p)
    {
      if seconds != 0 {
        return seconds;
      }
      var pause := Seconds(RETRY_INTERVAL);
      var ks := Thresholds(pattern);
      var i := 0;
      while i < |ks| && retry >= ks[i]
        invariant 0 <= i <= |ks|
        invariant pause ==
                  if i == 0 then Seconds(RETRY_INTERVAL) else (assert ks[i - 1] in AsSet(ks); pattern[ks[i - 1]])
        invariant forall k :: 0 <= k < i ==> ks[k] <= retry
      {
        assert ks[i] in AsSet(ks);
        pause := pattern[ks[i]];
        i := i + 1;
      }
      PauseIsReached(pattern, ks, retry, i, pause);
      assert i > 0 ==> ks[i - 1] in AsSet(ks);
      match pause
      case Seconds(s) => n := s;
      case Between(least, most) => n := RandInt(least, most, chance);
      assert Within(n, pause);
    }

    method Postpone(seconds: nat, now: nat, chance: nat) returns (ghost wait: nat)
      requires IsPattern(pattern)
      modifies this`eta
      ensures eta == if wait == 0 then 0 else now + wait
      ensures seconds != 0 ==> wait == seconds
      ensures seconds == 0 && (forall k :: k in pattern ==> retry < k) ==> wait == 600
      ensures seconds == 0 ==>
                forall k :: k in pattern && k <= retry && (forall i :: i in pattern && i <= retry ==> i <= k) ==>
                  match pattern[k] case Seconds(s) => wait == s case Between(least, most) => least <= wait <= most
      ensures seconds == 0 ==> exists p :: IsPauseFor(pattern, retry, p) && Within(wait, p)
    {
      var n := GetRetrySeconds(seconds, chance);
      eta := if n == 0 then 0 else now + n;
      wait := n;
    }

    /** `_try_perform_job`, and what is raised: nothing is changed when the start is refused, and a job
        that returns has been done when PostgreSQL refuses the rest. */
    method TryPerform(a: Attempt, now: nat, worker: nat) returns (raised: Outcome)
      modifies this`state, this`retry, this`startedAt, this`doneAt, this`pid
      ensures raised ==
              if !a.Performs? then Conflict
              else if a.outcome.Retryable? && !a.outcome.ignoreRetry && maxRetries != 0 && old(retry) + 1 >= maxRetries
              then Raised else a.outcome
      ensures a == ConflictAtStart ==> View() == old(View())
      ensures a != ConflictAtStart ==>
                var done := a == ConflictAtEnd || a.outcome == Returned;
                View() == old(View()).(state := if done then Done else Started, retry := RetryAfter(old(retry), a),
                                       startedAt := now, doneAt := if done then now else old(doneAt), pid := worker)
    {
      if a == ConflictAtStart {
        return Conflict;
      }
      SetStarted(now, worker);
      raised := Perform(if a == ConflictAtEnd then Returned else a.outcome);
      if raised == Returned {
        SetDone(now);
        if a == ConflictAtEnd {
          raised := Conflict;
        }
      }
    }

    /** `retry_postpone` */
    method RetryPostpone(seconds: nat, now: nat, chance: nat) returns (ghost wait: nat)
      requires IsPattern(pattern) && this !in dependsOn
      modifies this`state, this`retry, this`eta, this`enqueuedAt, this`startedAt, this`doneAt, this`cancelledAt,
          this`pid
      ensures View() == old(View()).(state := if old(forall j :: j in dependsOn ==> j.state == Done) then Pending
                                              else WaitDependencies,
                                     eta := if wait == 0 then 0 else now + wait,
                                     enqueuedAt := 0, startedAt := 0, doneAt := 0, cancelledAt := 0, pid := 0)
      ensures seconds != 0 ==> wait == seconds
      ensures seconds == 0 && (forall k :: k in pattern ==> retry < k) ==> wait == 600
      ensures seconds == 0 ==>
                forall k :: k in pattern && k <= retry && (forall i :: i in pattern && i <= retry ==> i <= k) ==>
                  match pattern[k] case Seconds(s) => wait == s case Between(least, most) => least <= wait <= most
      ensures seconds == 0 ==> exists p :: IsPauseFor(pattern, retry, p) && Within(wait, p)
    {
      wait := Postpone(seconds, now, chance);
      SetPending(false);
    }

    /** `runjob`: one attempt, if the job is enqueued. It says whether the jobs that depend on it
        are still to be enqueued. */
    method RunJob(a: Attempt, now: nat, worker: nat, chance: nat) returns (owes: bool, ghost wait: nat)
      requires IsPattern(pattern) && this !in dependsOn
      modifies this`state, this`retry, this`eta, this`enqueuedAt, this`startedAt, this`doneAt, this`cancelledAt,
          this`pid
      ensures old(state) != Enqueued ==> !owes && View() == old(View())
      ensures old(state) == Enqueued ==>
                && (owes <==> state == Done)
                && (state == Done <==> a == Performs(Returned) || a == Performs(NothingToDo))
                && (state == Failed <==>
                      || a == Performs(Raised)
                      || (a.Performs? && a.outcome.Retryable? && !a.outcome.ignoreRetry
                          && maxRetries != 0 && old(retry) + 1 >= maxRetries))
                && (state != Done && state != Failed ==>
                      && state == (if old(forall j :: j in dependsOn ==> j.state == Done) then Pending
                                   else WaitDependencies)
                      && eta == (if wait == 0 then 0 else now + wait)
                      && (!a.Performs? || a.outcome == Conflict ==> wait == 5)
                      && (a.Performs? && a.outcome.Retryable? && a.outcome.seconds != 0 ==> wait == a.outcome.seconds))
      ensures old(state) == Enqueued && state != Done && state != Failed && a.Performs? && a.outcome.Retryable?
              && a.outcome.seconds == 0 ==>
                && ((forall k :: k in pattern ==> retry < k) ==> wait == 600)
                && forall k :: k in pattern && k <= retry && (forall i :: i in pattern && i <= retry ==> i <= k) ==>
                     match pattern[k] case Seconds(s) => wait == s case Between(least, most) => least <= wait <= most
      ensures old(state) == Enqueued ==>
                && View() == AfterAttempt(old(View()), a, old(Ready()), now, worker, wait)
                && IsWait(pattern, old(View()), a, wait)
                && (owes <==> EndingOf(maxRetries, old(retry), a).Completes?)
    {
      owes, wait := false, 0;
      if state != Enqueued {
        return;
      }
      hide IsPauseFor, Within;
      var raised := TryPerform(a, now, worker);
      match raised
      case Returned => owes := true;
      case NothingToDo =>
        SetDone(now);
        owes := true;
      case Retryable(seconds, _) =>
        wait := RetryPostpone(seconds, now, chance);
      case Conflict =>
        wait := RetryPostpone(PG_RETRY, now, chance);
      case Raised => SetFailed();
    }

    /** `add_depends`; a job cannot depend on itself. */
    method AddDepends(jobs: set<Job>) returns (ok: bool)
      modifies this`dependsOn, this`state, jobs`reverseDependsOn
      ensures ok <==> this !in jobs
      ensures !ok ==> dependsOn == old(dependsOn) && state == old(state) && forall j :: j in jobs ==>
          j.reverseDependsOn == old(j.reverseDependsOn)
      ensures ok ==> dependsOn == old(dependsOn) + jobs && forall j :: j in jobs ==>
          j.reverseDependsOn == old(j.reverseDependsOn) + {this}
      ensures ok ==> state == if exists j :: j in jobs && old(j.state) != Done then WaitDependencies else old(state)
    {
      if this in jobs {
        return false;
      }
      ok := true;
      dependsOn := dependsOn + jobs;
      var parents := jobs;
      while parents != {}
        invariant parents <= jobs && dependsOn == old(dependsOn) + jobs && state == old(state)
        invariant forall j :: j in jobs ==>
            j.reverseDependsOn == old(j.reverseDependsOn) + if j in parents then {} else {this}
      {
        var parent :| parent in parents;
        parent.reverseDependsOn := parent.reverseDependsOn + {this};
        parents := parents - {parent};
      }
      if exists j :: j in jobs && j.state != Done {
        state := WaitDependencies;
      }
    }
  }
}
