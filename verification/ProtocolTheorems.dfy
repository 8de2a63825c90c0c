/** What holds of every run of the protocol: nothing is lost, no job runs before its parents are
    done, and without failures everything gets done. */
module ProtocolTheorems {
  import opened Graphs
  import opened JobStates
  import opened StoredJobs
  import opened Protocol

  ghost predicate IsRun(dbs: seq<Db>, steps: seq<Step>) {
    && |dbs| == |steps| + 1
    && dbs[0] == Db(map[], map[])
    && forall i: nat {:trigger IsStep(dbs, steps, i)} :: i < |steps| ==> IsStep(dbs, steps, i)
  }

  ghost predicate IsStep(dbs: seq<Db>, steps: seq<Step>, i: nat) {
    i < |steps| && i + 1 < |dbs| && Next(dbs[i], steps[i], dbs[i + 1])
  }

  lemma {:induction false} InvAlways(dbs: seq<Db>, steps: seq<Step>, i: nat)
    requires IsRun(dbs, steps) && i < |dbs|
    ensures Inv(dbs[i])
  {
    if i == 0 {
    } else {
      InvAlways(dbs, steps, i - 1);
      assert IsStep(dbs, steps, i - 1);
      NextKeepsInv(dbs[i - 1], steps[i - 1], dbs[i]);
    }
  }

  /** In every run in which no worker gives up, a job that waits for dependencies that are all done
      has a parent whose `enqueue_waiting` is still to come. */
  lemma {:induction false} NoPromotionIsLost(dbs: seq<Db>, steps: seq<Step>, i: nat)
    requires IsRun(dbs, steps) && i < |dbs| && forall k :: 0 <= k < i ==> !steps[k].GiveUp?
    ensures NoneIsLost(dbs[i])
  {
    if i == 0 {
    } else {
      NoPromotionIsLost(dbs, steps, i - 1);
      InvAlways(dbs, steps, i - 1);
      assert IsStep(dbs, steps, i - 1);
      NextLosesNone(dbs[i - 1], steps[i - 1], dbs[i]);
    }
  }

  /** A worker that gives up loses a promotion exactly if it alone owed it. */
  lemma GivingUpLoses(s: Db, w: nat, s': Db)
    requires Inv(s) && NoneIsLost(s) && Next(s, GiveUp(w), s')
    ensures NoneIsLost(s') <==>
              forall u ::
                && u in s.rows && s.workers[w].uuid in s.rows[u].dependsOn
                && s.rows[u].state == WaitDependencies && ParentsDone(s.rows, u) ==>
                exists v :: v != w && IsOwing(s, v) && s.workers[v].uuid in s.rows[u].dependsOn
  {
    forall u | u in s.rows
        ensures IsOwed(s', u) <==> exists v :: v != w && IsOwing(s, v) && s.workers[v].uuid in s.rows[u].dependsOn {
      forall v ensures IsOwing(s', v) <==> v != w && IsOwing(s, v) {
      }
      if v :| v != w && IsOwing(s, v) && s.workers[v].uuid in s.rows[u].dependsOn {
        assert IsOwing(s', v) && s'.workers[v].uuid == s.workers[v].uuid;
      }
    }
    forall u | u in s.rows && s.workers[w].uuid !in s.rows[u].dependsOn && IsOwed(s, u) ensures IsOwed(s', u) {
      var v :| IsOwing(s, v) && s.workers[v].uuid in s.rows[u].dependsOn;
      assert IsOwing(s', v);
    }
  }

  // ---------------------------------------------------------------- no job runs too early

  /** The job may run, or runs. */
  predicate IsActive(s: JobState) {
    s == Pending || s == Enqueued || s == Started
  }

  ghost predicate IsSafe(s: Db) {
    forall u, p :: u in s.rows && IsActive(s.rows[u].state) && p in s.rows[u].dependsOn ==>
        p in s.rows && s.rows[p].state == Done
  }

  /** No parent of an active job has just stopped being done. */
  ghost predicate KeepsParentsDone(s: Db, s': Db) {
    forall u, p ::
      u in s'.rows && IsActive(s'.rows[u].state) && p in s'.rows[u].dependsOn && p in s.rows
          && s.rows[p].state == Done ==>
      p in s'.rows && s'.rows[p].state == Done
  }

  /** One step keeps all active jobs safe exactly if it takes no parent of theirs out of DONE, and
      the runner enqueues no job whose parents are not done. */
  lemma SafeExactlyIf(s: Db, step: Step, s': Db)
    requires Inv(s) && IsSafe(s) && Next(s, step, s')
    ensures IsSafe(s') <==> KeepsParentsDone(s, s') && (step.SetEnqueued? ==>
        step.uuid in s.rows && ParentsDone(s.rows, step.uuid))
  {
    hide Next, Inv;
    NextKeepsInv(s, step, s');
    if KeepsParentsDone(s, s') && (step.SetEnqueued? ==> step.uuid in s.rows && ParentsDone(s.rows, step.uuid)) {
      forall u, p | u in s'.rows && IsActive(s'.rows[u].state) && p in s'.rows[u].dependsOn ensures p in s'.rows
          && s'.rows[p].state == Done {
        ActiveHasParentsDone(s, step, s', u, p);
      }
    }
    if IsSafe(s') && step.SetEnqueued? {
      EnqueuedWasReady(s, step.uuid, s');
    }
  }

  lemma EnqueuedWasReady(s: Db, u: string, s': Db)
    requires Next(s, SetEnqueued(u), s') && IsSafe(s')
    ensures u in s.rows && ParentsDone(s.rows, u)
  {
    assert s'.rows[u].dependsOn == s.rows[u].dependsOn;
    forall p | p in s.rows[u].dependsOn && p in s.rows ensures s.rows[p].state == Done {
      assert s'.rows[p].state == Done;
    }
  }

  lemma ActiveHasParentsDone(s: Db, step: Step, s': Db, u: string, p: string)
    requires Inv(s) && IsSafe(s) && Next(s, step, s') && Inv(s') && KeepsParentsDone(s, s')
    requires step.SetEnqueued? ==> step.uuid in s.rows && ParentsDone(s.rows, step.uuid)
    requires u in s'.rows && IsActive(s'.rows[u].state) && p in s'.rows[u].dependsOn
    ensures p in s'.rows && s'.rows[p].state == Done
  {
    if u in s.rows {
      StepsOnStored(s, step, s', u);
      assert p in s.rows[u].dependsOn && p in s.rows && p != u;
      if IsActive(s.rows[u].state) || ParentsDone(s.rows, u) {
        assert s.rows[p].state == Done;
      }
    }
  }

  /** A stored job that is active after a step was so before, or its parents were all done, or the
      step is the button that does the last of them. */
  lemma StepsOnStored(s: Db, step: Step, s': Db, u: string)
    requires Inv(s) && Next(s, step, s') && u in s.rows
    ensures u in s'.rows && s'.rows[u].dependsOn == s.rows[u].dependsOn
    ensures IsActive(s'.rows[u].state) && !(step.SetEnqueued? && step.uuid == u) ==>
              || IsActive(s.rows[u].state) || ParentsDone(s.rows, u)
              || (step.ButtonDone? && forall p :: p in s.rows[u].dependsOn && p != step.uuid ==>
                  p in s.rows && s.rows[p].state == Done)
  {
    if step.ButtonDone? && IsActive(s'.rows[u].state) && !IsActive(s.rows[u].state) {
      var done := With(s.rows, step.uuid, Done);
      assert ParentsDone(done, u);
      forall p | p in s.rows[u].dependsOn && p != step.uuid ensures p in s.rows && s.rows[p].state == Done {
        assert done[p].state == Done;
      }
    }
  }

  /** Done jobs stay done, and the runner enqueues only pending jobs. */
  ghost predicate IsCareful(s: Db, step: Step, s': Db) {
    && (forall p :: p in s.rows && s.rows[p].state == Done ==> p in s'.rows && s'.rows[p].state == Done)
    && (step.SetEnqueued? && step.uuid in s.rows ==> s.rows[step.uuid].state == Pending)
  }

  lemma CarefulStaysSafe(s: Db, step: Step, s': Db)
    requires Inv(s) && IsSafe(s) && Next(s, step, s') && IsCareful(s, step, s')
    ensures IsSafe(s')
  {
    SafeExactlyIf(s, step, s');
  }

  /** In every careful run every active job has all its parents done. */
  lemma {:induction false} ParentsComeFirst(dbs: seq<Db>, steps: seq<Step>, i: nat)
    requires IsRun(dbs, steps) && i < |dbs|
    requires forall k {:trigger steps[k]} :: 0 <= k < i ==> IsCareful(dbs[k], steps[k], dbs[k + 1])
    ensures IsSafe(dbs[i])
  {
    if i == 0 {
    } else {
      ParentsComeFirst(dbs, steps, i - 1);
      InvAlways(dbs, steps, i - 1);
      assert IsStep(dbs, steps, i - 1);
      CarefulStaysSafe(dbs[i - 1], steps[i - 1], dbs[i]);
    }
  }

  /** Requeuing a done job is safe exactly if no active job depends on it. */
  lemma RequeueDone(s: Db, u: string, s': Db)
    requires Inv(s) && IsSafe(s) && u in s.rows && s.rows[u].state == Done && Next(s, Requeue(u), s')
    ensures IsSafe(s') <==> forall c :: c in s.rows[u].reverse ==> !IsActive(s.rows[c].state)
  {
    SafeExactlyIf(s, Requeue(u), s');
    if forall c :: c in s.rows[u].reverse ==> !IsActive(s.rows[c].state) {
      forall c, p | c in s'.rows && IsActive(s'.rows[c].state) && p in s'.rows[c].dependsOn && p in s.rows
          && s.rows[p].state == Done
        ensures p in s'.rows && s'.rows[p].state == Done
      {
        assert p in s.rows[c].dependsOn && c in s.rows[p].reverse && p != c;
      }
    }
    if IsSafe(s') {
      forall c | c in s.rows[u].reverse ensures !IsActive(s.rows[c].state) {
        assert u in s'.rows[c].dependsOn;
      }
    }
  }

  // ---------------------------------------------------------------- no deadlock

  /** From every job to the jobs that depend on it. */
  ghost function Dependents(rows: map<string, Row>): Adjacency<string> {
    map u | u in rows :: rows[u].reverse
  }

  /** The steps of jobs that succeed: enqueued when pending, started, finished, and the rest enqueued. */
  ghost predicate IsForward(s: Db, step: Step) {
    match step
    case SetEnqueued(u) => u in s.rows && s.rows[u].state == Pending
    case Start(_, _) => true
    case Finish(_) => true
    case EnqueueWaiting(_) => true
    case _ => false
  }

  ghost predicate AllDone(s: Db) {
    forall u :: u in s.rows ==> s.rows[u].state == Done
  }

  ghost predicate NoneStopped(s: Db) {
    forall u :: u in s.rows ==> s.rows[u].state != Failed && s.rows[u].state != Cancelled
  }

  /** Without cycles, some job that is not done has all its parents done. */
  lemma FirstUndone(s: Db) returns (u: string)
    requires Inv(s) && Acyclic(Dependents(s.rows)) && !AllDone(s)
    ensures u in s.rows && s.rows[u].state != Done && ParentsDone(s.rows, u)
  {
    var g := Dependents(s.rows);
    var stuck := set v | v in s.rows && s.rows[v].state != Done;
    if forall v :: v in stuck ==> Parents(g, v) * stuck != {} {
      var v :| v in s.rows && s.rows[v].state != Done;
      assert v in stuck;
      StuckMeansCycle(g, stuck);
    }
    u :| u in stuck && Parents(g, u) * stuck == {};
    forall p | p in s.rows[u].dependsOn && p in s.rows ensures s.rows[p].state == Done {
      assert u in g[p] && p in Parents(g, u) && p !in Parents(g, u) * stuck;
    }
  }

  /** As long as some job is not done, and none has failed or been cancelled, some step goes on. */
  lemma NoDeadlock(s: Db) returns (step: Step, s': Db)
    requires Inv(s) && NoneIsLost(s) && Acyclic(Dependents(s.rows)) && NoneStopped(s) && !AllDone(s)
    ensures Next(s, step, s') && IsForward(s, step)
  {
    var u := FirstUndone(s);
    match s.rows[u].state
    case WaitDependencies =>
      var w :| IsOwing(s, w) && s.workers[w].uuid in s.rows[u].dependsOn;
      step, s' := EnqueueWaiting(w), Db(Promoted(s.rows, s.workers[w].uuid), s.workers - {w});
    case Pending =>
      step, s' := SetEnqueued(u), s.(rows := With(s.rows, u, Enqueued));
    case Enqueued =>
      var w := FreeWorker(s.workers.Keys);
      step, s' := Start(w, u), Db(With(s.rows, u, Started), s.workers[w := Worker(u, Performing)]);
    case Started =>
      var w :| IsPerforming(s, w) && s.workers[w].uuid == u;
      step, s' := Finish(w), Db(With(s.rows, u, Done), s.workers[w := Worker(u, Owing(0))]);
  }

  lemma {:induction false} FreeWorker(ws: set<nat>) returns (w: nat)
    ensures forall v :: v in ws ==> v < w
    decreases ws
  {
    if ws == {} {
      w := 0;
    } else {
      var v :| v in ws;
      var x := FreeWorker(ws - {v});
      w := if x <= v then v + 1 else x;
      assert forall u :: u in ws ==> u == v || u in ws - {v};
    }
  }

  // ---------------------------------------------------------------- everything gets done

  /** The sum of the values. */
  ghost function Total<K>(m: map<K, nat>): nat
    decreases m.Keys
  {
    if m == map[] then 0
    else
      var k :| k in m;
      m[k] + Total(m - {k})
  }

  lemma {:induction false} TotalWithout<K>(m: map<K, nat>, k: K)
    requires k in m
    ensures Total(m) == m[k] + Total(m - {k})
    decreases m.Keys
  {
    var i :| i in m && Total(m) == m[i] + Total(m - {i});
    if i != k {
      TotalWithout(m - {i}, k);
      TotalWithout(m - {k}, i);
      assert m - {i} - {k} == m - {k} - {i};
    }
  }

  lemma TotalWith<K>(m: map<K, nat>, k: K, n: nat)
    ensures Total(m[k := n]) == n + Total(m - {k})
  {
    TotalWithout(m[k := n], k);
    assert m[k := n] - {k} == m - {k};
  }

  lemma {:induction false} TotalGrows<K>(m: map<K, nat>, n: map<K, nat>)
    requires m.Keys == n.Keys && forall k :: k in m ==> m[k] <= n[k]
    ensures Total(m) <= Total(n)
    decreases m.Keys
  {
    if m != map[] {
      var k :| k in m;
      TotalWithout(m, k);
      TotalWithout(n, k);
      TotalGrows(m - {k}, n - {k});
    }
  }

  function StateWork(s: JobState): nat {
    match s
    case WaitDependencies => 5
    case Pending => 4
    case Enqueued => 3
    case _ => 0
  }

  function PhaseWork(p: Phase): nat {
    if p == Performing then 2 else 1
  }

  ghost function RowsWork(rows: map<string, Row>): map<string, nat> {
    map u | u in rows :: StateWork(rows[u].state)
  }

  ghost function WorkersWork(workers: map<nat, Worker>): map<nat, nat> {
    map w | w in workers :: PhaseWork(workers[w].phase)
  }

  /** The steps that are left, at most. */
  ghost function Work(s: Db): nat {
    Total(RowsWork(s.rows)) + Total(WorkersWork(s.workers))
  }

  lemma WithWork(rows: map<string, Row>, u: string, st: JobState)
    requires u in rows
    ensures Total(RowsWork(With(rows, u, st))) == Total(RowsWork(rows)) - StateWork(rows[u].state) + StateWork(st)
  {
    var m := RowsWork(rows);
    assert RowsWork(With(rows, u, st)) == m[u := StateWork(st)];
    TotalWith(m, u, StateWork(st));
    TotalWithout(m, u);
  }

  lemma WorkerWork(workers: map<nat, Worker>, w: nat, x: Worker)
    ensures Total(WorkersWork(workers[w := x])) == PhaseWork(x.phase) + Total(WorkersWork(workers - {w}))
    ensures w in workers ==>
        Total(WorkersWork(workers)) == PhaseWork(workers[w].phase) + Total(WorkersWork(workers - {w}))
    ensures w !in workers ==> Total(WorkersWork(workers)) == Total(WorkersWork(workers - {w}))
  {
    var m := WorkersWork(workers);
    assert WorkersWork(workers[w := x]) == m[w := PhaseWork(x.phase)];
    assert WorkersWork(workers - {w}) == m - {w};
    TotalWith(m, w, PhaseWork(x.phase));
    if w in workers {
      TotalWithout(m, w);
    } else {
      assert workers - {w} == workers;
    }
  }

  /** Every forward step leaves less to do, so there are only so many of them. */
  lemma ForwardWorks(s: Db, step: Step, s': Db)
    requires Next(s, step, s') && IsForward(s, step)
    ensures Work(s') < Work(s)
  {
    hide RowsWork, WorkersWork, Total, With, Promoted;
    match step
    case SetEnqueued(u) => WithWork(s.rows, u, Enqueued);
    case Start(w, u) =>
      WithWork(s.rows, u, Started);
      WorkerWork(s.workers, w, Worker(u, Performing));
    case Finish(w) =>
      WithWork(s.rows, s.workers[w].uuid, Done);
      WorkerWork(s.workers, w, Worker(s.workers[w].uuid, Owing(0)));
    case EnqueueWaiting(w) =>
      WorkerWork(s.workers, w, s.workers[w]);
      PromotionWorks(s.rows, s.workers[w].uuid);
  }

  /** A job that waits is more to do than one that is pending. */
  lemma PromotionWorks(rows: map<string, Row>, u: string)
    requires u in rows
    ensures Total(RowsWork(Promoted(rows, u))) <= Total(RowsWork(rows))
  {
    TotalGrows(RowsWork(Promoted(rows, u)), RowsWork(rows));
  }

  /** All jobs are stored and only forward steps are left. */
  ghost predicate IsForwardRun(dbs: seq<Db>, steps: seq<Step>) {
    && |dbs| == |steps| + 1
    && Inv(dbs[0]) && NoneIsLost(dbs[0]) && NoneStopped(dbs[0]) && Acyclic(Dependents(dbs[0].rows))
    && forall i: nat {:trigger IsForwardStep(dbs, steps, i)} :: i < |steps| ==> IsForwardStep(dbs, steps, i)
  }

  ghost predicate IsForwardStep(dbs: seq<Db>, steps: seq<Step>, i: nat) {
    IsStep(dbs, steps, i) && IsForward(dbs[i], steps[i])
  }

  lemma ForwardKeeps(s: Db, step: Step, s': Db)
    requires Inv(s) && NoneIsLost(s) && NoneStopped(s) && Acyclic(Dependents(s.rows)) && Next(s, step, s')
        && IsForward(s, step)
    ensures Inv(s') && NoneIsLost(s') && NoneStopped(s') && Acyclic(Dependents(s'.rows))
  {
    hide Next, Inv, NoneIsLost, Acyclic, Dependents, NoneStopped, SameLinks;
    NextKeepsInv(s, step, s');
    NextLosesNone(s, step, s');
    StepsKeepLinks(s, step, s');
    SameDependents(s.rows, s'.rows);
    ForwardStopsNone(s, step, s');
  }

  lemma ForwardStopsNone(s: Db, step: Step, s': Db)
    requires NoneStopped(s) && Next(s, step, s') && IsForward(s, step)
    ensures NoneStopped(s')
  {
  }

  lemma SameDependents(rows: map<string, Row>, rows': map<string, Row>)
    requires SameLinks(rows, rows')
    ensures Dependents(rows') == Dependents(rows)
  {
  }

  /** Every run of forward steps is finite, and one that cannot go on has done every job. */
  lemma {:induction false} EverythingGetsDone(dbs: seq<Db>, steps: seq<Step>)
    requires IsForwardRun(dbs, steps)
    ensures |steps| + Work(dbs[|steps|]) <= Work(dbs[0])
    ensures AllDone(dbs[|steps|]) || exists step, s' :: Next(dbs[|steps|], step, s') && IsForward(dbs[|steps|], step)
    decreases |steps|
  {
    hide Next, Inv, NoneIsLost, NoneStopped, IsForward, Acyclic, Dependents, Work, AllDone;
    if steps == [] {
      if !AllDone(dbs[0]) {
        var step, s' := NoDeadlock(dbs[0]);
      }
    } else {
      assert IsForwardStep(dbs, steps, 0);
      ForwardKeeps(dbs[0], steps[0], dbs[1]);
      ForwardWorks(dbs[0], steps[0], dbs[1]);
      var ds, ts := dbs[1..], steps[1..];
      forall i: nat | i < |ts| ensures IsForwardStep(ds, ts, i) {
        assert IsForwardStep(dbs, steps, i + 1);
      }
      EverythingGetsDone(ds, ts);
    }
  }
}
