/** The stored jobs with their dependencies, and the steps by which they change: one database
    transaction each. Storing that a job is done and enqueuing the jobs that waited for it are two
    steps of the worker. */
module Protocol {
  import opened Graphs
  import opened JobStates
  import opened StoredJobs

  datatype Row = Row(state: JobState, dependsOn: set<string>, reverse: set<string>)

  /** A worker performs its job, or has done it and owes `enqueue_waiting`, tried so many times. */
  datatype Phase = Performing | Owing(tries: nat)
  datatype Worker = Worker(uuid: string, phase: Phase)

  datatype Db = Db(rows: map<string, Row>, workers: map<nat, Worker>)

  datatype Step =
    | Create(graph: Adjacency<string>)     // `delay` stores a graph of jobs
    | SetEnqueued(uuid: string)            // the runner, whatever the state is
    | SetPending(uuid: string)             // the runner, when its request failed
    | Start(worker: nat, uuid: string)
    | Finish(worker: nat)                  // done, or nothing to do
    | Postpone(worker: nat)
    | Fail(worker: nat)
    | EnqueueWaiting(worker: nat)
    | TryAgain(worker: nat)                // `enqueue_waiting` met a concurrency error
    | GiveUp(worker: nat)                  // once too often, or it met another error
    | ButtonDone(uuid: string)
    | ButtonCancelled(uuid: string)
    | Requeue(uuid: string)

  predicate ParentsDone(rows: map<string, Row>, u: string)
    requires u in rows
  {
    forall p :: p in rows[u].dependsOn && p in rows ==> rows[p].state == Done
  }

  function With(rows: map<string, Row>, u: string, s: JobState): map<string, Row>
    requires u in rows
  {
    rows[u := rows[u].(state := s)]
  }

  /** `enqueue_waiting` for job `u`: of the jobs that depend on it, those that wait for dependencies
      and have all their parents done become pending. */
  function Promoted(rows: map<string, Row>, u: string): map<string, Row>
    requires u in rows
  {
    map c | c in rows ::
      if c in rows[u].reverse && rows[c].state == WaitDependencies
          && ParentsDone(rows, c) then rows[c].(state := Pending) else rows[c]
  }

  /** The new rows of a graph, as `GraphJobs.LinkJobs` leaves them. */
  function NewRows(g: Adjacency<string>): map<string, Row> {
    map u | u in g :: Row(if Parents(g, u) == {} then Pending else WaitDependencies, Parents(g, u), g[u])
  }

  /** All jobs are in the graph, and none depends on itself. */
  ghost predicate CanBeCreated(g: Adjacency<string>) {
    EdgeClosed(g) && forall u :: u in g ==> u !in g[u]
  }

  ghost predicate Next(s: Db, step: Step, s': Db) {
    match step
    case Create(g) =>
      && CanBeCreated(g) && g.Keys !! s.rows.Keys
      && s' == s.(rows := s.rows + NewRows(g))
    case SetEnqueued(u) => u in s.rows && s' == s.(rows := With(s.rows, u, Enqueued))
    case SetPending(u) => u in s.rows && s.rows[u].state == Enqueued && s' == s.(rows := With(s.rows, u, Pending))
    case Start(w, u) =>
      && u in s.rows && s.rows[u].state == Enqueued && w !in s.workers
      && s' == Db(With(s.rows, u, Started), s.workers[w := Worker(u, Performing)])
    case Finish(w) =>
      && IsPerforming(s, w)
      && s' == Db(With(s.rows, s.workers[w].uuid, Done), s.workers[w := Worker(s.workers[w].uuid, Owing(0))])
    case Postpone(w) =>
      && IsPerforming(s, w)
      && var state := if ParentsDone(s.rows, s.workers[w].uuid) then Pending else WaitDependencies;
         s' == Db(With(s.rows, s.workers[w].uuid, state), s.workers - {w})
    case Fail(w) => IsPerforming(s, w) && s' == Db(With(s.rows, s.workers[w].uuid, Failed), s.workers - {w})
    case EnqueueWaiting(w) => IsOwing(s, w) && s' == Db(Promoted(s.rows, s.workers[w].uuid), s.workers - {w})
    case TryAgain(w) =>
      && IsOwing(s, w) && s.workers[w].phase.tries < DEPENDS_MAX_TRIES_ON_CONCURRENCY_FAILURE
      && s' == s.(workers := s.workers[w := Worker(s.workers[w].uuid, Owing(s.workers[w].phase.tries + 1))])
    case GiveUp(w) => IsOwing(s, w) && s' == s.(workers := s.workers - {w})
    case ButtonDone(u) => u in s.rows && s' == s.(rows := Promoted(With(s.rows, u, Done), u))
    case ButtonCancelled(u) => u in s.rows && s' == s.(rows := With(s.rows, u, Cancelled))
    case Requeue(u) =>
      && u in s.rows && s.rows[u].state != WaitDependencies
      && s' == s.(rows := With(s.rows, u, if ParentsDone(s.rows, u) then Pending else WaitDependencies))
  }

  predicate IsPerforming(s: Db, w: nat) {
    w in s.workers && s.workers[w].phase == Performing && s.workers[w].uuid in s.rows
  }

  predicate IsOwing(s: Db, w: nat) {
    w in s.workers && s.workers[w].phase.Owing? && s.workers[w].uuid in s.rows
  }

  // ---------------------------------------------------------------- what every step keeps

  /** Dependencies are among the stored jobs, and inverse to each other; no job has itself as one. */
  ghost predicate AreInverse(rows: map<string, Row>) {
    && (forall u, p :: u in rows && p in rows[u].dependsOn ==> p in rows && u in rows[p].reverse && p != u)
    && (forall u, c :: u in rows && c in rows[u].reverse ==> c in rows && u in rows[c].dependsOn)
  }

  /** Some worker owes `enqueue_waiting` for one of the parents. */
  ghost predicate IsOwed(s: Db, u: string)
    requires u in s.rows
  {
    exists w :: IsOwing(s, w) && s.workers[w].uuid in s.rows[u].dependsOn
  }

  ghost predicate IsPerformed(s: Db, u: string) {
    exists w :: IsPerforming(s, w) && s.workers[w].uuid == u
  }

  /** No promotion is lost: if a job waits for dependencies that are all done, some worker is still
      to enqueue it. */
  ghost predicate NoneIsLost(s: Db) {
    forall u :: u in s.rows && s.rows[u].state == WaitDependencies && ParentsDone(s.rows, u) ==> IsOwed(s, u)
  }

  ghost predicate Inv(s: Db) {
    && AreInverse(s.rows)
    && (forall w :: w in s.workers ==> s.workers[w].uuid in s.rows)
    && (forall u :: u in s.rows && s.rows[u].state == Started ==> IsPerformed(s, u))
  }

  /** A step other than `Create` touches no dependency. */
  ghost predicate SameLinks(rows: map<string, Row>, rows': map<string, Row>) {
    rows'.Keys == rows.Keys && forall u :: u in rows ==>
        rows'[u].dependsOn == rows[u].dependsOn && rows'[u].reverse == rows[u].reverse
  }

  lemma StepsKeepLinks(s: Db, step: Step, s': Db)
    requires Next(s, step, s') && !step.Create?
    ensures SameLinks(s.rows, s'.rows)
  {
  }

  lemma NewRowsAreInverse(g: Adjacency<string>)
    requires CanBeCreated(g)
    ensures AreInverse(NewRows(g))
  {
  }

  lemma SameLinksStayInverse(rows: map<string, Row>, rows': map<string, Row>)
    requires AreInverse(rows) && SameLinks(rows, rows')
    ensures AreInverse(rows')
  {
  }

  lemma WorkersHaveRows(s: Db, step: Step, s': Db)
    requires Inv(s) && Next(s, step, s')
    ensures forall w :: w in s'.workers ==> s'.workers[w].uuid in s'.rows
  {
    hide AreInverse;
  }

  lemma CreatedStayInverse(rows: map<string, Row>, g: Adjacency<string>)
    requires AreInverse(rows) && CanBeCreated(g) && g.Keys !! rows.Keys
    ensures AreInverse(rows + NewRows(g))
  {
    NewRowsAreInverse(g);
    hide NewRows;
  }

  lemma NextKeepsInv(s: Db, step: Step, s': Db)
    requires Inv(s) && Next(s, step, s')
    ensures Inv(s')
  {
    hide AreInverse;
    if step.Create? {
      CreatedStayInverse(s.rows, step.graph);
    } else {
      StepsKeepLinks(s, step, s');
      SameLinksStayInverse(s.rows, s'.rows);
    }
    hide Next;
    WorkersHaveRows(s, step, s');
    StartedIsPerformed(s, step, s');
  }

  lemma StartedIsPerformed(s: Db, step: Step, s': Db)
    requires Inv(s) && Next(s, step, s')
    ensures forall u :: u in s'.rows && s'.rows[u].state == Started ==> IsPerformed(s', u)
  {
    forall u | u in s'.rows && s'.rows[u].state == Started ensures IsPerformed(s', u) {
      if step.Start? && step.uuid == u {
        assert IsPerforming(s', step.worker);
      } else {
        assert u in s.rows && s.rows[u].state == Started;
        var w :| IsPerforming(s, w) && s.workers[w].uuid == u;
        assert IsPerforming(s', w);
      }
    }
  }

  /** As long as no worker gives up, no promotion is lost, in whatever order the steps come. */
  lemma NextLosesNone(s: Db, step: Step, s': Db)
    requires Inv(s) && NoneIsLost(s) && Next(s, step, s') && !step.GiveUp?
    ensures NoneIsLost(s')
  {
    forall u | u in s'.rows && s'.rows[u].state == WaitDependencies && ParentsDone(s'.rows, u) ensures IsOwed(s', u) {
      StillOwed(s, step, s', u);
    }
  }

  lemma StillOwed(s: Db, step: Step, s': Db, u: string)
    requires Inv(s) && NoneIsLost(s) && Next(s, step, s') && !step.GiveUp?
    requires u in s'.rows && s'.rows[u].state == WaitDependencies && ParentsDone(s'.rows, u)
    ensures IsOwed(s', u)
  {
    if u in s.rows && s.rows[u].state == WaitDependencies && ParentsDone(s.rows, u) {
      OwedStays(s, step, s', u);
    } else if u !in s.rows {
      NewRowWaits(s.rows, step.graph, u);
    } else if s.rows[u].state == WaitDependencies {
      var p :| p in s.rows[u].dependsOn && p in s.rows && s.rows[p].state != Done;
      JustDone(s, step, s', u, p);
    }
  }

  lemma NewRowWaits(rows: map<string, Row>, g: Adjacency<string>, u: string)
    requires u in g && g.Keys !! rows.Keys && NewRows(g)[u].state == WaitDependencies
    ensures !ParentsDone(rows + NewRows(g), u)
  {
    var p :| p in Parents(g, u);
    assert (rows + NewRows(g))[p].state != Done;
  }

  lemma OwedStays(s: Db, step: Step, s': Db, u: string)
    requires Inv(s) && Next(s, step, s') && !step.GiveUp?
    requires u in s.rows && s.rows[u].state == WaitDependencies && ParentsDone(s.rows, u) && IsOwed(s, u)
    requires u in s'.rows && s'.rows[u].state == WaitDependencies
    ensures IsOwed(s', u)
  {
    var w :| IsOwing(s, w) && s.workers[w].uuid in s.rows[u].dependsOn;
    assert u in s.rows[s.workers[w].uuid].reverse;
    assert IsOwing(s', w) && s'.workers[w].uuid in s'.rows[u].dependsOn;
  }

  /** A parent that has just been done: its worker owes the rest, or it was done by hand. */
  lemma JustDone(s: Db, step: Step, s': Db, u: string, p: string)
    requires Inv(s) && Next(s, step, s')
    requires u in s.rows && p in s.rows && p in s.rows[u].dependsOn && s.rows[p].state != Done
    requires u in s'.rows && s'.rows[u].state == WaitDependencies && ParentsDone(s'.rows, u)
    ensures IsOwed(s', u)
  {
    assert p in s'.rows && s'.rows[p].state == Done;
    if step.Finish? {
      assert IsOwing(s', step.worker) && s'.workers[step.worker].uuid == p;
    } else {
      assert step.ButtonDone? && step.uuid == p;
      assert u in s.rows[p].reverse;
      DoneByHandPromotes(s.rows, p, u);
    }
  }

  lemma DoneByHandPromotes(rows: map<string, Row>, p: string, u: string)
    requires p in rows && u in rows && u in rows[p].reverse
    ensures var rows' := Promoted(With(rows, p, Done), p);
            !(rows'[u].state == WaitDependencies && ParentsDone(rows', u))
  {
    var done := With(rows, p, Done);
    var rows' := Promoted(done, p);
    if rows'[u].state == WaitDependencies {
      assert !ParentsDone(done, u);
      var q :| q in done[u].dependsOn && q in done && done[q].state != Done;
      assert rows'[q].state != Done;
    }
  }

  /** What PostgreSQL says to one try of `enqueue_waiting`. */
  datatype Answer = Works | Conflicts | OtherError

  ghost predicate AreSteps(dbs: seq<Db>, steps: seq<Step>) {
    |dbs| == |steps| + 1 && forall i :: 0 <= i < |steps| ==> Next(dbs[i], steps[i], dbs[i + 1])
  }

  /** `_enqueue_dependent_jobs`, for whatever PostgreSQL says to each try: the jobs are enqueued
      unless it conflicts once too often, or gives another error. In the steps above this is
      `TryAgain` until `EnqueueWaiting` or `GiveUp` by worker `w`. */
  method EnqueueDependentJobs(rows: map<string, Row>, uuid: string, answers: nat -> Answer, ghost s: Db, ghost w: nat)
      returns (rows': map<string, Row>, raised: bool, ghost dbs: seq<Db>, ghost steps: seq<Step>)
    requires uuid in rows && s.rows == rows && w in s.workers && s.workers[w] == Worker(uuid, Owing(0))
    ensures raised <==>
            !exists n: nat :: n <= 5 && answers(n) == Works && forall i: nat :: i < n ==> answers(i) == Conflicts
    ensures rows' == if raised then rows else Promoted(rows, uuid)
    ensures AreSteps(dbs, steps) && dbs[0] == s && dbs[|steps|] == Db(rows', s.workers - {w})
    ensures steps != [] && forall i :: 0 <= i < |steps| ==>
        steps[i] == if i < |steps| - 1 then TryAgain(w) else if raised then GiveUp(w) else EnqueueWaiting(w)
  {
    var tries: nat := 0;
    dbs, steps := [s], [];
    while answers(tries) != Works
      invariant tries <= DEPENDS_MAX_TRIES_ON_CONCURRENCY_FAILURE
      invariant forall i: nat :: i < tries ==> answers(i) == Conflicts
      invariant AreSteps(dbs, steps) && dbs[0] == s && forall i :: 0 <= i < |steps| ==> steps[i] == TryAgain(w)
      invariant dbs[|steps|] == s.(workers := s.workers[w := Worker(uuid, Owing(tries))])
      decreases DEPENDS_MAX_TRIES_ON_CONCURRENCY_FAILURE - tries
    {
      if answers(tries) == OtherError || tries >= DEPENDS_MAX_TRIES_ON_CONCURRENCY_FAILURE {
        forall n: nat | answers(n) == Works && forall i: nat :: i < n ==> answers(i) == Conflicts ensures n > 5 {
          assert n > tries;
        }
        dbs, steps := dbs + [Db(rows, s.workers - {w})], steps + [GiveUp(w)];
        return rows, true, dbs, steps;
      }
      tries := tries + 1;
      dbs, steps := dbs + [s.(workers := s.workers[w := Worker(uuid, Owing(tries))])], steps + [TryAgain(w)];
    }
    dbs, steps := dbs + [Db(Promoted(rows, uuid), s.workers - {w})], steps + [EnqueueWaiting(w)];
    return Promoted(rows, uuid), false, dbs, steps;
  }
}
