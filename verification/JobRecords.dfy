/** The table of stored jobs, and the buttons that change their states by hand. Every call is a
    sequence of steps of the protocol. */
module JobRecords {
  import opened JobStates
  import opened Sequences
  import opened StoredJobs
  import opened Protocol
  import Retries

  ghost function Uuids(jobs: set<Job>): set<string> {
    set j | j in jobs :: j.uuid
  }

  /** Uuids are unique, and dependencies are among the jobs of the table. */
  ghost predicate IsTable(table: set<Job>)
    reads table`dependsOn, table`reverseDependsOn
  {
    && (forall i, j :: i in table && j in table && i.uuid == j.uuid ==> i == j)
    && forall j :: j in table ==> j.dependsOn <= table && j.reverseDependsOn <= table
  }

  ghost function RowOf(j: Job): Row
    reads j`state, j`dependsOn, j`reverseDependsOn
  {
    Row(j.state, Uuids(j.dependsOn), Uuids(j.reverseDependsOn))
  }

  ghost function RowsOf(table: set<Job>): map<string, Row>
    requires IsTable(table)
    reads table
  {
    map j | j in table :: j.uuid := RowOf(j)
  }

  lemma ReadyMeansParentsDone(table: set<Job>, j: Job)
    requires IsTable(table) && j in table
    ensures j.Ready() <==> ParentsDone(RowsOf(table), j.uuid)
  {
    var rows := RowsOf(table);
    forall p | p in j.dependsOn ensures p.uuid in rows && rows[p.uuid].state == p.state
        && p.uuid in rows[j.uuid].dependsOn {
    }
    forall u | u in rows[j.uuid].dependsOn
        ensures exists p :: p in j.dependsOn && p.uuid == u && rows[u].state == p.state {
      var p :| p in j.dependsOn && p.uuid == u;
    }
  }

  /** Row by row, only the states differ. */
  lemma OnlyStates(table: set<Job>, rows: map<string, Row>)
    requires IsTable(table) && rows.Keys == Uuids(table)
    requires forall j :: j in table ==> rows[j.uuid] == RowOf(j)
    ensures RowsOf(table) == rows
  {
  }

  /** `enqueue_waiting` for some of the jobs that depend on `u`. */
  ghost function PromotedSome(rows: map<string, Row>, u: string, cs: set<string>): map<string, Row>
    requires u in rows
  {
    map c | c in rows :: if c in cs then Promoted(rows, u)[c] else rows[c]
  }

  /** The table holds these rows. */
  ghost predicate Holds(table: set<Job>, rows: map<string, Row>)
    reads table
  {
    IsTable(table) && RowsOf(table) == rows
  }

  lemma HoldsRow(table: set<Job>, rows: map<string, Row>, j: Job)
    requires Holds(table, rows) && j in table
    ensures j.uuid in rows && rows[j.uuid] == RowOf(j) && (j.Ready() <==> ParentsDone(rows, j.uuid))
  {
    ReadyMeansParentsDone(table, j);
  }

  /** The rows of the table, one by one. */
  lemma RowsOneByOne(table: set<Job>, rows: map<string, Row>)
    requires Holds(table, rows)
    ensures IsTable(table) && rows.Keys == Uuids(table) && forall j :: j in table ==> rows[j.uuid] == RowOf(j)
  {
  }

  /** When one job of the table has changed its state, one row has changed. */
  lemma OneStateChanged(table: set<Job>, rows: map<string, Row>, job: Job)
    requires IsTable(table) && rows.Keys == Uuids(table) && job in table
    requires forall j :: j in table && j != job ==> rows[j.uuid] == RowOf(j)
    requires rows[job.uuid] == RowOf(job).(state := rows[job.uuid].state)
    ensures Holds(table, With(rows, job.uuid, job.state))
  {
    OnlyStates(table, With(rows, job.uuid, job.state));
  }

  /** One job changes its state. */
  method SetState(job: Job, state: JobState, ghost table: set<Job>, ghost rows: map<string, Row>)
    requires Holds(table, rows) && job in table
    modifies job`state
    ensures job.uuid in rows && Holds(table, With(rows, job.uuid, state))
  {
    job.state := state;
    OnlyStates(table, With(rows, job.uuid, state));
  }

  lemma PromoteNone(rows: map<string, Row>, u: string)
    requires u in rows
    ensures PromotedSome(rows, u, {}) == rows
  {
  }

  /** That other jobs have become pending does not matter for the next one. */
  lemma PromoteOneMore(rows: map<string, Row>, u: string, cs: set<string>, c: string)
    requires u in rows && c in PromotedSome(rows, u, cs) && c !in cs && c in rows[u].reverse
    ensures c in rows
    ensures var mid := PromotedSome(rows, u, cs);
            && mid[c] == rows[c] && (ParentsDone(mid, c) <==> ParentsDone(rows, c))
            && PromotedSome(rows, u, cs + {c}) ==
               if rows[c].state == WaitDependencies && ParentsDone(rows, c) then With(mid, c, Pending) else mid
  {
  }

  lemma PromoteAll(rows: map<string, Row>, u: string)
    requires u in rows
    ensures PromotedSome(rows, u, rows[u].reverse) == Promoted(rows, u)
  {
  }

  lemma Links(table: set<Job>, rows: map<string, Row>, job: Job)
    requires Holds(table, rows) && job in table
    ensures job.reverseDependsOn <= table && rows[job.uuid].reverse == Uuids(job.reverseDependsOn)
  {
  }

  /** A job that `enqueue_waiting` looks at becomes pending if it waits and its parents are all done. */
  lemma PromotedOnFields(table: set<Job>, rows: map<string, Row>, job: Job, j: Job)
    requires Holds(table, rows) && job in table && j in table
    ensures job.uuid in rows && j.uuid in Promoted(rows, job.uuid)
    ensures Promoted(rows, job.uuid)[j.uuid].state ==
            if j in job.reverseDependsOn && j.state == WaitDependencies
               && forall p :: p in j.dependsOn ==> p.state == Done
            then Pending else j.state
  {
    HoldsRow(table, rows, j);
    HoldsRow(table, rows, job);
    assert j.uuid in rows[job.uuid].reverse <==> j in job.reverseDependsOn by {
      Links(table, rows, job);
      assert forall k :: k in job.reverseDependsOn && k.uuid == j.uuid ==> k == j;
    }
  }

  /** `enqueue_waiting`: of the jobs that depend on this one, those that wait and have all their parents
      done become pending. */
  method EnqueueWaiting(job: Job, ghost table: set<Job>, ghost rows: map<string, Row>)
    requires Holds(table, rows) && job in table
    modifies table`state
    ensures job.uuid in rows && Holds(table, Promoted(rows, job.uuid))
    ensures forall j :: j in table ==>
              j.state == if j in job.reverseDependsOn && old(j.state) == WaitDependencies
                            && forall p :: p in j.dependsOn ==> old(p.state) == Done
                         then Pending else old(j.state)
  {
    hide Holds, Promoted, ParentsDone, Job.Ready;
    HoldsRow(table, rows, job);
    ghost var rows' := Promoted(rows, job.uuid);
    forall j | j in table
      ensures j.uuid in rows'
      ensures rows'[j.uuid].state ==
              if j in job.reverseDependsOn && j.state == WaitDependencies
                 && forall p :: p in j.dependsOn ==> p.state == Done
              then Pending else j.state
    {
      PromotedOnFields(table, rows, job, j);
    }
    PromoteChildren(job, table, rows);
    forall j | j in table ensures j.state == rows'[j.uuid].state {
      HoldsRow(table, rows', j);
    }
  }

  method PromoteChildren(job: Job, ghost table: set<Job>, ghost rows: map<string, Row>)
    requires Holds(table, rows) && job in table
    modifies table`state
    ensures job.uuid in rows && Holds(table, Promoted(rows, job.uuid))
  {
    hide Holds, PromotedSome, Promoted, With, ParentsDone;
    HoldsRow(table, rows, job);
    Links(table, rows, job);
    PromoteNone(rows, job.uuid);
    PromoteAll(rows, job.uuid);
    var children := job.reverseDependsOn;
    ghost var done: set<string> := {};
    while children != {}
      invariant children <= job.reverseDependsOn && done == Uuids(job.reverseDependsOn - children)
      invariant Holds(table, PromotedSome(rows, job.uuid, done))
    {
      var child :| child in children;
      ghost var mid := PromotedSome(rows, job.uuid, done);
      ChildIsStored(table, mid, job, child);
      HoldsRow(table, mid, child);
      NextChild(table, mid, job.reverseDependsOn, children, child);
      PromoteOneMore(rows, job.uuid, done, child.uuid);
      if child.state == WaitDependencies && child.Ready() {
        SetState(child, Pending, table, mid);
      }
      children := children - {child};
      done := done + {child.uuid};
    }
    assert job.reverseDependsOn - children == job.reverseDependsOn;
  }

  lemma ChildIsStored(table: set<Job>, rows: map<string, Row>, job: Job, child: Job)
    requires Holds(table, rows) && job in table && child in job.reverseDependsOn
    ensures child in table && job.reverseDependsOn <= table
  {
  }

  lemma NextChild(table: set<Job>, rows: map<string, Row>, all: set<Job>, children: set<Job>, child: Job)
    requires Holds(table, rows) && child in children && children <= all && all <= table
    ensures child.uuid !in Uuids(all - children) && child.uuid in Uuids(all)
    ensures Uuids(all - (children - {child})) == Uuids(all - children) + {child.uuid}
  {
  }

  // ---------------------------------------------------------------- the buttons

  /** What one button makes of one job. */
  ghost function Changed(rows: map<string, Row>, u: string, state: JobState): map<string, Row>
    requires u in rows
  {
    match state
    case Done => Promoted(With(rows, u, Done), u)
    case Pending => With(rows, u, if ParentsDone(rows, u) then Pending else WaitDependencies)
    case _ => With(rows, u, Cancelled)
  }

  ghost function ChangedAll(rows: map<string, Row>, us: seq<string>, state: JobState): map<string, Row>
    requires forall u :: u in us ==> u in rows
    ensures ChangedAll(rows, us, state).Keys == rows.Keys
  {
    if us == [] then rows else Changed(ChangedAll(rows, us[..|us| - 1], state), us[|us| - 1], state)
  }

  ghost function UuidsOf(jobs: seq<Job>): (us: seq<string>)
    ensures |us| == |jobs| && forall i :: 0 <= i < |us| ==> us[i] == jobs[i].uuid
  {
    if jobs == [] then [] else UuidsOf(jobs[..|jobs| - 1]) + [jobs[|jobs| - 1].uuid]
  }

  method FinishOne(record: Job, now: nat, ghost table: set<Job>, ghost rows: map<string, Row>)
    requires Holds(table, rows) && record in table
    modifies table
    ensures record.uuid in rows && Holds(table, Changed(rows, record.uuid, Done))
    ensures record.View() == old(record.View()).(state := Done, doneAt := now)
    ensures forall j :: j in table && j != record ==>
              && j.View() == old(j.View()).(state := j.state)
              && j.state == if j in record.reverseDependsOn && old(j.state) == WaitDependencies
                               && forall p :: p in j.dependsOn ==> p == record || old(p.state) == Done
                            then Pending else old(j.state)
  {
    hide Holds, IsTable, Uuids, Promoted, With;
    RowsOneByOne(table, rows);
    HoldsRow(table, rows, record);
    record.SetDone(now);
    OneStateChanged(table, rows, record);
    EnqueueWaiting(record, table, With(rows, record.uuid, Done));
  }

  method RequeueOne(record: Job, ghost table: set<Job>, ghost rows: map<string, Row>)
    requires Holds(table, rows) && record in table
    modifies table
    ensures record.uuid in rows && Holds(table, Changed(rows, record.uuid, Pending))
    ensures record.View() ==
            old(record.View()).(state := if forall p :: p in record.dependsOn ==> old(p.state) == Done then Pending
                                         else WaitDependencies,
                                retry := 0, enqueuedAt := 0, startedAt := 0, doneAt := 0, cancelledAt := 0, pid := 0)
    ensures forall j :: j in table && j != record ==> j.View() == old(j.View())
  {
    hide Holds, IsTable, Uuids, With, ParentsDone;
    RowsOneByOne(table, rows);
    HoldsRow(table, rows, record);
    record.SetPending(true);
    OneStateChanged(table, rows, record);
  }

  method CancelOne(record: Job, now: nat, ghost table: set<Job>, ghost rows: map<string, Row>)
    requires Holds(table, rows) && record in table
    modifies table
    ensures record.uuid in rows && Holds(table, Changed(rows, record.uuid, Cancelled))
    ensures record.View() == old(record.View()).(state := Cancelled, cancelledAt := now)
    ensures forall j :: j in table && j != record ==> j.View() == old(j.View())
  {
    hide Holds, IsTable, Uuids, With;
    RowsOneByOne(table, rows);
    HoldsRow(table, rows, record);
    record.SetCancelled(now);
    OneStateChanged(table, rows, record);
  }

  // ---------------------------------------------------------------- several records

  ghost function Views(table: set<Job>): map<Job, Record>
    reads table
  {
    map j | j in table :: j.View()
  }

  /** What a button leaves of a record that it was used on, or not. */
  ghost predicate IsChanged(r: Record, chosen: bool, state: JobState, now: nat, r': Record) {
    match state
    case Done =>
      && r' == r.(state := r'.state, doneAt := if chosen then now else r.doneAt)
      && (chosen || r.state == Done ==> r'.state == Done)
    case Pending =>
      if chosen then
        && r' == r.(state := r'.state, retry := 0, enqueuedAt := 0, startedAt := 0, doneAt := 0, cancelledAt := 0,
                    pid := 0)
        && r'.state in {Pending, WaitDependencies}
      else r' == r
    case _ => r' == if chosen then r.(state := Cancelled, cancelledAt := now) else r
  }

  ghost predicate AreChanged(before: map<Job, Record>, chosen: set<Job>, state: JobState, now: nat,
      after: map<Job, Record>) {
    after.Keys == before.Keys && forall j :: j in before ==> IsChanged(before[j], j in chosen, state, now, after[j])
  }

  lemma ChangedTwice(before: map<Job, Record>, some: set<Job>, state: JobState, now: nat, mid: map<Job, Record>,
      record: Job, after: map<Job, Record>)
    requires AreChanged(before, some, state, now, mid) && AreChanged(mid, {record}, state, now, after)
    ensures AreChanged(before, some + {record}, state, now, after)
  {
  }

  lemma NoneChanged(before: map<Job, Record>, state: JobState, now: nat)
    ensures AreChanged(before, {}, state, now, before)
  {
  }

  method ChangeOne(record: Job, state: JobState, now: nat, ghost table: set<Job>, ghost rows: map<string, Row>)
    requires Holds(table, rows) && record in table && state in {Done, Pending, Cancelled}
    modifies table
    ensures record.uuid in rows && Holds(table, Changed(rows, record.uuid, state))
    ensures AreChanged(old(Views(table)), {record}, state, now, Views(table))
  {
    hide Holds, Changed;
    match state
    case Done => FinishOne(record, now, table, rows);
    case Pending => RequeueOne(record, table, rows);
    case Cancelled => CancelOne(record, now, table, rows);
  }

  /** `_change_job_state`: record after record; any other state is an error. */
  method ChangeJobState(records: seq<Job>, state: JobState, now: nat, ghost table: set<Job>) returns (supported: bool)
    requires IsTable(table) && forall j :: j in records ==> j in table
    modifies table
    ensures supported <==> records == [] || state in {Done, Pending, Cancelled}
    ensures forall u :: u in UuidsOf(records) ==> u in old(RowsOf(table))
    ensures Holds(table,
        if supported then ChangedAll(old(RowsOf(table)), UuidsOf(records), state) else old(RowsOf(table)))
    ensures AreChanged(old(Views(table)), if supported then AsSet(records) else {}, state, now, Views(table))
  {
    hide Changed, Holds, IsTable, AreChanged, Views, RowsOf;
    ghost var rows, views := RowsOf(table), Views(table);
    NothingChanged(table, rows, records, state);
    NoneChanged(views, state, now);
    assert AsSet(records[..0]) == {};
    for i := 0 to |records|
      invariant forall u :: u in UuidsOf(records[..i]) ==> u in rows
      invariant Holds(table, ChangedAll(rows, UuidsOf(records[..i]), state))
      invariant AreChanged(views, AsSet(records[..i]), state, now, Views(table))
      invariant i > 0 ==> state in {Done, Pending, Cancelled}
    {
      if state !in {Done, Pending, Cancelled} {
        return false;
      }
      OneMoreUuid(records, i);
      assert records[..i + 1] == records[..i] + [records[i]];
      AppendAsSet(records[..i], records[i]);
      ghost var mid := Views(table);
      ChangeOne(records[i], state, now, table, ChangedAll(rows, UuidsOf(records[..i]), state));
      ChangedTwice(views, AsSet(records[..i]), state, now, mid, records[i], Views(table));
    }
    assert records[..|records|] == records;
    supported := true;
  }

  lemma NothingChanged(table: set<Job>, rows: map<string, Row>, records: seq<Job>, state: JobState)
    requires IsTable(table) && rows == RowsOf(table) && forall j :: j in records ==> j in table
    ensures forall u :: u in UuidsOf(records) ==> u in rows
    ensures UuidsOf(records[..0]) == [] && ChangedAll(rows, [], state) == rows && Holds(table, rows)
  {
  }

  lemma OneMoreUuid(records: seq<Job>, i: nat)
    requires i < |records|
    ensures UuidsOf(records[..i + 1]) == UuidsOf(records[..i]) + [records[i].uuid]
  {
    assert records[..i + 1] == records[..i] + [records[i]];
    UuidsMore(records[..i], records[i]);
  }

  /** `requeue`: the jobs that wait for dependencies are left out. */
  method RequeueRecords(records: seq<Job>, now: nat, ghost table: set<Job>)
    requires IsTable(table) && forall j :: j in records ==> j in table
    modifies table
    ensures forall u :: u in NotWaiting(old(RowsOf(table)), UuidsOf(records)) ==> u in old(RowsOf(table))
    ensures Holds(table, ChangedAll(old(RowsOf(table)), NotWaiting(old(RowsOf(table)), UuidsOf(records)), Pending))
    ensures forall j :: j in table ==>
              if j in records && old(j.state) != WaitDependencies then
                && j.retry == j.enqueuedAt == j.startedAt == j.doneAt == j.cancelledAt == j.pid == 0
                && j.eta == old(j.eta) && j.maxRetries == old(j.maxRetries) && j.state in {Pending, WaitDependencies}
              else j.View() == old(j.View())
  {
    hide Holds, ChangedAll, IsTable, RowsOf, AreChanged;
    ghost var rows, views := RowsOf(table), Views(table);
    NothingChanged(table, rows, records, Pending);
    var jobs := NotWaitingOf(records, table, rows);
    var supported := ChangeJobState(jobs, Pending, now, table);
    assert forall j :: j in AsSet(jobs) <==> j in jobs;
    RequeuedOnFields(views, AsSet(jobs), now, Views(table));
  }

  lemma RequeuedOnFields(before: map<Job, Record>, chosen: set<Job>, now: nat, after: map<Job, Record>)
    requires AreChanged(before, chosen, Pending, now, after)
    ensures after.Keys == before.Keys
    ensures forall j :: j in before && j in chosen ==>
              var r := after[j];
              && r.retry == r.enqueuedAt == r.startedAt == r.doneAt == r.cancelledAt == r.pid == 0
              && r.eta == before[j].eta && r.maxRetries == before[j].maxRetries
              && r.state in {Pending, WaitDependencies}
    ensures forall j :: j in before && j !in chosen ==> after[j] == before[j]
  {
  }

  /** `button_done`; jobs that depend on these may become pending. */
  method ButtonDone(records: seq<Job>, now: nat, ghost table: set<Job>)
    requires IsTable(table) && forall j :: j in records ==> j in table
    modifies table
    ensures forall j :: j in table ==>
              && (if j in records then j.state == Done && j.doneAt == now
                  else j.doneAt == old(j.doneAt) && (old(j.state) == Done ==> j.state == Done))
              && j.retry == old(j.retry) && j.maxRetries == old(j.maxRetries) && j.eta == old(j.eta)
              && j.enqueuedAt == old(j.enqueuedAt) && j.startedAt == old(j.startedAt)
              && j.cancelledAt == old(j.cancelledAt) && j.pid == old(j.pid)
  {
    hide IsTable, RowsOf, AreChanged;
    ghost var views := Views(table);
    var supported := ChangeJobState(records, Done, now, table);
    assert forall j :: j in AsSet(records) <==> j in records;
    DoneOnFields(views, AsSet(records), now, Views(table));
  }

  lemma DoneOnFields(before: map<Job, Record>, chosen: set<Job>, now: nat, after: map<Job, Record>)
    requires AreChanged(before, chosen, Done, now, after)
    ensures after.Keys == before.Keys
    ensures forall j :: j in before ==>
              var r, r' := before[j], after[j];
              && (if j in chosen then r'.state == Done && r'.doneAt == now
                  else r'.doneAt == r.doneAt && (r.state == Done ==> r'.state == Done))
              && r'.retry == r.retry && r'.maxRetries == r.maxRetries && r'.eta == r.eta
              && r'.enqueuedAt == r.enqueuedAt && r'.startedAt == r.startedAt
              && r'.cancelledAt == r.cancelledAt && r'.pid == r.pid
  {
  }

  /** `button_cancelled` */
  method ButtonCancelled(records: seq<Job>, now: nat, ghost table: set<Job>)
    requires IsTable(table) && forall j :: j in records ==> j in table
    modifies table
    ensures forall j :: j in table ==>
              && (if j in records then j.state == Cancelled && j.cancelledAt == now
                  else j.state == old(j.state) && j.cancelledAt == old(j.cancelledAt))
              && j.retry == old(j.retry) && j.maxRetries == old(j.maxRetries) && j.eta == old(j.eta)
              && j.enqueuedAt == old(j.enqueuedAt) && j.startedAt == old(j.startedAt)
              && j.doneAt == old(j.doneAt) && j.pid == old(j.pid)
  {
    hide IsTable, RowsOf, AreChanged;
    ghost var views := Views(table);
    var supported := ChangeJobState(records, Cancelled, now, table);
    assert forall j :: j in AsSet(records) <==> j in records;
    CancelledOnFields(views, AsSet(records), now, Views(table));
  }

  lemma CancelledOnFields(before: map<Job, Record>, chosen: set<Job>, now: nat, after: map<Job, Record>)
    requires AreChanged(before, chosen, Cancelled, now, after)
    ensures after.Keys == before.Keys
    ensures forall j :: j in before ==>
              var r, r' := before[j], after[j];
              && (if j in chosen then r'.state == Cancelled && r'.cancelledAt == now
                  else r'.state == r.state && r'.cancelledAt == r.cancelledAt)
              && r'.retry == r.retry && r'.maxRetries == r.maxRetries && r'.eta == r.eta
              && r'.enqueuedAt == r.enqueuedAt && r'.startedAt == r.startedAt
              && r'.doneAt == r.doneAt && r'.pid == r.pid
  {
  }

  method NotWaitingOf(records: seq<Job>, ghost table: set<Job>, ghost rows: map<string, Row>) returns (jobs: seq<Job>)
    requires Holds(table, rows) && forall j :: j in records ==> j in table
    ensures UuidsOf(jobs) == NotWaiting(rows, UuidsOf(records)) && forall j :: j in jobs ==> j in table
    ensures forall j :: j in jobs <==> j in records && j.state != WaitDependencies
  {
    hide Holds, UuidsOf, NotWaiting;
    jobs := [];
    assert records[..0] == [];
    NoneWaiting(rows);
    for i := 0 to |records|
      invariant forall j :: j in jobs ==> j in table
      invariant UuidsOf(jobs) == NotWaiting(rows, UuidsOf(records[..i]))
      invariant forall j :: j in jobs <==> j in records[..i] && j.state != WaitDependencies
    {
      OneMoreUuid(records, i);
      assert records[..i + 1] == records[..i] + [records[i]];
      NotWaitingMore(rows, UuidsOf(records[..i]), records[i].uuid);
      HoldsRow(table, rows, records[i]);
      if records[i].state != WaitDependencies {
        UuidsMore(jobs, records[i]);
        jobs := jobs + [records[i]];
      }
    }
    assert records[..|records|] == records;
  }

  lemma NoneWaiting(rows: map<string, Row>)
    ensures UuidsOf([]) == [] && NotWaiting(rows, []) == []
  {
  }

  lemma UuidsMore(jobs: seq<Job>, j: Job)
    ensures UuidsOf(jobs + [j]) == UuidsOf(jobs) + [j.uuid]
  {
    assert (jobs + [j])[..|jobs|] == jobs;
  }

  lemma NotWaitingMore(rows: map<string, Row>, us: seq<string>, u: string)
    ensures NotWaiting(rows, us + [u]) ==
            NotWaiting(rows, us) + if u in rows && rows[u].state == WaitDependencies then [] else [u]
  {
    assert (us + [u])[..|us|] == us;
  }

  ghost function NotWaiting(rows: map<string, Row>, us: seq<string>): seq<string> {
    if us == [] then []
    else
      var before, u := NotWaiting(rows, us[..|us| - 1]), us[|us| - 1];
      if u in rows && rows[u].state == WaitDependencies then before else before + [u]
  }

  // ---------------------------------------------------------------- buttons are steps

  predicate CanChange(rows: map<string, Row>, u: string, state: JobState)
  {
    u in rows && state in {Done, Pending, Cancelled} && (state == Pending ==> rows[u].state != WaitDependencies)
  }

  function StepOf(u: string, state: JobState): Step {
    match state
    case Done => Step.ButtonDone(u)
    case Pending => Requeue(u)
    case _ => Step.ButtonCancelled(u)
  }

  /** What a button makes of one job is a step of the protocol. */
  lemma ButtonIsStep(s: Db, u: string, state: JobState)
    requires CanChange(s.rows, u, state)
    ensures Next(s, StepOf(u, state), s.(rows := Changed(s.rows, u, state)))
  {
  }

  /** What a button makes of one record is a change of its life: requeuing sets its counter back. */
  lemma ButtonIsLifeChange(r: Record, state: JobState, now: nat, r': Record, loaded: map<nat, int>)
      returns (c: Retries.Change)
    requires IsChanged(r, true, state, now, r') && state in {Done, Pending, Cancelled}
    requires state == Pending ==> r.state != WaitDependencies
    ensures Retries.Changes(Retries.Life(r.state, r.retry, r.maxRetries, loaded), c,
        Retries.Life(r'.state, r'.retry, r'.maxRetries, loaded))
    ensures state == Pending ==> c == Retries.Requeue(r'.state == Pending) && r'.retry == 0
    ensures state == Done ==> c == Retries.FinishByHand
    ensures state == Cancelled ==> c == Retries.Cancel
  {
    c := match state
      case Done => Retries.FinishByHand
      case Pending => Retries.Requeue(r'.state == Pending)
      case _ => Retries.Cancel;
  }

  /** So whatever jobs a button is used on, no dependency is touched and no promotion is lost. */
  lemma {:induction false} ButtonsLoseNone(s: Db, us: seq<string>, state: JobState)
    requires Inv(s) && NoneIsLost(s) && NoDuplicates(us) && forall u :: u in us ==> CanChange(s.rows, u, state)
    ensures forall u :: u in us ==> u in s.rows
    ensures Inv(s.(rows := ChangedAll(s.rows, us, state))) && NoneIsLost(s.(rows := ChangedAll(s.rows, us, state)))
  {
    if us == [] {
    } else {
      var init, u := us[..|us| - 1], us[|us| - 1];
      assert forall v :: v in init ==> v in us;
      var mid := s.(rows := ChangedAll(s.rows, init, state));
      ButtonsLoseNone(s, init, state);
      assert u in us && u !in init;
      OthersCanChange(s.rows, init, state, u);
      ButtonIsStep(mid, u, state);
      NextKeepsInv(mid, StepOf(u, state), mid.(rows := Changed(mid.rows, u, state)));
      NextLosesNone(mid, StepOf(u, state), mid.(rows := Changed(mid.rows, u, state)));
    }
  }

  lemma {:induction false} OthersCanChange(rows: map<string, Row>, us: seq<string>, state: JobState, u: string)
    requires (forall v :: v in us ==> v in rows) && u !in us && CanChange(rows, u, state)
    ensures CanChange(ChangedAll(rows, us, state), u, state)
  {
    if us == [] {
    } else {
      OthersCanChange(rows, us[..|us| - 1], state, u);
    }
  }

  /** Requeuing a done job and one that depends on it: with the parent first the child waits for it
      again, with the child first both can run at once. */
  lemma RequeueOrderMatters(rows: map<string, Row>, p: string, c: string)
    requires p in rows && c in rows && p != c && rows[p].dependsOn == {} && rows[c].dependsOn == {p}
    requires rows[p].state == Done && rows[c].state != WaitDependencies
    ensures var r := ChangedAll(rows, [p, c], Pending); r[p].state == Pending && r[c].state == WaitDependencies
    ensures var r := ChangedAll(rows, [c, p], Pending); r[p].state == Pending && r[c].state == Pending
  {
    assert [p, c][..1] == [p] && [c, p][..1] == [c];
    assert ChangedAll(rows, [], Pending) == rows;
    assert [p][..0] == [] && [c][..0] == [];
    assert ChangedAll(rows, [p], Pending) == Changed(rows, p, Pending);
    assert ChangedAll(rows, [c], Pending) == Changed(rows, c, Pending);
  }

  /** The step with which a worker ends its attempt. */
  function EndOf(w: nat, ending: Ending): Step {
    match ending
    case Completes => Finish(w)
    case Fails => Fail(w)
    case Postpones(_) => Postpone(w)
  }

  /** What an attempt stores at its end is what a worker's step of the protocol makes of its row,
      whatever others have made of that since the worker loaded its record `r`. */
  lemma AttemptIsStep(s: Db, w: nat, r: Record, a: Attempt, now: nat, pid: nat, wait: nat)
      returns (workers: map<nat, Worker>)
    requires IsPerforming(s, w)
    ensures var u := s.workers[w].uuid;
            var stored := AfterAttempt(r, a, ParentsDone(s.rows, u), now, pid, wait);
            && Next(s, EndOf(w, EndingOf(r.maxRetries, r.retry, a)), Db(With(s.rows, u, stored.state), workers))
            && (w in workers <==> EndingOf(r.maxRetries, r.retry, a).Completes?)
  {
    var done := EndingOf(r.maxRetries, r.retry, a).Completes?;
    workers := if done then s.workers[w := Worker(s.workers[w].uuid, Owing(0))] else s.workers - {w};
  }

  lemma NotItsOwnParent(table: set<Job>, rows: map<string, Row>, job: Job)
    requires Holds(table, rows) && job in table && job !in job.dependsOn
    ensures job.uuid in rows && job.uuid !in rows[job.uuid].dependsOn
  {
  }

  lemma OwnStateIsNoParents(rows: map<string, Row>, u: string, state: JobState, last: JobState)
    requires u in rows && u !in rows[u].dependsOn
    ensures ParentsDone(With(rows, u, state), u) <==> ParentsDone(rows, u)
    ensures With(With(rows, u, state), u, last) == With(rows, u, last)
  {
  }

  method RunInTable(job: Job, a: Attempt, now: nat, pid: nat, chance: nat, ghost table: set<Job>,
      ghost rows: map<string, Row>) returns (owes: bool, ghost wait: nat)
    requires Holds(table, rows) && job in table && IsPattern(job.pattern) && job !in job.dependsOn
    modifies job
    ensures job.uuid in rows && rows[job.uuid].state == old(job.state) && Holds(table, With(rows, job.uuid, job.state))
    ensures old(job.state) != Enqueued ==> !owes && job.state == old(job.state)
    ensures old(job.state) == Enqueued ==>
              && job.View() == AfterAttempt(old(job.View()), a, ParentsDone(rows, job.uuid), now, pid, wait)
              && (owes <==> EndingOf(old(job.maxRetries), old(job.retry), a).Completes?)
              && job.maxRetries == old(job.maxRetries)
  {
    hide Holds, IsTable, Uuids, With, AfterAttempt, ParentsDone;
    RowsOneByOne(table, rows);
    HoldsRow(table, rows, job);
    owes, wait := job.RunJob(a, now, pid, chance);
    OneStateChanged(table, rows, job);
  }

  /** `runjob` on a job of the table, up to the end of the attempt: when the job is enqueued these are
      two steps of the protocol, a start and an end, and the worker goes on exactly if it owes
      `enqueue_waiting`. */
  method RunRecord(job: Job, a: Attempt, now: nat, pid: nat, chance: nat, ghost table: set<Job>, ghost s: Db,
      ghost w: nat) returns (owes: bool, ghost mid: Db, ghost s': Db)
    requires Holds(table, s.rows) && job in table && IsPattern(job.pattern) && job !in job.dependsOn && w !in s.workers
    modifies job
    ensures job.uuid in s.rows && Holds(table, s'.rows)
    ensures old(job.state) != Enqueued ==> !owes && s' == s
    ensures old(job.state) == Enqueued ==>
              && Next(s, Start(w, job.uuid), mid)
              && (owes <==> IsOwing(s', w))
              && if a == Performs(Returned) || a == Performs(NothingToDo) then Next(mid, Finish(w), s')
                 else if a == Performs(Raised) || (a.Performs? && a.outcome.Retryable? && !a.outcome.ignoreRetry
                     && job.maxRetries != 0 && old(job.retry) + 1 >= job.maxRetries) then Next(mid, Fail(w), s')
                 else Next(mid, Postpone(w), s')
  {
    hide Holds, AfterAttempt;
    NotItsOwnParent(table, s.rows, job);
    ghost var u, r := job.uuid, job.View();
    ghost var wait;
    owes, wait := RunInTable(job, a, now, pid, chance, table, s.rows);
    mid, s' := s, s;
    if r.state == Enqueued {
      mid := Db(With(s.rows, u, Started), s.workers[w := Worker(u, Performing)]);
      ghost var workers := AttemptIsStep(mid, w, r, a, now, pid, wait);
      OwnStateIsNoParents(s.rows, u, Started, job.state);
      s' := Db(With(mid.rows, u, job.state), workers);
    } else {
      assert With(s.rows, u, job.state) == s.rows;
    }
  }

  // ---------------------------------------------------------------- the runner's updates

  /** `set_job_enqueued`, whatever the state is. */
  method SetEnqueued(job: Job, now: nat, ghost table: set<Job>, ghost s: Db) returns (ghost s': Db)
    requires Holds(table, s.rows) && job in table
    modifies job
    ensures job.View() == old(job.View()).(state := Enqueued, enqueuedAt := now)
    ensures Next(s, Step.SetEnqueued(job.uuid), s') && Holds(table, s'.rows)
  {
    hide Holds, IsTable, Uuids, With;
    RowsOneByOne(table, s.rows);
    HoldsRow(table, s.rows, job);
    job.state, job.enqueuedAt := Enqueued, now;
    OneStateChanged(table, s.rows, job);
    s' := s.(rows := With(s.rows, job.uuid, Enqueued));
  }

  /** `set_job_pending`, when the request for the job has failed: only if it is still enqueued. */
  method SetPending(job: Job, ghost table: set<Job>, ghost s: Db) returns (ghost s': Db)
    requires Holds(table, s.rows) && job in table
    modifies job
    ensures old(job.state) == Enqueued ==>
              && job.View() == old(job.View()).(state := Pending, enqueuedAt := 0, startedAt := 0)
              && Next(s, Step.SetPending(job.uuid), s')
    ensures old(job.state) != Enqueued ==> job.View() == old(job.View()) && s' == s
    ensures Holds(table, s'.rows)
  {
    hide Holds, IsTable, Uuids, With;
    RowsOneByOne(table, s.rows);
    HoldsRow(table, s.rows, job);
    s' := s;
    if job.state == Enqueued {
      job.state, job.enqueuedAt, job.startedAt := Pending, 0, 0;
      OneStateChanged(table, s.rows, job);
      s' := s.(rows := With(s.rows, job.uuid, Pending));
    }
  }

  /** These, and the promotion of a job that waits, are changes of its life too. */
  lemma StateIsLifeChange(r: Record, state: JobState, loaded: map<nat, int>) returns (c: Retries.Change)
    requires (r.state, state) in {(Pending, Enqueued), (Enqueued, Pending), (WaitDependencies, Pending)}
    ensures Retries.Changes(Retries.Life(r.state, r.retry, r.maxRetries, loaded), c,
        Retries.Life(state, r.retry, r.maxRetries, loaded))
    ensures r.state == Pending ==> c == Retries.Enqueue
    ensures r.state == Enqueued ==> c == Retries.Unqueue
    ensures r.state == WaitDependencies ==> c == Retries.Promote
  {
    c := match r.state
      case Pending => Retries.Enqueue
      case Enqueued => Retries.Unqueue
      case _ => Retries.Promote;
  }
}
