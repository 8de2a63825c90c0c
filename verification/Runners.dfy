/** The turns of the job runner: it takes in notifications, asks for jobs to run, and sleeps. */
module Runners {
  import opened JobStates
  import opened ChannelJobs
  import opened ChannelNames
  import opened ChannelSteps
  import opened ChannelTree
  import opened ChannelRuns
  import opened ChannelTheorems
  import opened ChannelWakeup
  import opened Channels
  import opened ChannelManagers
  import opened Notices

  const SELECT_TIMEOUT := 60

  lemma Sleep(s: Sys, now: nat, flow: Flow, s': Sys, w: nat)
    requires Inv(s) && Next(s, Run(now, flow), s') && WakesAt(s', w)
    ensures w == 0 || now < w
    ensures forall t: nat, flow2, s2 :: Next(s', Run(t, flow2), s2) && (w == 0 || t < w) ==>
        ROOT in flow2 && flow2[ROOT] == []
  {
    WakeupAgrees(s, now, flow, s', w);
  }

  /** The database and the uuid of every job to run. */
  function Requests(jobs: seq<ChannelJob>): (r: seq<(string, string)>)
    ensures |r| == |jobs| && forall i :: 0 <= i < |jobs| ==> r[i] == (jobs[i].db, jobs[i].uuid)
  {
    if jobs == [] then [] else Requests(jobs[..|jobs| - 1]) + [(jobs[|jobs| - 1].db, jobs[|jobs| - 1].uuid)]
  }

  class QueueJobRunner {
    const channelManager: ChannelManager

    constructor ()
      ensures channelManager.Valid() && Initial(channelManager.State())
    {
      hide ChannelManager.Valid, ChannelManager.State, Initial;
      channelManager := new ChannelManager();
    }

    /** One turn of the loop in `process_notifications`. */
    method ProcessNotification(db: string, uuid: string, n: Notice)
      requires channelManager.Valid()
      requires n.Stored? && uuid in channelManager.jobsByUuid ==>
                 channelManager.jobsByUuid[uuid].db == db && channelManager.jobsByUuid[uuid].created == n.created
      modifies channelManager`channelsByName, channelManager`jobsByUuid, channelManager`made
      modifies channelManager.channelsByName.Values, AllQueues(channelManager.channelsByName)
      ensures channelManager.Valid()
      ensures Next(old(channelManager.State()), EventOf(db, uuid, n), channelManager.State())
      ensures n.Gone? ==>
                && uuid !in channelManager.State().jobs
                && forall p, j :: p in channelManager.State().nodes && j in Placed(channelManager.State().nodes[p]) ==>
                     j.uuid != uuid
      ensures n.Stored? ==>
                && uuid in channelManager.State().jobs && ROOT in old(channelManager.State()).nodes
                && var e := channelManager.State().jobs[uuid];
                   && e.eta == n.eta && e.job.uuid == uuid && e.job.db == db && e.job.seqno == n.seqno
                   && e.job.created == n.created && e.job.priority == n.priority
                   && e.job.home == ChannelFor(old(channelManager.State()).nodes.Keys, n.channel)
      ensures n.Stored? && n.state == Known(Pending) && n.eta != 0 ==> WaitsUntil(channelManager.State(), uuid, n.eta)
    {
      hide ChannelManager.Valid, ChannelManager.State, Next, Inv, WaitsUntil;
      channelManager.Facts();
      ghost var s := channelManager.State();
      match n
      case Gone =>
        channelManager.RemoveJob(uuid);
        RemoveJobTakesIt(s, uuid, channelManager.State());
      case Stored(channel, seqno, created, priority, eta, state) =>
        var job := channelManager.Notify(db, channel, uuid, seqno, created, priority, eta, state);
        NotifyTellsAll(s, EventOf(db, uuid, n), channelManager.State());
        if state == Known(Pending) && eta != 0 {
          PendingWaits(s, EventOf(db, uuid, n), channelManager.State());
        }
    }

    /** `run_jobs` and then `wait_notification`: the jobs to request, and how long to sleep if no
        notification comes; not at all if some have come already. The clock is read again before
        sleeping; unless time has passed the runner does sleep, and it costs nothing: no job could
        have been run before it wakes up. */
    method RunJobsAndWait(now: nat, later: nat, notified: bool)
      returns (requests: seq<(string, string)>, timeout: int, ghost flow: Flow)
      requires channelManager.Valid() && channelManager.clock <= now <= later
      modifies channelManager`clock, Down(channelManager.channelsByName, ROOT)`running,
          Down(channelManager.channelsByName, ROOT)`pauseUntil
      modifies DownQueues(channelManager.channelsByName, ROOT), WaitingIn(Snap(channelManager.channelsByName), ROOT)
      ensures channelManager.Valid() && Next(old(channelManager.State()), Run(now, flow), channelManager.State())
      ensures ROOT in flow && requests == Requests(flow[ROOT])
      ensures notified ==> timeout == 0
      ensures !notified && later == now ==> timeout > 0
      ensures !notified ==> exists w: nat ::
          WakesAt(channelManager.State(), w) && timeout == if w == 0 then 60 else w - later
      ensures !notified ==> forall t: nat, flow2, s ::
          Next(channelManager.State(), Run(t, flow2), s) && t < later + timeout ==> ROOT in flow2 && flow2[ROOT] == []
    {
      hide ChannelManager.Valid, ChannelManager.State, Next, Down, DownQueues, WaitingIn, Snap, WakesAt;
      channelManager.Facts();
      var jobs;
      jobs, flow := channelManager.GetJobsToRun(now);
      requests := Requests(jobs);
      if notified {
        timeout := 0;
        return;
      }
      ghost var s, s' := old(channelManager.State()), channelManager.State();
      var wakeup := channelManager.GetWakeupTime();
      Sleep(s, now, flow, s', wakeup);
      timeout := if wakeup == 0 then SELECT_TIMEOUT else wakeup - later;
    }
  }
}
