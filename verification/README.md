# The job queue, modelled and proved

This project models the asynchronous job queue in `bad_connector_woocommerce-17.0.1.0.9/queue_job/` and proves what it promises.

* **The channel scheduler.** `ChannelJobs`, `PriorityQueues`, `ChannelQueues`, `Channels` and `ChannelManagers` are the
  classes of `jobrunner/channels.py`: heaps with lazy deletion, queues that set jobs aside until their eta, channels
  joined in a tree by parent and children, and the manager with its two indices. Every method is proved against a
  specification on values: `ChannelSteps` for one channel, `ChannelTree` and `ChannelMoves` for the tree, `ChannelRuns`
  for the manager as a transition system with one invariant. `ChannelTheorems`, `ChannelLimits` and `ChannelWakeup`
  prove what holds of every step and of every run. `Runners` has the turns of the runner, `Notices` what
  it reads, and `ClosedLoops` the runner and the database together.
* **The graph compiler.** `Graphs` has the graph with Kahn's sort and the enumeration of paths, `Delays` the delayables,
  chains and groups, `Flattening` the worklist that connects their graphs, and `FlatteningTheorems` what its result is.
  `OrderKept` proves that it keeps the intended order in any surroundings, and `NestedOrder` and `OnDoneOrder` exactly
  which delayables wait for which, in a nesting of any shape and across `on_done`; `Nestings`, `ComesAfter` and
  `ComesBefore` prepare that.
* **Stored jobs.** `StoredJobs` has one job and one attempt to run it, `Retries` its retry counter over whole runs,
  `GraphJobs` the jobs of a new graph, `Protocol` the stored jobs and workers as a transition system, `JobRecords` the
  table of jobs and the buttons as steps of it, and `ProtocolTheorems` that no promotion is lost, that parents come
  first and that everything gets done.

`dafny verify dfyconfig.toml` checks all of it.

Where methods take ghost parameters, they are the whole tree, or the state before, in terms of which the contract is
stated; the code has no counterpart for them. Where the code allows any order, as for the members of a Python set, the
methods choose arbitrarily and the contracts hold for every choice.

## Model

| member | source | states |
|---|---|---|
| ChannelJobs.LessIsWeakOrder | bad_connector_woocommerce-17.0.1.0.9/queue_job/jobrunner/channels.py:214-225 | the order of jobs, with and without etas, is a strict weak order, so that a heap can be ordered by it |
| ChannelJobs.KeyOnFields | bad_connector_woocommerce-17.0.1.0.9/queue_job/jobrunner/channels.py:211-225 | etas apart, a smaller priority sorts before a larger one, then an earlier creation, then a smaller sequence |
| ChannelJobs.LessOnFields | bad_connector_woocommerce-17.0.1.0.9/queue_job/jobrunner/channels.py:214-225 | a job with an eta sorts before one without, an earlier eta before a later one, and equal etas by the rest |
| ChannelJobs.FirstOnFields | bad_connector_woocommerce-17.0.1.0.9/queue_job/jobrunner/channels.py:189-225 | which job is first: smaller priority before larger, then earlier creation, then smaller sequence |
| ChannelJobs.EarliestOnFields | bad_connector_woocommerce-17.0.1.0.9/queue_job/jobrunner/channels.py:189-225 | which waiting job is earliest: the earlier eta, and equal etas by priority, creation and sequence |
| PriorityQueues.PriorityQueue.Add | bad_connector_woocommerce-17.0.1.0.9/queue_job/jobrunner/channels.py:75-83 | adds to the abstract set; a removed job that is still in the heap is revived, and none is in the heap twice |
| PriorityQueues.PriorityQueue.Remove | bad_connector_woocommerce-17.0.1.0.9/queue_job/jobrunner/channels.py:85-91 | takes the job out of the abstract set and leaves it in the heap |
| PriorityQueues.PriorityQueue.First | bad_connector_woocommerce-17.0.1.0.9/queue_job/jobrunner/channels.py:57-70 | drops removed jobs from the front, does not change the abstract set, and gives a least member of it |
| PriorityQueues.PriorityQueue.Pop | bad_connector_woocommerce-17.0.1.0.9/queue_job/jobrunner/channels.py:93-104 | takes a least member out of the abstract set, or finds it empty |
| PriorityQueues.PriorityQueue.Len | bad_connector_woocommerce-17.0.1.0.9/queue_job/jobrunner/channels.py:54-55 | the size of the abstract set, although removed jobs are still in the heap |
| ChannelQueues.ChannelQueue.Pop | bad_connector_woocommerce-17.0.1.0.9/queue_job/jobrunner/channels.py:332-346 | clears exactly the etas that have passed; gives a job of least priority, then creation, then sequence among those ready; gives none only if none is ready, or the queue is sequential and its earliest waiting job comes before all ready ones, and then never gives one; no job in either heap has its sort key changed (`ChannelQueue.Valid`) |
| ChannelQueues.ChannelQueue.ReleaseDue | bad_connector_woocommerce-17.0.1.0.9/queue_job/jobrunner/channels.py:333-336 | every job whose eta has passed, and no other, competes afterwards |
| ChannelQueues.ChannelQueue.MustWait | bad_connector_woocommerce-17.0.1.0.9/queue_job/jobrunner/channels.py:337-345 | a sequential queue holds back exactly if its earliest waiting job precedes its first ready one, etas apart |
| ChannelQueues.ChannelQueue.GetWakeupTime | bad_connector_woocommerce-17.0.1.0.9/queue_job/jobrunner/channels.py:348-354 | the least of the given time and the etas that wait |
| ChannelSteps.PopIsTotal | bad_connector_woocommerce-17.0.1.0.9/queue_job/jobrunner/channels.py:332-346 | `pop` gives nothing exactly when no job may be given |
| ChannelSteps.HeldBackByAny | bad_connector_woocommerce-17.0.1.0.9/queue_job/jobrunner/channels.py:337-345 | whether a sequential queue holds back does not depend on which of several equal jobs are compared |
| ChannelSteps.OvertakesNoneExactlyIf | bad_connector_woocommerce-17.0.1.0.9/queue_job/jobrunner/channels.py:337-345 | a sequential queue gives nothing that should come after a waiting job if and only if the earliest waiting job holds it back, or the first waiting job by key does not sort before the ready ones either |
| Channels.Channel.constructor | bad_connector_woocommerce-17.0.1.0.9/queue_job/jobrunner/channels.py:404-416 | a new channel registers with its parent, is empty and unlimited but for its capacity |
| Channels.Channel.Configure | bad_connector_woocommerce-17.0.1.0.9/queue_job/jobrunner/channels.py:426-440 | stores the settings; a sequential channel with another capacity than 1 is an error |
| Channels.Channel.HasCapacity | bad_connector_woocommerce-17.0.1.0.9/queue_job/jobrunner/channels.py:516-523 | true exactly if no failed job blocks a sequential channel, and it is unlimited or runs fewer jobs than its capacity |
| Channels.Channel.Remove | bad_connector_woocommerce-17.0.1.0.9/queue_job/jobrunner/channels.py:463-469 | the job leaves this channel and all its ancestors, and nothing else changes in the tree |
| Channels.Channel.SetPending | bad_connector_woocommerce-17.0.1.0.9/queue_job/jobrunner/channels.py:479-491 | the new tree is `ChannelTree.SetPending` of the old one |
| Channels.Channel.SetRunning | bad_connector_woocommerce-17.0.1.0.9/queue_job/jobrunner/channels.py:493-504 | the new tree is `ChannelTree.SetRunning` of the old one: upwards until a channel where the job already runs |
| Channels.Channel.SetFailed | bad_connector_woocommerce-17.0.1.0.9/queue_job/jobrunner/channels.py:506-514 | the new tree is `ChannelTree.SetFailed` of the old one |
| Channels.Channel.GetJobsToRun | bad_connector_woocommerce-17.0.1.0.9/queue_job/jobrunner/channels.py:525-572 | every channel below goes through exactly one `Round`, fed by what its children yield (`Ran`); all yielded jobs, and all that stop waiting, have lost their eta |
| Channels.Channel.YieldWhileFree | bad_connector_woocommerce-17.0.1.0.9/queue_job/jobrunner/channels.py:561-572 | yields while there is capacity and the queue gives jobs, one only and then a pause if there is a throttle (`Drained`) |
| Channels.Channel.GetWakeupTime | bad_connector_woocommerce-17.0.1.0.9/queue_job/jobrunner/channels.py:574-592 | the least of the given time and all `Candidates` below; no channel changes |
| ChannelSteps.RoundConserves | bad_connector_woocommerce-17.0.1.0.9/queue_job/jobrunner/channels.py:541-572 | one round moves jobs from the queue to the running ones, loses none, invents none and yields none twice |
| ChannelSteps.RoundCapacity | bad_connector_woocommerce-17.0.1.0.9/queue_job/jobrunner/channels.py:516-523 | a limited channel ends a round within its capacity if it yielded at all |
| ChannelSteps.RoundSettles | bad_connector_woocommerce-17.0.1.0.9/queue_job/jobrunner/channels.py:541-572 | a channel that no failed job blocks, that is not paused, and that is unlimited or below its capacity has no job left whose eta has passed, and no ready job unless it is sequential and waits |
| ChannelSteps.RoundThrottles | bad_connector_woocommerce-17.0.1.0.9/queue_job/jobrunner/channels.py:545-572 | with a throttle at most one job a round, only once the pause is over, and then a pause of that length |
| ChannelTree.PresentMeansRunningBelow | bad_connector_woocommerce-17.0.1.0.9/queue_job/jobrunner/channels.py:390-396 | a job queued or running in a channel runs in every channel between there and its own |
| ChannelTree.RestingJobIsNowhereElse | bad_connector_woocommerce-17.0.1.0.9/queue_job/jobrunner/channels.py:479-514 | a job that is failed, or queued in its own channel, is in no other channel |
| ChannelTree.YieldsAreNew | bad_connector_woocommerce-17.0.1.0.9/queue_job/jobrunner/channels.py:525-572 | a channel yields only jobs of its own subtree that neither ran nor failed in it |
| ChannelTree.RanKeepsTree | bad_connector_woocommerce-17.0.1.0.9/queue_job/jobrunner/channels.py:525-572 | a request for jobs keeps the placement invariant of the whole tree |
| ChannelTree.YieldHasNoEta | bad_connector_woocommerce-17.0.1.0.9/queue_job/jobrunner/channels.py:332-346 | a yielded job has no eta any more |
| ChannelMoves.StripRemoves | bad_connector_woocommerce-17.0.1.0.9/queue_job/jobrunner/channels.py:463-477 | `remove` takes the job out of the whole tree, moves no other and keeps the placement invariant |
| ChannelMoves.SetPendingPlaces | bad_connector_woocommerce-17.0.1.0.9/queue_job/jobrunner/channels.py:479-491 | afterwards the job is queued by its eta in its own channel and nowhere else |
| ChannelMoves.SetRunningPlaces | bad_connector_woocommerce-17.0.1.0.9/queue_job/jobrunner/channels.py:493-504 | afterwards the job runs in its own channel, and in all ancestors if it did not run there before |
| ChannelMoves.SetFailedPlaces | bad_connector_woocommerce-17.0.1.0.9/queue_job/jobrunner/channels.py:506-514 | afterwards the job is failed in its own channel and nowhere else |
| ChannelMoves.ExtendKeepsTree | bad_connector_woocommerce-17.0.1.0.9/queue_job/jobrunner/channels.py:989-1021 | creating channels keeps the placement invariant |
| ChannelMoves.ExtendOnFields | bad_connector_woocommerce-17.0.1.0.9/queue_job/jobrunner/channels.py:1014-1021 | exactly the missing channels on the way are created, empty and without limits, and no other changes |
| ChannelNames.SplitJoin | bad_connector_woocommerce-17.0.1.0.9/queue_job/jobrunner/channels.py:1014 | splitting a joined name gives its segments back |
| ChannelNames.JoinSplit | bad_connector_woocommerce-17.0.1.0.9/queue_job/jobrunner/channels.py:1014 | joining a split name gives the name back |
| ChannelNames.NormaliseIsFullName | bad_connector_woocommerce-17.0.1.0.9/queue_job/jobrunner/channels.py:989-992 | an empty name is the root, and `root.` is put in front where it is missing |
| ChannelNames.AutocreateFindsTheName | bad_connector_woocommerce-17.0.1.0.9/queue_job/jobrunner/channels.py:989-1021 | a lookup that creates channels gives the channel of that full name |
| ChannelNames.KnownNameIsFound | bad_connector_woocommerce-17.0.1.0.9/queue_job/jobrunner/channels.py:989-994 | a known full name gives exactly that channel, however it is looked up, and creates nothing |
| ChannelNames.UnknownNameIsNotFound | bad_connector_woocommerce-17.0.1.0.9/queue_job/jobrunner/channels.py:995-996 | an unknown name gives none if neither creating nor falling back is asked for |
| ChannelNames.FallbackStaysBelowLongestPrefix | bad_connector_woocommerce-17.0.1.0.9/queue_job/jobrunner/channels.py:998-1021 | a fallback lookup of an unknown name gives a channel below the longest known proper prefix, with all segments of the name repeated |
| ChannelNames.FallbackIsStableExactlyIf | bad_connector_woocommerce-17.0.1.0.9/queue_job/jobrunner/channels.py:998-1021 | a second fallback lookup of the same unknown name gives the same channel if and only if it falls back on the root, or the first unknown segment differs from the first one below the root |
| ChannelNames.FallbackMoves | bad_connector_woocommerce-17.0.1.0.9/queue_job/jobrunner/channels.py:998-1021 | with `root.a` known, `a.a` is looked up as `root.a.a.a` first and as `root.a.a` from then on |
| ChannelNames.LookupKeepsRooted | bad_connector_woocommerce-17.0.1.0.9/queue_job/jobrunner/channels.py:1014-1021 | after a lookup every channel still has its parent in the index |
| ChannelManagers.ChannelManager.constructor | bad_connector_woocommerce-17.0.1.0.9/queue_job/jobrunner/channels.py:801-805 | one channel, the root, with a capacity of 1, and no jobs |
| ChannelManagers.ChannelManager.ConfigureChannel | bad_connector_woocommerce-17.0.1.0.9/queue_job/jobrunner/channels.py:930-943 | the channel of the full name has the capacity, flag and throttle given, and its jobs and pause as before; missing ones are created without limits; no other channel and no job changes |
| ChannelManagers.ChannelManager.GetChannelByName | bad_connector_woocommerce-17.0.1.0.9/queue_job/jobrunner/channels.py:945-1021 | gives the channel that `Resolve` says or none, creates exactly the missing channels on the way, and keeps the index equal to the channels in the tree |
| ChannelManagers.ChannelManager.FallbackParent | bad_connector_woocommerce-17.0.1.0.9/queue_job/jobrunner/channels.py:999-1013 | the loop ends and finds the longest known proper prefix |
| ChannelManagers.ChannelManager.Notify | bad_connector_woocommerce-17.0.1.0.9/queue_job/jobrunner/channels.py:1023-1061 | the change of the whole state is a `Notified` step, and the invariant of runs is kept |
| ChannelManagers.ChannelManager.RemoveJob | bad_connector_woocommerce-17.0.1.0.9/queue_job/jobrunner/channels.py:1063-1067 | the job is nowhere afterwards and no longer known |
| ChannelManagers.ChannelManager.RemoveDb | bad_connector_woocommerce-17.0.1.0.9/queue_job/jobrunner/channels.py:1069-1073 | the same for all jobs of a database and no others |
| ChannelTheorems.RemoveJobTakesIt | bad_connector_woocommerce-17.0.1.0.9/queue_job/jobrunner/channels.py:1063-1067 | removing a job takes the jobs of its uuid out of all channels and no others |
| ChannelTheorems.RemoveDbTakesThem | bad_connector_woocommerce-17.0.1.0.9/queue_job/jobrunner/channels.py:1069-1073 | removing a database takes exactly its jobs, known or placed, and leaves all others in their places |
| ChannelManagers.ChannelManager.Forget | bad_connector_woocommerce-17.0.1.0.9/queue_job/jobrunner/channels.py:801-805 | the map of jobs holds its jobs weakly: what is in no channel can vanish, and the invariant of runs is kept |
| ChannelManagers.ChannelManager.GetJobsToRun | bad_connector_woocommerce-17.0.1.0.9/queue_job/jobrunner/channels.py:1075-1076 | a `Run` step of the whole state: the etas of the job objects change exactly as specified |
| ChannelManagers.ChannelManager.GetWakeupTime | bad_connector_woocommerce-17.0.1.0.9/queue_job/jobrunner/channels.py:1078-1079 | the wakeup time of the whole tree; no state changes |
| ChannelRuns.NextKeepsInv | bad_connector_woocommerce-17.0.1.0.9/queue_job/jobrunner/channels.py:1023-1079 | every operation keeps the invariant: placement in the tree, one live job object per uuid, etas cleared only once they are over |
| ChannelRuns.StripAllRemoves | bad_connector_woocommerce-17.0.1.0.9/queue_job/jobrunner/channels.py:1069-1073 | removing the jobs of a database one by one removes them all and keeps the placement invariant |
| ChannelTheorems.NotifyPlaces | bad_connector_woocommerce-17.0.1.0.9/queue_job/jobrunner/channels.py:1045-1061 | after a notification the job is in exactly the place that its state names |
| ChannelTheorems.NotifyTellsAll | bad_connector_woocommerce-17.0.1.0.9/queue_job/jobrunner/channels.py:1023-1054 | after a notification the known job has the database, sequence, dates, priority, eta and channel it was notified with; its object is the old one exactly if nothing that matters for scheduling has changed |
| ChannelTheorems.NotifyPutsThere | bad_connector_woocommerce-17.0.1.0.9/queue_job/jobrunner/channels.py:1055-1061 | and it is queued, waiting until its eta, running, failed or nowhere, as its state says |
| ChannelTheorems.NotifyMovesNoOther | bad_connector_woocommerce-17.0.1.0.9/queue_job/jobrunner/channels.py:1023-1061 | a notification moves no job of another uuid |
| ChannelTheorems.NotifyLeavesNoOutdated | bad_connector_woocommerce-17.0.1.0.9/queue_job/jobrunner/channels.py:1036-1054 | a rescheduled job's old object is nowhere in the tree |
| ChannelTheorems.OneObjectPerUuid | bad_connector_woocommerce-17.0.1.0.9/queue_job/jobrunner/channels.py:1023-1061 | two placed jobs of the same uuid are the same object |
| ChannelTheorems.RunIsOrdered | bad_connector_woocommerce-17.0.1.0.9/queue_job/jobrunner/channels.py:541-572 | what a channel yields comes by smaller priority, then earlier creation, then smaller sequence, and nothing left ready in it comes before |
| ChannelTheorems.RunWaitsForEarliest | bad_connector_woocommerce-17.0.1.0.9/queue_job/jobrunner/channels.py:337-345 | what a sequential channel yields is not preceded, etas apart, by the earliest of the jobs that still wait; another waiting job is overtaken if and only if the first of them by key precedes the last job yielded |
| ChannelTheorems.RunConservesWork | bad_connector_woocommerce-17.0.1.0.9/queue_job/jobrunner/channels.py:561-572 | after a request no channel that is neither blocked nor paused, and unlimited or below its capacity, has a job it could have yielded |
| ChannelTheorems.RunReachesRoot | bad_connector_woocommerce-17.0.1.0.9/queue_job/jobrunner/channels.py:525-572 | progress: a job that is ready, or whose eta has passed, is yielded by the root at once if all channels from its own up to the root are not sequential, have no throttle and still have room after the request |
| ChannelTheorems.RunRespectsCapacity | bad_connector_woocommerce-17.0.1.0.9/queue_job/jobrunner/channels.py:516-523 | a request fills a limited channel at most up to its capacity; a channel that yields was below it, and no failed job blocked it; a sequential one starts a job only when none runs or has failed |
| ChannelTheorems.NoEarlyDispatch | bad_connector_woocommerce-17.0.1.0.9/queue_job/jobrunner/channels.py:332-346 | no channel yields a job before the eta that it was created with |
| ChannelTheorems.NothingBeforeEta | bad_connector_woocommerce-17.0.1.0.9/queue_job/jobrunner/channels.py:332-346 | in every run, after a PENDING notification with an eta no channel yields a job of that uuid before that eta, unless it is notified again |
| ChannelTheorems.NoDoubleDispatch | bad_connector_woocommerce-17.0.1.0.9/queue_job/jobrunner/channels.py:479-572 | in every run, between two dispatches of jobs of one uuid by the root there is a PENDING notification about it, whatever objects stood for the job in between |
| ChannelTheorems.InvAlways | bad_connector_woocommerce-17.0.1.0.9/queue_job/jobrunner/channels.py:1023-1079 | the invariant holds in every state of every run |
| ChannelLimits.CapacityOverRuns | bad_connector_woocommerce-17.0.1.0.9/queue_job/jobrunner/channels.py:516-572 | a run that starts within capacity, and hears of started jobs only after dispatching them, never exceeds it |
| ChannelLimits.ToldToRunFitsExactlyIf | bad_connector_woocommerce-17.0.1.0.9/queue_job/jobrunner/channels.py:493-504 | a notification that a job is enqueued or started asks for no capacity; it keeps a channel within it if and only if the channel is unlimited or not above the job's, has room for one more, or has the job running already |
| ChannelLimits.SettingsKept | bad_connector_woocommerce-17.0.1.0.9/queue_job/jobrunner/channels.py:404-416 | no operation changes a channel's settings, and only a request for jobs changes its pause |
| ChannelLimits.ThrottleRate | bad_connector_woocommerce-17.0.1.0.9/queue_job/jobrunner/channels.py:545-572 | in every run a channel with throttle d yields at most 1 + (b - a) / d jobs between the times a and b |
| ChannelWakeup.WakeupAgrees | bad_connector_woocommerce-17.0.1.0.9/queue_job/jobrunner/channels.py:525-592 | right after a request the wakeup time is none or still to come, and every request before it would give nothing |
| ChannelWakeup.WakeupOnFields | bad_connector_woocommerce-17.0.1.0.9/queue_job/jobrunner/channels.py:574-592 | the wakeup time is the least end of a pause or eta among the channels that are neither blocked nor full and have no blocked, full or paused channel above them, and none exactly if there is no such time |
| ChannelWakeup.NothingBeforeWakeup | bad_connector_woocommerce-17.0.1.0.9/queue_job/jobrunner/channels.py:525-592 | the same over any number of requests, and the wakeup time stays what it was |
| ChannelWakeup.PassedAlong | bad_connector_woocommerce-17.0.1.0.9/queue_job/jobrunner/channels.py:574-592 | passing the least time from channel to channel gives the least of all times |
| Runners.QueueJobRunner.ProcessNotification | bad_connector_woocommerce-17.0.1.0.9/queue_job/jobrunner/runner.py:452-462 | afterwards the job is known with the database, channel, sequence, dates, priority and eta that were read, and waits until that eta if it is pending; or it is known no longer and nowhere when the record is gone |
| Runners.QueueJobRunner.RunJobsAndWait | bad_connector_woocommerce-17.0.1.0.9/queue_job/jobrunner/runner.py:427-481 | requests exactly the jobs that the root yields; does not sleep if notifications have come; else, unless time has passed meanwhile, sleeps a positive time in which no job could have been run |
| ClosedLoops.TurnsKeepOk | bad_connector_woocommerce-17.0.1.0.9/queue_job/jobrunner/runner.py:427-462 | whatever else happens to the stored jobs, and whenever notifications are taken in: enqueued and started jobs run in the root, the root stays within its capacity, and every pending job that is read is in a queue or just yielded |
| ClosedLoops.StartIsOk | bad_connector_woocommerce-17.0.1.0.9/queue_job/jobrunner/runner.py:417-425 | this holds at the start if no job is enqueued or started and all stored jobs are still to be read |
| ClosedLoops.ReadTellsAll | bad_connector_woocommerce-17.0.1.0.9/queue_job/jobrunner/runner.py:452-462 | after reading, the manager knows the job as it is stored |
| ClosedLoops.StepsActivateNone | bad_connector_woocommerce-17.0.1.0.9/queue_job/jobrunner/runner.py:336-344 | no step of the protocol but that of the runner makes a job active, so all of them are among what happens elsewhere |
| ClosedLoops.EnqueueIsStep | bad_connector_woocommerce-17.0.1.0.9/queue_job/jobrunner/runner.py:427-434 | storing a yielded job as enqueued is the runner's step of the protocol |
| ClosedLoops.QueuedOrYielded | bad_connector_woocommerce-17.0.1.0.9/queue_job/jobrunner/channels.py:525-572 | in a request for jobs a queued job stays in some queue on its way up until the root yields it |
| ClosedLoops.ActiveFitRoot | bad_connector_woocommerce-17.0.1.0.9/queue_job/jobrunner/runner.py:427-442 | at no time in any run are more jobs stored as enqueued or started than the capacity of the root |
| ClosedLoops.NoneIsForgotten | bad_connector_woocommerce-17.0.1.0.9/queue_job/jobrunner/runner.py:444-462 | in every run, when all notifications are taken in and no yielded job is left, every pending job is in the queue of some channel |
| ClosedLoops.ReadIsTameExactlyIf | bad_connector_woocommerce-17.0.1.0.9/queue_job/jobrunner/channels.py:1023-1061 | what the runner reads keeps every channel within its capacity unless an enqueued or started job has moved to another channel |
| ClosedLoops.ChannelsFit | bad_connector_woocommerce-17.0.1.0.9/queue_job/jobrunner/runner.py:427-462 | so in every run in which enqueued and started jobs keep their channels, every channel stays within its capacity |
| Graphs.Graph.AddEdge | bad_connector_woocommerce-17.0.1.0.9/queue_job/delay.py:76-82 | adds the edge and both its ends, and keeps every edge inside the graph |
| Graphs.Graph.Edges | bad_connector_woocommerce-17.0.1.0.9/queue_job/delay.py:88-94 | every edge exactly once |
| Graphs.Graph.RootVertices | bad_connector_woocommerce-17.0.1.0.9/queue_job/delay.py:147-155 | exactly the vertices that no edge leads to |
| Graphs.Graph.DependsPerNode | bad_connector_woocommerce-17.0.1.0.9/queue_job/delay.py:132-134 | counts the parents of every vertex |
| Graphs.Graph.TopologicalSort | bad_connector_woocommerce-17.0.1.0.9/queue_job/delay.py:125-145 | ends on every closed graph; yields no vertex twice and none before one of its parents; yields all vertices if and only if there is no cycle |
| Graphs.StuckMeansCycle | bad_connector_woocommerce-17.0.1.0.9/queue_job/delay.py:125-145 | if every vertex of a non-empty set has a parent in it, there is a cycle |
| Graphs.OrderMeansAcyclic | bad_connector_woocommerce-17.0.1.0.9/queue_job/delay.py:125-145 | an order of all vertices with parents first exists only without cycles |
| Graphs.Graph.Paths | bad_connector_woocommerce-17.0.1.0.9/queue_job/delay.py:98-123 | yields exactly the maximal paths without repeats from the vertex, each once, with cycles allowed |
| Graphs.PathSearch.Search | bad_connector_woocommerce-17.0.1.0.9/queue_job/delay.py:110-121 | the search ends, finds exactly the maximal continuations of the present path, and restores `path` and `seen` |
| Delays.Vertex.Chain | bad_connector_woocommerce-17.0.1.0.9/queue_job/delay.py:319-328 | the chain's graph links every member to the next |
| Delays.Vertex.Group | bad_connector_woocommerce-17.0.1.0.9/queue_job/delay.py:376-380 | the group's graph holds its members without links |
| Delays.Vertex.OnDone | bad_connector_woocommerce-17.0.1.0.9/queue_job/delay.py:340-348 | links the given vertices behind the delayable (514-522), the chain's last member, or every member of the group (392-401), and nothing else |
| Flattening.MergeGraph | bad_connector_woocommerce-17.0.1.0.9/queue_job/delay.py:172-186 | the loops add exactly the edges from the tails of every vertex to the heads of its neighbours |
| Flattening.ConnectGraphs | bad_connector_woocommerce-17.0.1.0.9/queue_job/delay.py:188-212 | the worklist ends, and its result is the graph of all reached vertices' graphs, and of no others |
| FlatteningTheorems.VerticesAreDelayables | bad_connector_woocommerce-17.0.1.0.9/queue_job/delay.py:188-212 | the flattened graph has exactly the reached delayables as its vertices |
| FlatteningTheorems.EdgesAreTailsToHeads | bad_connector_woocommerce-17.0.1.0.9/queue_job/delay.py:181-186 | its edges are exactly those from a tail of a vertex to a head of what is linked behind it |
| FlatteningTheorems.EdgesLeadToVertices | bad_connector_woocommerce-17.0.1.0.9/queue_job/delay.py:172-212 | every edge leads to a vertex, as the sort needs |
| FlatteningTheorems.OnDoneKeepsWorld | bad_connector_woocommerce-17.0.1.0.9/queue_job/delay.py:392-401 | `on_done` keeps every graph closed and all links that were there |
| FlatteningTheorems.LedToIsLater | bad_connector_woocommerce-17.0.1.0.9/queue_job/delay.py:293-295 | in the sorted order, what is led to comes later |
| ComesAfter.HeadLeads | bad_connector_woocommerce-17.0.1.0.9/queue_job/delay.py:330-334 | in any world, every delayable that `AfterHeads` counts is led to from a head |
| ComesAfter.LinksStayAfter | bad_connector_woocommerce-17.0.1.0.9/queue_job/delay.py:330-334 | no link inside a nesting leads out of what `AfterHeads` or `AfterTails` counts |
| ComesAfter.OrderlyIsAfterHeads | bad_connector_woocommerce-17.0.1.0.9/queue_job/delay.py:330-334 | nestings without empty groups whose chains begin and end flat wait as a whole |
| ComesBefore.LeadsToTail | bad_connector_woocommerce-17.0.1.0.9/queue_job/delay.py:330-334 | in any world, every delayable that `BeforeTails` counts leads to a tail |
| ComesBefore.LinksStayBefore | bad_connector_woocommerce-17.0.1.0.9/queue_job/delay.py:330-334 | no link inside a nesting leads into what `BeforeTails` or `BeforeHeads` counts |
| ComesBefore.OrderlyIsBeforeTails | bad_connector_woocommerce-17.0.1.0.9/queue_job/delay.py:330-334 | nestings without empty groups whose chains begin and end flat are waited for as a whole |
| ComesBefore.LinksStayBeforeLink | bad_connector_woocommerce-17.0.1.0.9/queue_job/delay.py:330-334 | no link inside a chain leads into what comes before one of its members |
| OrderKept.LeadsAcross | bad_connector_woocommerce-17.0.1.0.9/queue_job/delay.py:172-212 | in any world, if n is linked behind u, what comes before the tails of u leads to what comes after the heads of n |
| OrderKept.LinkKeepsOrder | bad_connector_woocommerce-17.0.1.0.9/queue_job/delay.py:172-212 | without empty groups, and with chains that begin and end flat: if n is linked behind u, every delayable inside u leads to every delayable inside n |
| OrderKept.LeadsAlongChain | bad_connector_woocommerce-17.0.1.0.9/queue_job/delay.py:319-334 | in any world, what comes before a member of a chain leads to what comes after the heads of that member, over any number of members |
| OrderKept.ChainKeepsOrder | bad_connector_woocommerce-17.0.1.0.9/queue_job/delay.py:319-334 | with the same condition every delayable inside an earlier member of a chain leads to every one inside a later member |
| OrderKept.LeadsAcrossOnDone | bad_connector_woocommerce-17.0.1.0.9/queue_job/delay.py:340-348 | in any world, what comes before the end of a vertex leads to what comes after the heads of what was passed to its `on_done` |
| OrderKept.OnDoneKeepsOrder | bad_connector_woocommerce-17.0.1.0.9/queue_job/delay.py:340-348 | with the same condition all inside a vertex leads to all inside what was passed to its `on_done` |
| NestedOrder.EdgeOfMembers | bad_connector_woocommerce-17.0.1.0.9/queue_job/delay.py:172-212 | an edge of a flattened nesting goes from a tail of a member of a chain to a head of the next one, or is an edge of one member |
| NestedOrder.LeadsBetween | bad_connector_woocommerce-17.0.1.0.9/queue_job/delay.py:319-334 | between two members of a nesting with no delayable in two places, of any number of members: one delayable leads to another if and only if the one comes before the other's member, which nothing does in a group, and the other after the heads of that member |
| NestedOrder.LeadsWithin | bad_connector_woocommerce-17.0.1.0.9/queue_job/delay.py:172-212 | inside one member the same delayables lead to each other as in that member alone |
| NestedOrder.LeadsExactly | bad_connector_woocommerce-17.0.1.0.9/queue_job/delay.py:172-212 | so, in a nesting of any depth, a delayable leads to another if and only if `Precedes` says so, which follows the nesting and not the graph |
| NestedOrder.KeepsOrderExactlyIf | bad_connector_woocommerce-17.0.1.0.9/queue_job/delay.py:319-334 | a chain keeps the intended order between two of its members if and only if all of the one comes before the other and all of the other after its heads |
| NestedOrder.NestedChainDoesNotWait | bad_connector_woocommerce-17.0.1.0.9/queue_job/delay.py:330-334 | in `chain(x, chain(chain(a, b), c))` the delayable a does not wait for x: the head of a chain is the tail of its first member |
| NestedOrder.NestedChainIsNotWaitedFor | bad_connector_woocommerce-17.0.1.0.9/queue_job/delay.py:330-334 | in `chain(chain(a, chain(b, c)), x)` the delayable x does not wait for c: the tail of a chain is the head of its last member |
| OnDoneOrder.LeadsExactlyOnDone | bad_connector_woocommerce-17.0.1.0.9/queue_job/delay.py:340-348 | across one `on_done`, with any number of vertices passed: a delayable leads to one inside a passed vertex if and only if the one comes before the end of the vertex and the other after the heads of the passed one |
| OnDoneOrder.OnDoneKeepsOrderExactlyIf | bad_connector_woocommerce-17.0.1.0.9/queue_job/delay.py:340-348 | so all that was passed waits for all of the vertex if and only if all of it comes before its end and all that was passed after its heads |
| GraphJobs.LinkJobs | bad_connector_woocommerce-17.0.1.0.9/queue_job/delay.py:263-264 | every job depends on exactly those that lead to it, both directions agree, jobs with parents wait while the others are pending, and these are the new rows that `Protocol` creates |
| StoredJobs.Job.AddDepends | bad_connector_woocommerce-17.0.1.0.9/queue_job/job.py:499-508 | depending and being depended on grow together, an undone parent makes the job wait, and a job cannot depend on itself |
| StoredJobs.Job.Perform | bad_connector_woocommerce-17.0.1.0.9/queue_job/job.py:510-535 | counts the attempt unless its error says otherwise, and turns a counted retryable error into a failure exactly at the limit |
| StoredJobs.Job.TryPerform | bad_connector_woocommerce-17.0.1.0.9/queue_job/controllers/main.py:30-41 | what is raised, and what of the record has changed by then, for every way the attempt can go |
| StoredJobs.Job.SetPending | bad_connector_woocommerce-17.0.1.0.9/queue_job/job.py:792-805 | waits if a parent is not done, else is pending; forgets dates and worker, and the counter if asked |
| StoredJobs.Job.GetRetrySeconds | bad_connector_woocommerce-17.0.1.0.9/queue_job/job.py:841-856 | the given seconds, else the pattern's value at the largest threshold reached, else ten minutes |
| StoredJobs.Job.Postpone | bad_connector_woocommerce-17.0.1.0.9/queue_job/job.py:858-871 | the eta is that pause from now, or none for a pause of 0 |
| StoredJobs.Job.RunJob | bad_connector_woocommerce-17.0.1.0.9/queue_job/controllers/main.py:73-153 | from ENQUEUED: done, and owing the dependent jobs, exactly if the method returned or had nothing to do and PostgreSQL did not refuse; failed exactly if it raised or a counted retryable error met the limit; else waiting or pending by its parents, with the eta that the error or the pattern says; a job that is not enqueued is not touched |
| StoredJobs.Job.RetryPostpone | bad_connector_woocommerce-17.0.1.0.9/queue_job/controllers/main.py:77-83 | waiting or pending by the parents, all dates forgotten, and the eta after the given seconds, else the pattern's, else ten minutes |
| StoredJobs.AttemptOnFields | bad_connector_woocommerce-17.0.1.0.9/queue_job/controllers/main.py:73-153 | field by field what an attempt stores, for every way it can go |
| StoredJobs.PauseIsReached | bad_connector_woocommerce-17.0.1.0.9/queue_job/job.py:845-851 | the loop over the sorted pattern stops at the largest threshold reached |
| Retries.BoundIsKeptUnless | bad_connector_woocommerce-17.0.1.0.9/queue_job/controllers/main.py:105-114 | one change keeps the counter below the limit, unless it is the end of an attempt that PostgreSQL refused on the last retry: exactly then not |
| Retries.BoundOverRuns | bad_connector_woocommerce-17.0.1.0.9/queue_job/job.py:510-535 | in every run without such conflicts, even with overlapping workers, the counter is below the limit while the job awaits its run, and never above it |
| Retries.CounterCounts | bad_connector_woocommerce-17.0.1.0.9/queue_job/job.py:510-535 | in every run with one worker at a time the counter is the number of counted attempts since the job was created or requeued |
| Retries.AttemptsAreBounded | bad_connector_woocommerce-17.0.1.0.9/queue_job/job.py:518-533 | so there are at most `max_retries` counted attempts |
| Retries.ConflictsAreNotBounded | bad_connector_woocommerce-17.0.1.0.9/queue_job/controllers/main.py:105-114 | conflicts alone can postpone a job as often as one likes, whatever its limit |
| Retries.EndsLikeAttempt | bad_connector_woocommerce-17.0.1.0.9/queue_job/controllers/main.py:73-153 | at the end of an attempt the counter and the state are those that `AfterAttempt` stores |
| JobRecords.EnqueueWaiting | bad_connector_woocommerce-17.0.1.0.9/queue_job/job.py:537-567 | of the jobs that depend on this one, exactly those that wait and have all parents done become pending; no other state changes |
| JobRecords.ChangeJobState | bad_connector_woocommerce-17.0.1.0.9/queue_job/models/queue_job.py:310-330 | record after record, the rows change as `ChangedAll` says and the records as `AreChanged` says: requeuing forgets counter, dates and worker; a state that is not supported is an error and changes nothing |
| JobRecords.RequeueRecords | bad_connector_woocommerce-17.0.1.0.9/queue_job/models/queue_job.py:342-345 | exactly the records that did not wait before are pending or wait again, with the counter, all dates and the worker at 0; every other record stays as it was |
| JobRecords.ButtonDone | bad_connector_woocommerce-17.0.1.0.9/queue_job/models/queue_job.py:332-335 | the records are done now; of all others at most the state changes, and none that is done |
| JobRecords.ButtonCancelled | bad_connector_woocommerce-17.0.1.0.9/queue_job/models/queue_job.py:337-340 | the records are cancelled now, and nothing else changes |
| JobRecords.ButtonIsLifeChange | bad_connector_woocommerce-17.0.1.0.9/queue_job/models/queue_job.py:310-345 | what a button makes of a record is a change of its life in `Retries`, so that its counter counts from a requeue on |
| JobRecords.ButtonIsStep | bad_connector_woocommerce-17.0.1.0.9/queue_job/models/queue_job.py:310-345 | what a button makes of one job is a step of the protocol |
| JobRecords.ButtonsLoseNone | bad_connector_woocommerce-17.0.1.0.9/queue_job/models/queue_job.py:310-345 | whatever jobs a button is used on, dependencies stay inverse and no promotion is lost |
| JobRecords.RequeueOrderMatters | bad_connector_woocommerce-17.0.1.0.9/queue_job/models/queue_job.py:316-325 | requeuing a done parent and its child: with the child first both can run at once |
| JobRecords.AttemptIsStep | bad_connector_woocommerce-17.0.1.0.9/queue_job/controllers/main.py:105-151 | what an attempt stores at its end is what a worker's step of the protocol makes of its row, whatever others have made of that since the worker loaded its record |
| JobRecords.RunRecord | bad_connector_woocommerce-17.0.1.0.9/queue_job/controllers/main.py:73-147 | on a job of the table, `runjob` is a start step of the protocol and then a finish, a failure or a postponement, as the outcome says, if the job is enqueued, and nothing otherwise; the worker goes on exactly if it owes `enqueue_waiting` |
| JobRecords.SetEnqueued | bad_connector_woocommerce-17.0.1.0.9/queue_job/jobrunner/runner.py:336-344 | the runner stores a job as enqueued, whatever its state is: a step of the protocol, and no other field or job changes |
| JobRecords.SetPending | bad_connector_woocommerce-17.0.1.0.9/queue_job/jobrunner/runner.py:212-233 | when the request fails the job is pending again if it is still enqueued, and untouched otherwise: a step of the protocol |
| JobRecords.StateIsLifeChange | bad_connector_woocommerce-17.0.1.0.9/queue_job/jobrunner/runner.py:212-233 | these, and the promotion of a job that waits, are changes of its life in `Retries` |
| Protocol.NextKeepsInv | bad_connector_woocommerce-17.0.1.0.9/queue_job/job.py:499-508 | every step keeps `depends_on` and `reverse_depends_on` inverse to each other, and every started job has a worker |
| Protocol.NextLosesNone | bad_connector_woocommerce-17.0.1.0.9/queue_job/job.py:537-567 | as long as no worker gives up, every step keeps: a job that waits for parents that are all done has a parent whose `enqueue_waiting` is still to come |
| Protocol.EnqueueDependentJobs | bad_connector_woocommerce-17.0.1.0.9/queue_job/controllers/main.py:43-70 | for whatever PostgreSQL says to each try: the loop ends, and promotes if and only if one of the first six tries works after concurrency errors only; the tries are steps of the protocol |
| ProtocolTheorems.NoPromotionIsLost | bad_connector_woocommerce-17.0.1.0.9/queue_job/controllers/main.py:149-151 | the same for every state of every run |
| ProtocolTheorems.GivingUpLoses | bad_connector_woocommerce-17.0.1.0.9/queue_job/controllers/main.py:53-58 | a worker that gives up loses a promotion exactly if it alone owed it |
| ProtocolTheorems.SafeExactlyIf | bad_connector_woocommerce-17.0.1.0.9/queue_job/job.py:537-567 | a step keeps every active job's parents done if and only if it takes no such parent out of DONE and the runner enqueues no job whose parents are not done |
| ProtocolTheorems.ParentsComeFirst | bad_connector_woocommerce-17.0.1.0.9/queue_job/job.py:537-567 | in every run where done jobs stay done and only pending jobs are enqueued, every pending, enqueued or started job has all its parents done |
| ProtocolTheorems.RequeueDone | bad_connector_woocommerce-17.0.1.0.9/queue_job/models/queue_job.py:342-345 | requeuing a done job by hand is safe exactly if no active job depends on it |
| ProtocolTheorems.NoDeadlock | bad_connector_woocommerce-17.0.1.0.9/queue_job/job.py:537-567 | without cycles, failed or cancelled jobs, some step goes on as long as a job is not done |
| ProtocolTheorems.ForwardWorks | bad_connector_woocommerce-17.0.1.0.9/queue_job/controllers/main.py:29-151 | every step of a succeeding job leaves less to do |
| ProtocolTheorems.EverythingGetsDone | bad_connector_woocommerce-17.0.1.0.9/queue_job/controllers/main.py:29-151 | so every run of such steps is finite, and one that cannot go on has done every job |

## Left out

- `heapq` itself: a heap is a sequence whose front is a least item, which is all that `heappush` and `heappop` promise.
- Full names are kept split at their dots (`Split`, `Join` and the two round trips say that nothing is lost), and a job's channel is the full name of its channel.
- Times are whole seconds from 1 on; 0 stands for no eta, no pause and no date. A capacity of 0 stands for no limit, as in `has_capacity`.
- Generators: `get_jobs_to_run`, `paths` and `topological_sort` return all that they would yield. The runner consumes them without a notification in between.
- `_stop` in the middle of `run_jobs`, exceptions in the runner, `close_databases`, and a second runner.
- `parse_simple_config` and `simple_configure`: runs start from any configured tree in which no channel holds a job (`ChannelRuns.Initial`).
- The weak map `_jobs_by_uuid`: that unreferenced jobs vanish is the step `Forget`, which may happen at any time.
- Priority queues: `None` and indices other than 0 are errors of the caller and not modelled.
- ChannelManagers.ChannelManager.Notify: the two `assert`s on the database and the creation date are its precondition.
- ChannelMoves.SetRunningPlaces: nothing is claimed of the ancestors when the job already runs in its own channel, because `set_running` does nothing then.
- ChannelTheorems.NotifyPlaces: a WAIT_DEPENDENCIES notification leaves a known, unchanged job where it was, as the code does.
- ChannelTheorems.RunConservesWork: a sequential channel compares with its earliest waiting job only, so ready jobs may stay behind it.
- ChannelNames.FallbackStaysBelowLongestPrefix: the created channel repeats the segments of the prefix, as the doctest of `get_channel_by_name` shows; whether that is stable is stated in `FallbackIsStableExactlyIf`.
- ChannelLimits.CapacityOverRuns: says nothing of runs in which jobs are reported running that the root did not dispatch; they take room without asking. `ToldToRunFitsExactlyIf` says when one such report does no harm, and `ClosedLoops` that there are none while one runner works.
- ClosedLoops.StartIsOk: jobs that an earlier runner has left enqueued or started take room without asking when they are first read.
- Channels.Channel.Configure: a negative throttle, which the code takes and which makes channels pause until a time in the past.
- ChannelManagers.ChannelManager.ConfigureChannel: a negative throttle, and taking the throttle away from a channel that pauses, whose old pause would then be a wakeup time for ever.
- Runners.QueueJobRunner.RunJobsAndWait: that the jobs are stored as enqueued is a turn of its own in `ClosedLoops`; the HTTP requests are left out.
- OrderKept.LinkKeepsOrder: for chains that begin and end flat, in any world; the exact conditions are in NestedOrder and OnDoneOrder.
- NestedOrder.LeadsExactly: for the links of the nesting itself; further links between its delayables can only make more of them wait.
- OnDoneOrder.LeadsExactlyOnDone: for one call of `on_done`; further links can only make more delayables wait.
- The docstrings of chains and groups say that what depends on a chain runs only after its last job. The code takes the head of the last member for the tail of a chain, and the tail of the first member for its head; the model follows the code.
- `delay`: identity keys, the graph uuid, the direct execution for tests and the storing of the records.
- The defaults of `max_retries`, `priority` and `channel` when a job is made: the model is given the values.
- The bodies of jobs, their results and messages, `description`, related actions and serialisation.
- StoredJobs.Job.RunJob: one attempt is one call; that others change the record while the job runs is in Retries and Protocol, whose steps are the transactions.
- Retries.BoundOverRuns: the runner enqueues pending jobs only, and `max_retries` does not change.
- Protocol.EnqueueDependentJobs: PostgreSQL refuses all further statements of a transaction after an error, and nothing rolls it back before the next try; so the answers after the first conflict are other errors then, and a worker may give up at its second try. The contract holds for all answers.
- Protocol: row locks, the HTTP request and the SQL text; `enqueue_waiting`, the check of the state in `runjob`, and every `store` are atomic steps with the meaning that the SQL states. Jobs are not deleted.
- `requeue_stuck_jobs`, autovacuum, and crashes of workers, which leave a job started for ever.
- `component/`, `component_event/`, `connector/` and both `mt_odoo_*` modules: class machinery and API plumbing with easier claims.
