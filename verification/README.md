# A verified model of the orchestrator

This project models the orchestrator of ZeptoPM in Dafny and proves properties of it: the engine that
schedules jobs, the daemon that drives the engine, the channels over which jobs talk to each other, the
bridge to each worker process, and the rate limiter of the HTTP server. `dafny verify dfyconfig.toml`
verifies all of it.

## How it is organised

| file | what is in it |
|---|---|
| Types, Collections | the records; listings, filters, sums over maps |
| Ids | generated identifiers and channel keys as strings |
| Planner, Materialization | validating a plan; what materializing it must produce |
| Channels | one channel: turns, rounds, limits |
| EngineSpec | the engine's state as a value, and what each call does to it |
| EngineInv, EngineExact, EngineLife | the invariant every call keeps; exactly which calls do not keep it; cancelling and restarting |
| Failures | what losing a job does to its peers, and exactly when that keeps the invariant |
| Daemon, DaemonFrame | the daemon as a state machine with one event per message it handles; what no event undoes |
| Progress, Cycles, QueueOrder, Starts | dependencies, deadlock, circular plans, first in first out, the retry bound |
| RunFrame, Recovery | a message concerns one run; the daemon with its database, killed and started again |
| Restarts | starts forgotten without bound; what a graceful shutdown does to the runs it cancels |
| Revisions | chains of reviews that ask for changes |
| Termination, Replanning | a measure for retries and revisions; why plans that ask for planners have none |
| Verdicts | the status and the final artifacts of a finished run |
| Rest, Cancellation, StaleTick | cancelled runs at rest; what a cancellation is worth; the timer that fails silent jobs |
| Heartbeats | when a job is timed out, by when it was last heard of |
| Tasks | every run is planned from its task |
| EngineCalls | the concurrency cap, for any calls whatever |
| ChannelLife, ChannelEvents, Token, Stall | a channel over whole runs; exactly what opens and closes one; a turn-based channel as a distributed protocol; jobs whose conversation has stopped |
| Bridge | the loop between the daemon and one worker |
| RateLimit | the sliding window |
| Store, Database, Scheduler, EngineImpl, DaemonImpl | the classes and loops of the program, proved against the modules above |

The program's objects that are updated in place are classes here too (`RunStore`, `Persistence`,
`OrchestratorEngine`, `WorkerBridge`, `RateLimitBucket`, `Generator`), with the same fields and the same
loops. A hash table is a `map` field; iterating over one yields its keys in an order nothing may rely on
(`Store.Iterate`). The theorems about whole runs are about the value `State()` of the engine: `EngineSpec` says
what a call does to it all at once, and each method of `EngineImpl`, `Scheduler` and `DaemonImpl` is proved to do
exactly that.
`OrchestratorEngine.Valid` is the invariant of EngineInv; the handlers of `DaemonImpl` keep it.

A run of the daemon is a sequence of events, each enabled in its turn (`Daemon.Legal`). What is assumed of an
event is in `Daemon.Enabled` and nowhere else:

- A completion or a failure is reported for a job that holds a slot. The program does not ask for this;
  `EngineExact.FailKeepsInvIff` and `EngineExact.CompleteKeepsInvIff` say exactly what happens otherwise.
- When a job fails, the peers its channels kill hold slots or have Failed, and none with attempts left is killed
  twice. `Failures.OnFailedKeepsIff` says for any peers whatever which failures keep the invariant. The program
  can get to one that does not in four ways: `Failures.TwoSharedChannelsQueueTwice`,
  `Failures.KilledThroughAnotherChannel` (a peer killed through one channel waits to be started again when a peer
  in another fails), `Failures.CompletedPeerIsReopened` (a peer that completed while its channel is active is
  reopened) and `StaleTick.StaleTogetherBreaks`.
- A plan is rejected before anything has been started because of its planner, which was completed first and is
  failed then. `Daemon.OnCompletedKeepsIff` says that this, too, is exact.
- A restart finds records that lack no more than starts. This is proved of a daemon that saves the run of every
  message it handles, as the program does (`Recovery.PromptIsReachable`); records of any other ages still give
  back the invariant (`Recovery.AnyAgesRecover`, `EngineLife.RestartKeepsInvIff`). Restarts are allowed at any
  time, also after runs have been cancelled.
- Identifiers are new. `Ids` proves that generated ones are.

Starting queued jobs is an event of its own, so the interleavings considered include those of the program and
more.

## Where the program does less than it says

- README.md:300 offers to cancel a running run. A run is given its verdict when its planner completes, before
  the plan is materialized (src/daemon.rs:475, 489), and a run with a verdict cannot be cancelled, so a run
  can be cancelled only while it is being planned (`Cancellation.CancelledOnlyWhilePlanning`,
  `Cancellation.CancelRefusedAfterPlanning`).
- README.md:61 says jobs form a DAG. Validation rejects a job that waits for itself, not longer circles, and
  the jobs on an accepted circle wait for ever (`Cycles.CyclicPlanAccepted`, `Cycles.CyclicPlanIsStuck`).
- src/daemon.rs:503 announces that a run with an invalid plan is marked failed. It is not: its planner is
  retried, and once it has no attempts left the run is left Completed (`Verdicts.RejectedPlanVerdictIff`).
- TODO.md:152 says runs in progress resume after the daemon is killed. A run in which everything unfinished was
  running on its last attempt is left as it was: one still being planned stays Running with nothing to run, one
  that was planned stays Completed though a job Failed (`Verdicts.RestartVerdictIff`). A conversation that had
  begun never goes on (`Token.NeverResumes`); the timer renews the heartbeats of its participants
  (`Stall.WaitingIsNeverStale`), so they keep their slots and the run never finishes (`Stall.StalledForever`).
- A graceful shutdown cancels every run that is Pending or Running (src/daemon.rs:845-867). The next start queues
  the planners of cancelled runs that have attempts left (src/daemon.rs:186-188), so such a run is taken up again
  while it says Cancelled (`Restarts.ShutdownRevives`, `Cancellation.RestartRevivesIff`). It stays Cancelled until
  its planner completes, and is then Completed and given its plan, or fails on its last attempt, and is then
  Failed (`Cancellation.RevivedRun`), unless that attempt is lost to yet another restart.
- A job has max_attempts attempts, but a job that is started when a message of another run has been handled
  has its start written only with the next message of its own run. A daemon killed before that forgets the
  start, and there is no bound on how often a job is started (`Starts.StartForgotten`,
  `Restarts.StartsUnbounded`).
- A run is stored row by row. Interrupted between a completion and the promotions it brings, a save leaves a job
  that waits for nothing and is never queued (`Recovery.TornSaveBreaks`).
- A report that arrives after its run was cancelled is acted upon, whether it says that the planner is done or
  that it failed. `Cancellation.LateReportRevivesIff` says exactly which reports put jobs of the run back in the
  queue. The run stays Cancelled until they have all finished and is then given a verdict
  (`Cancellation.CancelledUntilFinished`, `Cancellation.LateFailureUndoesCancellation`).

In all these cases the model follows the program.

## Model

| member | source | states |
|---|---|---|
| `Ids.GenIdInjective` | src/orchestrator/scheduler.rs:79-88 | a generated id determines its prefix, its timestamp and its counter |
| `Ids.Generator.Next` | src/orchestrator/scheduler.rs:79-88 | the id handed out differs from every id handed out before |
| `Ids.ChannelKeyInjective` | src/orchestrator/planner.rs:156-157 | the key of a channel determines its run and its planned name, whatever the name contains |
| `Ids.ChannelKeyOfArbitraryRunsCollides` | src/orchestrator/planner.rs:156-157 | this needs run ids to be generated ones: two keys made from an id with a colon in it coincide |
| `Planner.NoDefectIffWellFormed` | src/orchestrator/planner.rs:9-89 | a plan has no defect if and only if it is well formed |
| `Planner.WellFormedMeans` | src/orchestrator/planner.rs:9-89 | a plan is well formed if and only if it has jobs with distinct local ids, filled fields and dependencies on other jobs of the plan, and channels with distinct names whose participants are jobs of the plan, at least one and in turns at least two |
| `Planner.ReportIsDefects` | src/orchestrator/planner.rs:9-89 | the ordered report consists of exactly the defects of the plan, and is empty if and only if the plan is well formed |
| `Planner.ValidatePlan` | src/orchestrator/planner.rs:9-89 | the errors are exactly the defects of the plan, in the order of the loops and as often as they occur, and there are none if and only if the plan is well formed |
| `Planner.JobErrors` | src/orchestrator/planner.rs:22-50 | the errors of one job are exactly its blank fields, unknown dependencies and dependency on itself, in that order, one for each offending reference |
| `Materialization.PlanJobsPreserved` | src/orchestrator/planner.rs:93-146 | an accepted plan gives one fresh job per planned job, in order, Ready exactly if it waits for nothing, with the planned dependencies translated one by one; no other job is touched |
| `Materialization.PlannedJobBecomes` | src/orchestrator/planner.rs:114-146 | a planned job becomes a planner or a reviewer by the name of its role, keeps instruction and profile, starts from nothing, has never been attempted and may be attempted three times |
| `Materialization.ImageEdges` | src/orchestrator/planner.rs:108-112 | an edge or a seat is there in the translation if and only if the plan has it |
| `Materialization.PlanChannelsPreserved` | src/orchestrator/planner.rs:148-171 | each channel keeps its participants in order and number and all its settings; channels under other names are untouched |
| `Materialization.ExistingChannelsKeptIff` | src/orchestrator/planner.rs:156-171 | materializing leaves existing channels alone if and only if no planned name is taken by a different channel of the run |
| `Channels.RouteSpec` | src/orchestrator/engine.rs:286-334 | a message is recorded if and only if the channel is active and it is the sender's turn; otherwise nothing changes; the cursor stays a function of the history |
| `Channels.RouteRecipients` | src/orchestrator/engine.rs:336-378 | an accepted message closes the channel and goes to nobody, or is passed on unchanged: in turns to the next speaker, in a stream to everyone but the sender |
| `Channels.ConversationSpec` | src/orchestrator/engine.rs:286-378 | after any messages from anyone in any order the history is exactly the messages that were in turn, speaker and round are its length modulo and divided by the number of participants, message i has round i / n, and the channel is closed exactly when the limit is used up |
| `Channels.RoundLimit` | src/orchestrator/engine.rs:309-347 | with a limit of m rounds and n participants at most m * n messages are accepted and the channel closes on message m * n and no other; a limit of zero closes it on the first |
| `Channels.TurnsTaken` | src/orchestrator/engine.rs:298-314 | in turns, seat i has spoken once per completed round and once more if its turn in this one has passed |
| `Channels.Fairness` | src/orchestrator/engine.rs:298-347 | any two participants have spoken equally often up to one; at the limit of m rounds each has spoken m times |
| `Channels.PeerLostSpec` | src/orchestrator/engine.rs:405-434 | losing a peer closes the channel; by its policy exactly the other participants, each as often as it has a seat, are to be killed, or told of that peer |
| `EngineSpec.OutputsWithout` | src/orchestrator/scheduler.rs:57-65 | the multiset of outputs of a set of jobs does not depend on the order in which they are visited |
| `EngineInv.SubmitKeeps` | src/orchestrator/engine.rs:28-71 | submitting a run keeps the invariant |
| `EngineInv.SpawnKeeps` | src/orchestrator/engine.rs:74-108 | dequeuing and starting keeps the invariant, cap included |
| `EngineInv.CompleteKeeps` | src/orchestrator/engine.rs:134-149 | completing a slot-holding job keeps the invariant: exactly the newly unblocked jobs are promoted and queued |
| `EngineInv.CompleteDecides` | src/orchestrator/engine.rs:134-149 | completing any job leaves its run with a verdict |
| `EngineExact.FailKeepsInvIff` | src/orchestrator/engine.rs:437-455 | failing a job keeps the invariant if and only if the job is unknown, holds a slot, has Failed, is Ready but not queued, or is Completed and nothing has been started because of it |
| `EngineExact.ReopenBreaks` | src/orchestrator/engine.rs:437-455 | failing a Completed job on which a started job depends leaves that job without its dependency |
| `EngineExact.CompleteKeepsInvIff` | src/orchestrator/engine.rs:134-149 | completing a job keeps the invariant if and only if it is unknown, holds a slot, is Completed, or has Failed or is Ready but not queued while its dependents wait for something else too |
| `EngineLife.CancelSpec` | src/daemon.rs:1461-1532 | what a cancellation comes to, in whatever order its jobs are failed |
| `EngineLife.CancelKeeps` | src/daemon.rs:1461-1532 | a cancellation keeps the invariant |
| `EngineLife.RestartKeepsInvIff` | src/daemon.rs:157-206 | whatever records are stored, a restart from them gives a state that satisfies the invariant if and only if they satisfy its part about records |
| `EngineLife.RecoverySpec` | src/daemon.rs:157-206 | from whatever is stored: nothing runs, lost jobs are queued exactly if attempts remain, the queue holds the Ready jobs once each, and finished work, attempts, conversations and cursors are what was stored |
| `Daemon.MaterializeShape` | src/daemon.rs:489-500 | an accepted plan adds its jobs and queues the Ready ones in plan order, and changes nothing else but channels |
| `Revisions.RevisionChain` | src/orchestrator/engine.rs:155-240 | over any history, a chain of k revisions of one review ends in a review k rounds on, within the maximum, with the first review's profile and parent and no inputs, and in a job with role, profile and instruction of the one first reviewed and the feedback of every review since, in order, whose inputs are the outputs of the job reviewed just before it |
| `Revisions.ChainsAreShort` | src/orchestrator/engine.rs:174-177 | so a chain of revisions has at most max_revisions links |
| `Revisions.InstructedTellsAll` | src/orchestrator/engine.rs:180-192 | the instruction begins with the original one and contains every feedback given |
| `Failures.FailPeersShape` | src/daemon.rs:47-85 | whatever the order of the channels, losing a job closes them and fails the peers on the kill list one after the other |
| `Failures.KilledIff` | src/orchestrator/engine.rs:405-434 | a peer is on the kill list if and only if it shares one of the channels with the lost job and that channel kills all |
| `Failures.KillsQueueOnceIff` | src/daemon.rs:55-71 | after the kills the queue is free of repetitions if and only if the peers with attempts left are killed once each and were not queued |
| `Failures.OnFailedKeepsIff` | src/daemon.rs:567-581 | whoever the peers are, handling a failure keeps the invariant if and only if each of them could be failed on its own and none with attempts left is killed twice |
| `Failures.FailedJob` | src/orchestrator/engine.rs:437-455 | a job that fails is out of its slot with the error noted, queued again exactly if it has attempts left, Failed otherwise |
| `Daemon.OnCompletedKeepsIff` | src/daemon.rs:459-551 | handling a completion keeps the invariant if and only if it does not reject a plan after something was started because of its planner |
| `Daemon.JobsAdded` | src/daemon.rs:475-551 | a completion adds the jobs of an acceptable plan if a planner brings one, a coder and a reviewer if a review asks for changes within the maximum of rounds, and no others |
| `Failures.TwoSharedChannelsQueueTwice` | src/daemon.rs:55-71 | two channels shared by the same two jobs put a job in the queue twice |
| `Failures.KilledThroughAnotherChannel` | src/daemon.rs:55-71 | with j and p in one channel and p and q in another, the failures of j and then of q queue p twice if p has not been started in between |
| `Failures.CompletedPeerIsReopened` | src/daemon.rs:55-71 | the failure of a peer reopens a job that completed while their channel is active, queues it if it has attempts left, and keeps the invariant if and only if nothing was started because of it |
| `Daemon.StepKeepsInv` | src/daemon.rs:395-690 | every event keeps the invariant |
| `Daemon.ReachableInv` | src/daemon.rs:395-690 | so every reachable state satisfies the invariant |
| `DaemonFrame.LaterEvolves` | src/daemon.rs:395-690 | however the daemon goes on, jobs keep run, role, dependencies and instruction, Completed records stay as they are, Failed stays Failed, only undecided runs are cancelled, and no run is undecided again |
| `RunFrame.StepTouchesOne` | src/daemon.rs:395-690 | a message about one run changes, adds and removes no record of any other |
| `Recovery.AnyAgesRecover` | src/orchestrator/sqlite_store.rs:322-337 | whichever runs were saved when, the engine satisfies the invariant throughout, and restarted now it does again |
| `Recovery.PromptIsHistory` | src/daemon.rs:561-565 | a daemon that saves the run of each message goes through a history of the engine with the same starts, kills being restarts that lose no more than starts |
| `Recovery.PromptIsReachable` | src/daemon.rs:561-565 | so its engine is one of the reachable engines all theorems are about |
| `Recovery.TornSaveBreaks` | src/orchestrator/sqlite_store.rs:322-337 | with a completion stored but not a promotion it brought, a restart leaves a job Pending with everything it depends on Completed |
| `Progress.StartedIsUnblocked` | src/orchestrator/engine.rs:74-108 | a job that is started was Ready, with attempts left and everything it depends on Completed, of a live run or the planner of a cancelled one; its run is Running if it was Pending |
| `Progress.DependencyExactness` | src/orchestrator/scheduler.rs:6-30 | at every moment a job is Pending if and only if something it depends on is not Completed |
| `Progress.CompletedForever` | src/orchestrator/engine.rs:134-149 | a Completed record never changes again |
| `Progress.Partition` | src/orchestrator/engine.rs:74-149 | at every moment a job is in exactly one of: Pending, queued once with attempts left, in a slot, finished, or laid aside as the planner of a cancelled run |
| `Progress.NoDeadlock` | src/orchestrator/scheduler.rs:6-30 | in a run whose own dependencies can be ranked, following what an unfinished job waits for leads to a queued or running one |
| `Progress.DeadlockFree` | src/orchestrator/engine.rs:134-149 | in every reachable state, a live run with acyclic dependencies and no failure that is not finished has a job that is queued or in a slot, whatever other runs look like |
| `Progress.AcyclicPlansAcyclicRun` | src/orchestrator/planner.rs:93-146 | the dependencies of a run are acyclic if the plans accepted for it are |
| `Cycles.AcyclicIffNoCircle` | src/orchestrator/planner.rs:39-49 | a plan can be ranked if and only if no set of its jobs wait for one another |
| `Cycles.DeadlockIffCircle` | src/orchestrator/scheduler.rs:6-30 | in every reachable state, a live run without failures has nothing queued or in a slot if and only if its unfinished jobs wait for one another |
| `Cycles.CircleNeverStarts` | src/orchestrator/scheduler.rs:14-22 | jobs that wait for one another are never queued, started or completed, over any history |
| `Cycles.CyclicPlanAccepted` | src/orchestrator/planner.rs:39-49 | two jobs that wait for each other pass validation |
| `Cycles.CyclicPlanIsStuck` | src/daemon.rs:485-500 | once such a plan is materialized, its circular jobs are never queued, started or completed, whatever happens later |
| `QueueOrder.StepMovesUp` | src/orchestrator/engine.rs:74-82 | no event of a session moves a queued job back, and none but the cancellation of its run takes it off unstarted |
| `QueueOrder.NoStarvation` | src/orchestrator/engine.rs:74-82 | a job with k others before it has been started by the time k + 1 jobs have, unless its run was cancelled |
| `Starts.StartsAreAttempts` | src/orchestrator/engine.rs:85-94 | over any history, starts = attempts gained + starts a restart forgot, and each restart forgets at most one per job |
| `Starts.RetryBound` | src/orchestrator/engine.rs:437-450 | in a session, which may begin with any recovered state, a job is started at most as often as it had attempts left |
| `Starts.ThreeStarts` | src/orchestrator/engine.rs:437-450 | from the first start of the daemon to its end no job is started more than three times |
| `Starts.RetryBoundAcrossRestarts` | src/daemon.rs:157-206 | across restarts, at most max_attempts times and once more for each start forgotten |
| `Starts.StartForgotten` | src/daemon.rs:554-565 | a start that was not saved is forgotten by a restart, attempt included |
| `Restarts.StartsUnbounded` | src/daemon.rs:400-411 | for any number of slots and every n there are n turns of a daemon that starts all it can and saves every run it hears of, with kills in between, in which one job is started n times |
| `Restarts.HistoriesUnbounded` | src/daemon.rs:400-411 | so for every n there is a history in which one job is started n times |
| `Termination.StepLessWork` | src/orchestrator/engine.rs:85-240 | no event but a submission, a plan that asks for planners or a restart that forgets a start leaves more work, and every other event that changes a job leaves less |
| `Termination.RevisionIsLighter` | src/orchestrator/engine.rs:155-240 | the two jobs of a revision weigh no more than the review rounds they use up |
| `Termination.Settles` | src/orchestrator/engine.rs:85-240 | in any endless run without submissions and without plans that ask for planners, once no start is forgotten any more, the jobs stop changing |
| `Termination.SettlesIff` | src/orchestrator/engine.rs:85-240 | such a run comes to rest if and only if starts are forgotten only finitely often |
| `Termination.RevisionRoundsBounded` | src/orchestrator/engine.rs:174-177 | no job ever has a revision round above the maximum |
| `Replanning.PlannersNeverSettle` | src/daemon.rs:467-500 | with plans that ask for planners there is a run that never settles |
| `Verdicts.RunVerdict` | src/orchestrator/scheduler.rs:34-76 | over any history, a live run whose jobs are all finished is Failed if one Failed and Completed otherwise, with exactly the outputs of the jobs nothing waits for, if and only if the last event that touched it was neither a rejection nor a restart of the two kinds that spoil it |
| `Verdicts.FinalArtifacts` | src/orchestrator/scheduler.rs:34-76 | in a finished live run that is not spoilt, an artifact is among the final ones exactly as often as the jobs that no other job of the run depends on have produced it, and the status is Failed exactly if a job Failed |
| `Verdicts.ArtifactIsFinalIff` | src/orchestrator/scheduler.rs:57-65 | so it is among them if and only if a job nothing waits for has produced it |
| `Verdicts.VerdictOnlyWhenFinished` | src/orchestrator/scheduler.rs:34-55 | completing or failing a job leaves the record of its run alone unless all jobs of the run have finished |
| `Verdicts.StepVerdictIff` | src/orchestrator/scheduler.rs:34-76 | an event that touches a live run leaves it finished with a wrong verdict if and only if it is one of these |
| `Verdicts.RejectedPlanVerdictIff` | src/daemon.rs:500-516 | rejecting a plan leaves a finished run with a wrong verdict if and only if the planner has no attempts left and all else finished without failure |
| `Verdicts.RestartVerdictIff` | src/daemon.rs:157-206 | a restart that finds a job of a run Running leaves the run finished with a wrong verdict if and only if everything unfinished in it was Running on its last attempt and it does not say Failed with the right artifacts already |
| `Verdicts.LostPlannerLeavesRunOpen` | src/daemon.rs:174-190 | if it was still being planned it is left undecided with nothing left to run |
| `Cancellation.CancellationCancels` | src/daemon.rs:1461-1532 | an accepted cancellation leaves the run cancelled, with no job of it queued, in a slot or next to be started |
| `Cancellation.CancelEffectIff` | src/daemon.rs:1461-1477 | cancelling makes a run Cancelled if it was Pending or Running, and does nothing otherwise |
| `Rest.StepRests` | src/daemon.rs:395-690 | no event but a restart touches a cancelled run that has nothing queued and nothing in a slot |
| `Cancellation.CancellationIsFinal` | src/orchestrator/engine.rs:74-82 | over any later history of the session a cancelled run that is quiet stays cancelled and quiet, and its jobs stay as they are |
| `Cancellation.RestartRevivesIff` | src/daemon.rs:157-206 | a restart leaves the records of a cancelled run alone and queues its planner if and only if that is Ready |
| `Cancellation.RevivedRun` | src/orchestrator/scheduler.rs:34-76 | when the planner of a cancelled run is at work again, completing it makes the run Completed; failing it leaves the run Cancelled and the planner queued, or makes it Failed on the last attempt |
| `Restarts.ShutdownRevives` | src/daemon.rs:845-867 | after a graceful shutdown and the next start every run that was undecided says Cancelled, and its planner is queued if and only if it was not finished and has attempts left |
| `Cancellation.CancellationIsolates` | src/daemon.rs:1461-1532 | other runs keep records, jobs, slots and queue order |
| `Cancellation.CancelledOnlyWhilePlanning` | src/daemon.rs:1461-1477 | a cancellation that does anything is of a run with no job but its planner |
| `Cancellation.CancelRefusedAfterPlanning` | src/daemon.rs:475-500 | once a job of a run has completed, cancelling the run is refused for ever |
| `Tasks.TasksArePlanned` | src/orchestrator/engine.rs:28-71 | over any history every run has a planner that was given the run's task, starts from nothing and waits for nothing |
| `Cancellation.LateReportRevivesIff` | src/daemon.rs:459-588 | a late report about the planner of a cancelled run, of completion with any text or of failure, leaves the run's record alone, and queues a job of the run if and only if it brings an acceptable plan with a job that waits for nothing, or fails the planner or brings an unacceptable text while attempts are left |
| `Cancellation.LateReportKeepsInvIff` | src/daemon.rs:459-588 | a late report keeps the invariant if and only if it brings no acceptable plan |
| `Cancellation.CancellationStands` | src/daemon.rs:459-588 | late reports that neither revive the run nor bring a plan leave it cancelled and quiet, among any other events of the session |
| `Cancellation.CancelledUntilFinished` | src/orchestrator/scheduler.rs:34-76 | a cancelled run whose jobs are at work again stays Cancelled until they have all finished and then has their verdict |
| `Cancellation.LateFailureUndoesCancellation` | src/daemon.rs:567-588 | so a late failure can end in the cancelled run being Completed |
| `EngineCalls.ConcurrencyCap` | src/orchestrator/engine.rs:74-139 | after any calls with any identifiers, those about channels included, Running jobs and heartbeats are among the slots, there are at most max_concurrency of them, and only slot-holding jobs are reported stale |
| `StaleTick.StaleTogetherBreaks` | src/daemon.rs:747-783 | when two silent jobs share a channel that kills its peers, failing the second after the first keeps the invariant if and only if the second has meanwhile been started again |
| `ChannelLife.ChannelLifecycle` | src/orchestrator/engine.rs:244-434 | over any history no channel is active and closed, cursors agree with histories, no open channel has used up its limit, histories only grow, and a closed channel never changes |
| `ChannelLife.RoundLimitAlways` | src/orchestrator/engine.rs:309-347 | in every reachable state, restarts included, a channel of n seats limited to m rounds holds at most m * n messages and is closed once it holds them |
| `ChannelLife.PlannersOfCancelledRunsHaveNoSeat` | src/daemon.rs:47-85 | a job of a cancelled run takes part in no channel, so that its late failure kills nobody |
| `ChannelLife.ActivatedOnce` | src/orchestrator/engine.rs:244-282 | within a session a channel is activated at most once |
| `ChannelEvents.OpensIff` | src/orchestrator/engine.rs:244-282 | a channel becomes active if and only if channels are activated, it is open and inactive, and each of its participants holds a slot |
| `ChannelEvents.ClosesIff` | src/orchestrator/engine.rs:286-434 | an open channel is closed if and only if it is active and a participant is done with it, says in turn the last message the limit allows, or fails |
| `ChannelEvents.ClosedCompletes` | src/daemon.rs:596-673 | the message that closes a channel completes exactly its running participants all of whose channels are closed |
| `ChannelLife.SweepSpec` | src/daemon.rs:1145-1199 | handling a closed channel completes exactly the running participants whose other channels are closed; other jobs keep their records or are unblocked |
| `ChannelLife.ClosingCompletes` | src/daemon.rs:1145-1199 | a running participant is completed if and only if every channel it belongs to is closed |
| `Bridge.RequestIdsUnique` | src/agent.rs:324-346 | no two requests go out under the same id |
| `Bridge.TablesDisjoint` | src/agent.rs:315-346 | pending and pending_channel never share an id |
| `Bridge.RequestsConserved` | src/agent.rs:315-420 | awaited requests taken = answered + pending |
| `Bridge.ExitsIff` | src/agent.rs:319-507 | the loop is left when an end has closed, when the worker says it has stopped and when a command could not be written, and for nothing else |
| `Bridge.TurnKeeps` | src/agent.rs:317-508 | every turn of the loop keeps each table and each log of answers in agreement with the inputs so far |
| `Bridge.DrainSpec` | src/agent.rs:510-513 | draining leaves every awaited request with exactly one reply, its first answer or the exit notice |
| `Bridge.HeardIsTold` | src/agent.rs:408-426 | the orchestrator is told once of every channel request answered and of no other: the text, on the request's channel, or that the job failed and the error |
| `Bridge.WorkerBridge.Take` | src/agent.rs:319-507 | one turn of the loop, what it reports of a channel answer, and whether it leaves |
| `Bridge.WorkerBridge.Drain` | src/agent.rs:510-513 | everyone pending is told once that the worker has exited |
| `Bridge.WorkerBridge.Run` | src/agent.rs:317-513 | for every interleaving of commands and worker output the loop leaves at the first input that makes it, and then every awaited message has its one reply |
| `Token.SingleToken` | src/daemon.rs:18-42 | at every moment of every run, while the channel is active exactly one request or answer of it is under way, the current speaker's, carrying the message to be answered; otherwise none |
| `Token.NoAnswerRejected` | src/daemon.rs:596-617 | so no answer that reaches the daemon is out of turn |
| `Token.HistoryIsConversation` | src/agent.rs:344-426 | every message of the history is by the participant whose turn it was, answers a request that carried the one before it, and says what the first response to that request said; an answer to a setup prompt never gets in |
| `Token.ResumesIff` | src/daemon.rs:18-42 | after a restart, activating a channel sends somebody something if and only if nothing had been said in it |
| `Token.NeverResumes` | src/daemon.rs:18-42 | a conversation that had begun before a restart never goes on: over any steps nobody is asked and history and cursor stay |
| `Stall.LeavesSlotIff` | src/daemon.rs:459-690 | a participant of an open channel that an event does not concern leaves its slot if and only if the event reports it or kills it |
| `Stall.StalledForever` | src/daemon.rs:724-745 | as long as the channel is silent and the job left waiting, it keeps its slot and its run does not finish, over any session |
| `Stall.RenewedStale` | src/daemon.rs:724-748 | after the timer's renewals exactly the jobs that were stale and not renewed are stale |
| `Stall.WaitingIsNeverStale` | src/daemon.rs:724-748 | so a waiting participant with an idle worker is never timed out |
| `Heartbeats.StaleIff` | src/orchestrator/engine.rs:119-131 | over any history, a job is reported stale if and only if it holds a slot and was last started or heard of longer ago than the timeout |
| `Heartbeats.StaleAfterRenewalIff` | src/daemon.rs:724-748 | and after the timer's renewals if and only if, besides, it has no idle worker or no seat at an open channel |
| `RateLimit.MinuteBound` | src/server.rs:97-114 | no closed minute of the log holds more than limit acceptances |
| `RateLimit.BoundMeansSpaced` | src/server.rs:97-114 | and a log with that bound is one CheckAndRecord can have written |
| `RateLimit.RateLimitBucket.CheckAndRecord` | src/server.rs:97-114 | a request is accepted if and only if fewer than limit were accepted in the last minute of the full log, and if and only if the log keeps the bound with it |
| `RateLimit.RateLimitBucket.Remaining` | src/server.rs:115-120 | the limit less the acceptances of the last minute of the full log |
| `Store.RunStore.ListRunJobs` | src/orchestrator/store.rs:57-59 | the jobs of the run, each once, in some order |
| `Store.RunStore.ListRunChannels` | src/orchestrator/store.rs:82-87 | the channels of the run, each once, by the filter loop |
| `Store.RunStore.ChannelsForJob` | src/orchestrator/store.rs:89-94 | the loop that filters all channels yields the active ones the job takes part in, each once, whatever the order of the table |
| `Store.RunStore.AllChannelsForJob` | src/orchestrator/store.rs:96-101 | the loop that filters all channels yields all those the job takes part in, each once |
| `Store.RunStore.RemoveRun` | src/orchestrator/store.rs:104-138 | removes the run, its jobs and its channels and nothing else |
| `Store.RemovalIsolates` | src/orchestrator/store.rs:104-138 | what is left knows nothing of the run and everything about every other run, verdict and final artifacts included |
| `Database.Persistence.PersistRunState` | src/orchestrator/sqlite_store.rs:322-337 | the loops write the run, its jobs and its channels and change no other row |
| `Scheduler.PromoteUnblockedJobs` | src/orchestrator/scheduler.rs:6-30 | the loop promotes exactly the jobs unblocked at its start and returns each once |
| `Scheduler.CheckRunCompletion` | src/orchestrator/scheduler.rs:34-76 | exactly when all jobs of the run have finished, the loops make it Failed if one Failed and Completed otherwise, with each artifact as often as the jobs nothing waits for have produced it |
| `EngineImpl.MaterializePlan` | src/orchestrator/planner.rs:93-174 | the loops create exactly the specified jobs and channels and return the ids in plan order |
| `EngineImpl.OrchestratorEngine.SubmitRun` | src/orchestrator/engine.rs:28-71 | does what Submit says of the state |
| `EngineImpl.OrchestratorEngine.NextJob` | src/orchestrator/engine.rs:74-82 | takes the head of the queue if there is room |
| `EngineImpl.OrchestratorEngine.MarkRunning` | src/orchestrator/engine.rs:85-108 | starts an active job and its run |
| `EngineImpl.OrchestratorEngine.RecordHeartbeat` | src/orchestrator/engine.rs:111-116 | records the heartbeat of an active job only |
| `EngineImpl.OrchestratorEngine.StaleJobs` | src/orchestrator/engine.rs:119-131 | exactly the active jobs whose last heartbeat is more than the timeout before now, or missing, each once |
| `EngineImpl.OrchestratorEngine.MarkCompleted` | src/orchestrator/engine.rs:134-149 | completes, promotes, queues and settles as MarkCompleted says, for some order of promotion |
| `EngineImpl.OrchestratorEngine.MarkFailed` | src/orchestrator/engine.rs:437-455 | requeues or fails and settles as MarkFailed says |
| `EngineImpl.OrchestratorEngine.HandleReviewCompletion` | src/orchestrator/engine.rs:155-240 | creates no job, or two: one to redo the work, with profile, role and outputs of the job reviewed, and one to review it, with profile and role of the review |
| `EngineImpl.OrchestratorEngine.ActivateReadyChannels` | src/orchestrator/engine.rs:244-282 | activates and returns exactly the open channels of active runs whose participants all run, each once |
| `EngineImpl.OrchestratorEngine.RouteChannelMessage` | src/orchestrator/engine.rs:286-378 | routes as Channels.Route says |
| `EngineImpl.OrchestratorEngine.HandleChannelDone` | src/orchestrator/engine.rs:381-402 | closes an active channel for a participant only |
| `EngineImpl.OrchestratorEngine.HandleChannelPeerFailure` | src/orchestrator/engine.rs:405-434 | closes the channel and returns who is to be killed or told |
| `DaemonImpl.SpawnReadyJobs` | src/daemon.rs:554-558 | starts queued jobs until the queue is empty or the slots are full, and keeps the invariant |
| `DaemonImpl.HandlePeerFailures` | src/daemon.rs:47-85 | closes the job's active channels and kills the peers they name |
| `DaemonImpl.OnJobFailed` | src/daemon.rs:567-581 | is the JobFailed event, and keeps the invariant wherever that is enabled |
| `DaemonImpl.ApplyPlan` | src/daemon.rs:477-520 | materializes and queues a valid plan, fails the planner of any other |
| `DaemonImpl.OnJobCompleted` | src/daemon.rs:459-551 | is the JobCompleted event, and keeps the invariant wherever that is enabled |
| `DaemonImpl.CompleteClosedParticipants` | src/daemon.rs:1145-1199 | the loop over the participants is the sweep of the model |
| `DaemonImpl.OnMessage` | src/daemon.rs:596-635 | is the MessageFrom event, and keeps the invariant |
| `DaemonImpl.OnDone` | src/daemon.rs:649-673 | is the DoneFrom event, and keeps the invariant |
| `DaemonImpl.Cancel` | src/daemon.rs:1461-1532 | is the Cancel event, accepted exactly for undecided runs, and keeps the invariant |
| `DaemonImpl.FinishTurn` | src/daemon.rs:554-565 | starts what is ready, connects what can talk, saves the one run, and keeps the invariant |
| `DaemonImpl.RenewHeartbeats` | src/daemon.rs:724-745 | the loop renews the heartbeats of exactly the running participants of open channels whose workers are idle |
| `DaemonImpl.Shutdown` | src/daemon.rs:845-867 | cancels and saves every run that is Pending or Running and no other |
| `DaemonImpl.Hydrate` | src/daemon.rs:157-206 | the loading loops turn any stored records into the restarted engine, which is valid if and only if they satisfy the invariant's part about records |

## Left out

- Process spawning, pipes, JSON, signals, HTTP routes, the command line and the status tables: only the commands, messages and events they carry are modelled.
- Capsule workers and LLM providers: not part of this model; capsule workers ignore channel messages, so Token is about plain workers.
- SQL: a table is a map written row by row; schema, serialization and errors of the database are not modelled (a save that fails altogether is, in Recovery.Act).
- Recovery.PromptIsReachable: takes handling a message and saving its run as one act; kills in between are covered by Recovery.AnyAgesRecover and Recovery.TornSaveBreaks only.
- Wall-clock fields, workspace paths, summaries and artifact contents: opaque, they decide nothing. Heartbeats carry an integer clock.
- Parsing of plans, reviews and delegations out of text: the parsed value is the input of the event.
- Wrap-around of counters: counters are unbounded naturals.
- The time to live of finished runs: RemoveRun is modelled, when it is called is not. Daemon has no event for it.
- Changes of configuration while the daemon runs: the maximum of revisions is constant over a history.
- The ad-hoc scheduling of regular agents, restarts with backoff and log truncation: small bounded facts.
- Token: is about one turn-based channel with an initial message and no worker lost; the daemon's other traffic is arbitrary commands to the same workers.
- Token.Allowed: leaves out workers that report an error for a channel message, which the daemon treats as the failure of the job.
- Bridge.WorkerBridge.Run: whether a reply is still wanted by its receiver is not modelled; a reply counts as given when it is sent.
- Termination.Settles: assumes plans without jobs of role "planner"; Replanning.PlannersNeverSettle shows that this is needed.
- Stall.StalledForever: takes the silence of the channel as given; that a conversation stays silent after a restart is Token.NeverResumes, about another model.
- Cancellation.CancellationStands: leaves out late reports that bring an acceptable plan, which add jobs to the cancelled run even where none is queued.
- ChannelLife.ChannelLifecycle: assumes accepted plans name no channel their run already has; Materialization.ExistingChannelsKeptIff says what happens otherwise.
- Store.RunStore: the artifact table is left out; the jobs carry the ids of their artifacts.
- Final artifacts are compared as multisets, because the program lists them in the order of a hash table.
