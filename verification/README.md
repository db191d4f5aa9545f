# RunBuoy: a verified model

RunBuoy runs a command on a machine, keeps a local, append-only log of what happens to
it, and replicates that log to a server, which shows the run on the owner's devices.
This project models the parts on which the promises of that arrangement rest, and
proves the promises. `dafny verify dfyconfig.toml` checks all of it.

## How it is organised

| files | what they model |
|---|---|
| `Events`, `Queue`, `Ingest`, `Pipeline`, `Client` | the event log, its two projections, the outbox of the machine, the server's ingestion, and the drain loop between them, as classes and as one state machine |
| `EventColumns`, `IngestLaws`, `PipelineInvariant`, `PipelineSteps`, `PipelineTheorems`, `PipelineOrder`, `PipelinePrefix`, `PipelineOvertaking`, `PipelineDrain`, `PipelineLate`, `PipelineLatePrefix`, `PipelineLateReset` | what holds of them: what each column of a run says, exactly-once, convergence, what is refused, when the server has a prefix, and what late requests can change |
| `Handoff`, `HandoffSafety`, `HandoffTheorems`, `HandoffTargets`, `HandoffEnds`, `HandoffReplies`, `WorkerSocket` | the command-line process and the Worker that it starts: two processes, a shared store, a file and a socket |
| `Outbox`, `OutboxRuns`, `OutboxLaws`, `OutboxQuota`, `OutboxCapacity`, `OutboxDelivery`, `OutboxEnded`, `OutboxThrottle`, `OutboxUrgency`, `OutboxLeftover`, `OutboxReach`, `OutboxProgress`, `OutboxOutcomes`, `OutboxActivities`, `OutboxWithdrawal`, `OutboxProcessor` | the server's push outbox: coalescing, scheduling, who is told what and when, the daily quota, the order of delivery and its outcomes, registration of activities, revocation |
| `RevisionedSync`, `SyncAnswers`, `SyncEffects`, `HistoryWalk`, `HistoryCursor` | the snapshot behind a revision, and the paged history |
| `Retention`, `RetentionProgress`, `RetentionStore`, `RetentionBatches`, `RetentionFates` | the periodic cleanup |
| `Framing`, `Adapters`, `AdapterCuts`, `Uuid7`, `Limiter` | the record framer and the progress adapters, UUIDv7 generation, the fixed-window limiter |
| `Wrappers`, `Sequences`, `Arithmetic` | what the others share |

Code that changes state step by step is a class or a method with a loop, proved equal to
a function of the old state; the laws are lemmas about those functions.  A protocol is a
state machine whose steps are transactions, requests and replies; `Possible` says which
histories can happen and `After` where they lead.  Clocks, random draws, new identifiers
and what foreign calls answer are inputs.

## What the proofs found

- The server's accepted events are not always a prefix of the log: the background loop
  can let a later event overtake an earlier one, which is then refused for ever. With
  `retry_all_pending_now` at the start of every drain it cannot happen.
- A registration request is harmless when the client repeats it, but not when the network
  delivers it late: it then resets the attention status (`LateRegistrationResets`), until
  an accepted event sets it anew. That is all that late requests can do
  (`ExactlyOnceDespiteLateRequests`).
- When the reply to the handoff acknowledgement is lost, the command reports a failure and
  marks the run as lost while the Worker supervises its live target (`LostWithLiveTarget`);
  and so it does when it has read the reply and then cannot read the row of the run, because
  that error does not say that the run was acknowledged (`LostAfterReply`). The next
  heartbeat of the Worker is refused, and it leaves the target behind
  (`LostTargetIsAbandoned`).
- If the Worker cannot write the process id after it has spawned the target, or an error
  ends the supervision, it gives up without signalling the target (`TargetIsAbandoned`,
  `StartedTargetIsAbandoned`). `AbandonedTarget` shows that there is no other way.
- A cut of the output inside a CR LF can make the adapters drop a repeated line;
  `CutLosesExactly` says which cuts do. A total that shrinks makes reported progress fall,
  from an adapter (`ShrinkingTotalFalls`) and over the socket (`ExplicitProgressFalls`).
- A notification may be created about a run of another workspace. When that run is
  deleted the notification changes and its workspace is not bumped, so that a stale
  snapshot is answered with 304 (`StaleSnapshot`).
- A routine update can be left over for a run that has failed, when its activity was
  dismissed before (`UpdateIsLeftOver`). Nothing else that is due for an ended run waits
  behind routine updates (`EndedRunComesFirst`).
- One cleanup can expire a stale placeholder and delete its run (`DeliverableRunGoes`),
  although the comment in the source says that a run with a deliverable activity is never
  deleted; `RunFate` is the exact condition.
- A clock before 1970 can make the second UUIDv7 smaller than the first
  (`ClockBefore1970`); `OutputsInOrder` says for which two numbers of a process it does.

## Model

| member | source | states |
|---|---|---|
| `PipelineTheorems.ExactlyOnce` | cli/src/runbuoy/networking/client.py:155-181 | in every history of appends, requests, lost replies, refusals and crashes, the accepted events of a run are a seq-increasing selection of its local log, none twice, and the Run row is their fold from the registration |
| `PipelineTheorems.Convergence` | cli/src/runbuoy/persistence/store.py:235-254 | when nothing of a run is left to deliver, the server has accepted the whole log, and both projections agree on status, progress, phase, message, exit code and end if the log has the shape that the CLI and the Worker write |
| `EventColumns.ServerRowTells` | server/app/services.py:637-667 | in every history each column of the Run row is what the accepted events say, in quantifiers over them: the start is the time of the first run.starting or run.started, the creation that of the last run.created or of the registration, attention the last one that is not null, status, end, progress, phase, message, exit code, reason and log tail those of the last event that has them, and the update the latest time |
| `EventColumns.LocalRowTells` | cli/src/runbuoy/persistence/store.py:235-254 | the same for the row on the machine and its whole log, where the start is that of the last run.started |
| `PipelineTheorems.RegisteringAgain` | server/app/api.py:769-783 | a client that does not know that a run is registered can always register it again: never refused, and an existing row stays as it is |
| `PipelineTheorems.FlagMeansRegistered` | cli/src/runbuoy/persistence/store.py:274-276 | what `mark_remote_initialized` means in every history: the server has the row of a marked run and no event of an unmarked one, and a marked run is never registered again |
| `PipelineLate.ExactlyOnceDespiteLateRequests` | server/app/api.py:769-783 | when requests may also arrive after the client has given up on them, any number of times: accepted events are still a selection of the log without repeats and every column of the row but the attention status is their fold; the whole row is their fold if and only if no late registration of this run has reset its attention status since an accepted event last set it |
| `PipelineLatePrefix.PrefixDespiteLateRequests` | cli/src/runbuoy/networking/client.py:184-206 | if every drain begins by retrying everything, the accepted events are a prefix of the log in every such history too |
| `PipelineLate.ConvergenceDespiteLateRequests` | cli/src/runbuoy/networking/client.py:155-181 | full delivery still means that the server has the whole log, and the projections still agree |
| `PipelineLate.LateRegistration` | server/app/api.py:769-783 | in every such history, a registration that arrives late for a run that the server has is refused if the run has ended, and otherwise resets the attention status of its row and changes nothing else |
| `PipelineLateReset.LateRegistrationResets` | server/app/api.py:769-783 | a history from the start in which the server has accepted a request for attention and the row does not show it, because the first registration arrived after it |
| `PipelineTheorems.HistoryKeeps` | cli/src/runbuoy/networking/client.py:131-206 | every history keeps the invariant over store, server and drainer, in particular: a run of which the server has an event is marked as registered on the machine |
| `PipelineSteps.StepKeeps` | cli/src/runbuoy/networking/client.py:155-181 | every single step keeps that invariant, and neither the local log nor the accepted events ever lose anything |
| `PipelineSteps.GroupedSplits` | cli/src/runbuoy/networking/client.py:158-160 | grouping pending events by run puts every event into exactly one group, in order |
| `PipelineOrder.LaterIsAllowed` | server/app/services.py:583-591 | the transition table lets any selection of a Worker's log pass |
| `PipelineOrder.JudgeLogged` | server/app/services.py:602-624 | the server knows an event of the log that it has, takes one that is later than all it has, and refuses every other as out of order |
| `PipelineOrder.RefusedIffOvertaken` | server/app/services.py:615-621 | a batch of the log is refused exactly if an event of it was overtaken by a later one, and never for another reason |
| `PipelineOrder.OvertakenForever` | server/app/services.py:620-621 | an event that has been overtaken is not accepted in any continuation |
| `PipelinePrefix.UploadKeepsPrefix` | server/app/services.py:602-621 | an accepted upload leaves a prefix of the log accepted if and only if it skips no event that is not accepted yet |
| `PipelinePrefix.PrefixKept` | cli/src/runbuoy/networking/client.py:184-206 | if every drain begins by retrying everything, the accepted events are a prefix of the log in every history |
| `PipelineOvertaking.BackgroundLoopOvertakes` | cli/src/runbuoy/persistence/store.py:441-455 | without that, a history of the background loop in which a later event overtakes an earlier one |
| `PipelineDrain.DrainGoesOn` | cli/src/runbuoy/networking/client.py:184-206 | one drain, whatever happens meanwhile: it reads pending events at most as often as its limit says, and after a flush goes on exactly if a whole batch of events has left the outbox in it and the limit is not reached |
| `PipelineDrain.WhatIsRead` | cli/src/runbuoy/persistence/store.py:380-398 | in the columns of the rows: what is read has not left the outbox and may be tried now, comes by run and seq, and no event that may be tried is left out unless the limit is reached by events before it |
| `PipelineDrain.FailureBacksOff` | cli/src/runbuoy/networking/client.py:172-177 | exactly the rows of a failed batch count one more attempt and wait 1, 2, 4, 8, 16, 32 or 60 seconds by the most attempts of the run |
| `PipelineDrain.AnswerDelivers` | cli/src/runbuoy/networking/client.py:178-180 | exactly the rows of an answered batch are delivered, and nothing else changes |
| `Queue.EventQueue.CreateRun` | cli/src/runbuoy/persistence/store.py:124-174 | the new row and its run.created event are inserted together |
| `Queue.EventQueue.AppendEvent` | cli/src/runbuoy/persistence/store.py:176-262 | appends exactly one event with the next seq and projects it, or changes nothing because the run is unknown or has ended |
| `Queue.EventQueue.PendingEventCount` | cli/src/runbuoy/persistence/store.py:400-405 | counts the rows that are not delivered |
| `Queue.EventQueue.RetryAllPendingNow` | cli/src/runbuoy/persistence/store.py:423-428 | exactly the rows that are not delivered become due at once |
| `Queue.EventQueue.MarkDelivered` | cli/src/runbuoy/persistence/store.py:430-439 | exactly the rows of the batch are marked delivered |
| `Queue.EventQueue.MarkFailed` | cli/src/runbuoy/persistence/store.py:441-455 | exactly the rows of the batch count one more attempt and back off |
| `Queue.PendingIsFirstDue` | cli/src/runbuoy/persistence/store.py:380-398 | the pending events are due, at most the limit, ordered by run and seq, and no due event of a run is passed over |
| `Client.RemoteServer.PutRun` | cli/src/runbuoy/networking/client.py:77-89 | a PUT is applied, applied with the reply lost, or not applied |
| `Client.RemoteServer.PostEvents` | cli/src/runbuoy/networking/client.py:99-102 | an upload is applied, applied with the reply lost, or not applied; one that the server refuses is not applied |
| `Client.FlushGroup` | cli/src/runbuoy/networking/client.py:162-180 | one group of a flush: it leaves the outbox as a whole or not at all |
| `Client.Register` | cli/src/runbuoy/networking/client.py:165-170 | the PUT of an unregistered run and the flag, as steps of the pipeline, whatever becomes of the request |
| `Client.Upload` | cli/src/runbuoy/networking/client.py:171 | one upload of a batch, as a step of the pipeline |
| `Client.MarkGroup` | cli/src/runbuoy/networking/client.py:172-180 | an answered batch leaves the outbox, a failed one backs off by min(2^attempts, 60) |
| `Client.FlushPending` | cli/src/runbuoy/networking/client.py:155-181 | is a history of the pipeline; its result is what left the outbox, equal to the number of pending events exactly if no group failed |
| `Client.DrainPending` | cli/src/runbuoy/networking/client.py:184-206 | ends, is a history of the pipeline, counts what left the outbox, and empties it if there is no limit, no failure and no row backing off |
| `Client.Sync` | cli/src/runbuoy/cli/app.py:1439-1478 | the numbers reported add up, and it reports success exactly if nothing is left, which is so if no upload failed |
| `Client.EmptyOutboxMeansAccepted` | cli/src/runbuoy/cli/app.py:1467-1470 | an empty outbox means that the server has accepted every log in full |
| `Ingest.IngestEvents` | server/app/services.py:594-683 | the loop over the batch, field by field, computes the outcome of the batch: new row, new events, duplicates, pushes, or the error |
| `Ingest.IngestRunEvents` | server/app/api.py:823-831 | a failing batch leaves the row and the events as they were |
| `Ingest.RunRow.Absorb` | server/app/services.py:640-667 | the assignments of one accepted event make up the projection |
| `Ingest.RunRow.Restore` | server/app/api.py:823-831 | rolls the row back |
| `Ingest.RunEventTable.FindId` | server/app/services.py:603-605 | finds the event with an id, or that there is none |
| `Ingest.RunEventTable.FindSeq` | server/app/services.py:614-616 | says whether the run has an event with a seq |
| `Ingest.SortedBySeqSorts` | server/app/services.py:602 | events are taken in ascending seq, each of them once |
| `IngestLaws.OrderWithinBatch` | server/app/services.py:602 | the outcome does not depend on the order inside a batch (whose seqs are unique, as the request schema demands) |
| `IngestLaws.SplitBatch` | server/app/services.py:594-683 | one batch has the outcome of the two that it splits into by seq |
| `IngestLaws.ReplayChangesNothing` | server/app/services.py:603-613 | sending accepted events again, in any selection, changes nothing and reports duplicates only, also for a run that has ended |
| `IngestLaws.ContinuationAfterReplay` | server/app/services.py:603-613 | accepted events mixed with new ones have the effect of the new ones alone |
| `Events.ProjectionsAgree` | server/app/services.py:640-667 | the server's and the local projection of one Worker log agree |
| `Events.AgreementStep` | cli/src/runbuoy/persistence/store.py:235-254 | the exact condition under which one event keeps the two projections in agreement |
| `Events.UpdatedAtIsLatest` | server/app/services.py:640-643 | after ingestion the row carries the latest time and the last seq of all accepted events |
| `OutboxLaws.OutboxIsSound` | server/app/services.py:200-240 | in every history: one pending row per key, attempts as counted and at most the maximum, run sequences sent under a live key never fall, no start pending for an ended run, at most one fallback |
| `OutboxLaws.RowsOnlyMoveOn` | server/app/outbox.py:87-199 | a row that has left the pending state never changes again, no row loses priority, and key and target of a row never change |
| `OutboxLaws.NoStartAfterEnd` | server/app/services.py:446-470 | once a run has ended no start of an activity is pending for it or sent again |
| `OutboxUrgency.HeadIsMostUrgent` | server/app/outbox.py:89-98 | the row that is taken is, in the columns of the rows: pending and due, with no due row of a higher priority, among equals none that became available earlier, and among those none created earlier; and every such row may be taken |
| `OutboxUrgency.UrgentComesFirst` | server/app/outbox.py:89-98 | in every history of scheduling and delivery, while a start, an end or a notification is due, no routine update (priority 5) is taken |
| `OutboxLeftover.EndedRunComesFirst` | server/app/outbox.py:89-98 | once a run has ended, failed or lost or not, whatever is due for it is taken before any routine update, except an update that waited already when the run ended and is still unsent |
| `OutboxLeftover.NoUpdateAfterEnd` | server/app/services.py:522-580 | no step makes or refreshes an update for a run that has ended |
| `OutboxLeftover.UpdateIsLeftOver` | server/app/services.py:522-530 | the exception is needed: a history after which a routine update waits for a run that has failed, because its activity was dismissed in between |
| `OutboxUrgency.EventReachesActivities` | server/app/services.py:522-580 | in every history, after an event that does not start its run was accepted, a push waits for every activity of the run that can be updated: an end exactly if the run has ended, with the new state, urgent exactly for attention, failure, an end, a new phase, a first progress or a change by a tenth |
| `OutboxProgress.ProgressReachesActivities` | server/app/services.py:532-567 | the time of the push after a progress: an interval from now if the progress changed by less than a hundredth, else the soonest that is an interval after every update sent, with at least 15 seconds for a device without frequent updates; an update that waited before keeps its time if that is sooner |
| `OutboxProgress.EventReachesStarts` | server/app/services.py:446-470 | in every history, after such an event each start that waits for the run shows its new state and is cancelled exactly if the run has ended, and no other start changes |
| `OutboxProgress.EventSkipsOthers` | server/app/services.py:522-531 | in every history an event leaves alone what waits for a device on which no activity of its run can be updated |
| `OutboxProgress.NameReachesActivities` | server/app/api.py:1126-1154 | when a machine is renamed, an update waits at once for every activity that can be updated of each of its runs that goes on |
| `OutboxProgress.NameReachesStarts` | server/app/services.py:446-457 | and each start that waits for such a run is refreshed and stays |
| `OutboxProgress.PutAgainTells` | server/app/api.py:769-783 | registering a run again gives it the five columns of the request, touches nothing else and tells nobody |
| `OutboxReach.StartReachesDevices` | server/app/services.py:415-444 | after an event that starts the run, a device has a start waiting, with the new state and due when the policy allows it, exactly if it has subscribed to the machine, is not revoked, shows live activities and can start one; every other device has what it had |
| `OutboxReach.NoteReachesDevices` | server/app/services.py:259-288 | in every history, whatever step makes a notification: a push for it waits for a device exactly if the device is in the workspace, is not revoked, has a notification token, has subscribed to the machine if the notification names one, and wants successes or failures if it is one |
| `OutboxReach.FailureReachesDevices` | server/app/services.py:484-505 | when a run fails or is lost without a sent start, an earlier fallback or an exhausted quota, a notification waits for a device exactly if it is in the workspace, is not revoked, has a token, has subscribed to the machine and wants to hear of failures |
| `OutboxReach.FallbackExactly` | server/app/services.py:472-521 | when a run ends, the fallback is made exactly if the quota allows it, no start was sent, there is none yet, and the run failed, was lost, or succeeded more than five seconds after its start |
| `OutboxQuota.FailureIsToldWithinQuota` | server/app/services.py:484-505 | when a run fails or is lost there is a sent start, or exactly one fallback notification, or the workspace has had as many notifications that day as the limit allows; the fallback is made exactly if there is no sent start, no earlier fallback and room below the limit |
| `OutboxQuota.QuotaHolds` | server/app/abuse.py:242-287 | in every history the bucket of a workspace and day is the number of notifications made for it that day, and never more than the limit |
| `OutboxLaws.StepKeeps` | server/app/services.py:404-580 | every step keeps the invariant of outbox, attempts and notifications |
| `Outbox.FindPending` | server/app/services.py:212-217 | the first pending row with the key, or none |
| `Outbox.FindPlaceholder` | server/app/api.py:341-349 | the first placeholder of the run on the device that is active, or none |
| `OutboxCapacity.CapacityHolds` | server/app/outbox.py:73-85 | the activities a device may still show never exceed the limit by more than the registrations that took over no placeholder |
| `OutboxCapacity.ReplacementConserves` | server/app/api.py:343-365 | a registration that takes over a placeholder leaves the count of every device as it was |
| `OutboxCapacity.StepOccupies` | server/app/outbox.py:117-168 | an accepted start leaves its device within the limit |
| `OutboxThrottle.ProgressIsThrottled` | server/app/services.py:532-579 | if only progress events schedule the updates of a run on a device, accepted updates are at least the interval apart and a span T holds at most T/interval + 1 of them, through coalescing and retries |
| `OutboxProcessor.ProcessingShrinks` | server/app/outbox.py:87-199 | every branch of taking a row strictly lowers the sum of remaining attempts over the pending rows |
| `OutboxProcessor.ProcessingEnds` | server/app/outbox.py:201-205 | between schedulings rows can be taken no more often than that sum |
| `OutboxProcessor.PushStore.CoalesceOutbox` | server/app/services.py:200-240 | refreshes the pending row with the key, keeping its target, or adds one |
| `OutboxProcessor.PushStore.CreateNotification` | server/app/services.py:291-332 | adds a notification and its pushes, unless it is a duplicate or over the quota; which devices get one, `NoteReachesDevices` says |
| `OutboxProcessor.PushStore.SchedulePush` | server/app/services.py:259-288 | one push for each device that the notification reaches |
| `OutboxProcessor.PushStore.ScheduleStarts` | server/app/services.py:415-444 | one start for each subscribed device that allows it |
| `OutboxProcessor.PushStore.RefreshStarts` | server/app/services.py:446-470 | pending starts carry the new state of the run, and are cancelled when it ends |
| `OutboxProcessor.PushStore.ScheduleLive` | server/app/services.py:522-580 | one update or end for each binding that can get it, not before its time |
| `OutboxProcessor.PushStore.ScheduleRunPushes` | server/app/services.py:404-580 | computes the scheduling that the laws are about, among them those of `OutboxReach`, `OutboxUrgency` and `OutboxProgress` |
| `OutboxProcessor.PushStore.TakeHead` | server/app/outbox.py:89-98 | finds a due row of the highest priority, and of those one that has been available and has existed longest, or that nothing is due |
| `OutboxProcessor.PushStore.ProcessOne` | server/app/outbox.py:87-199 | takes such a row through exactly one of the branches, or leaves everything as it is because nothing is due |
| `OutboxProcessor.PushStore.Answer` | server/app/outbox.py:157-197 | what each answer of the provider does to row, binding and device |
| `OutboxDelivery.EndCloses` | server/app/outbox.py:106-116 | an end that was accepted or has expired closes its row and takes the slot from its binding, and changes no other binding |
| `OutboxEnded.EndedGetsNoMore` | server/app/outbox.py:106-116 | after an end that was accepted or has expired, in every continuation that does not revive the binding, it has no slot and no push for it is pending but such as was pending before under another key |
| `OutboxEnded.RevivedExactly` | server/app/api.py:343-375 | a binding that cannot be delivered to can be again after a step if and only if the step registers its activity with a token that is not older or reports it as shown |
| `OutboxDelivery.SlotsBalance` | server/app/outbox.py:100-199 | on every device, the slots occupied after a delivery balance those before: plus one for an accepted start on it, minus one for an end or an invalid token of an activity that had a slot |
| `OutboxDelivery.StartLeavesPlaceholder` | server/app/outbox.py:157-168 | an accepted start leaves a placeholder that the registration finds, keeps its device within the limit, and makes the fallback of the run superfluous |
| `OutboxDelivery.InvalidTokenIsGone` | server/app/outbox.py:174-189 | after the answer that a token is invalid, a row has a token exactly if it had one and would not have used that one |
| `OutboxDelivery.AttemptsAreCounted` | server/app/outbox.py:142-156 | a delivery counts one attempt exactly for the row that is sent, in the row and in the table of attempts, and leaves every other row as it was |
| `OutboxOutcomes.DeliveryTells` | server/app/outbox.py:100-199 | what becomes of the row that is taken, in its columns: expired, suppressed, cancelled, or sent with one more attempt and then sent, failed, or waiting for another try |
| `OutboxOutcomes.BindingTells` | server/app/outbox.py:106-189 | what becomes of the activity that it is for, and that nothing becomes of any other activity or device |
| `OutboxOutcomes.DeviceTells` | server/app/outbox.py:174-184 | what becomes of the device that it is for: an invalid token is forgotten, and no other token of any device |
| `OutboxOutcomes.AttemptTells` | server/app/outbox.py:130-156 | an attempt is recorded exactly if the row is sent, with the row, its kind and state, the time and whether it was accepted |
| `OutboxOutcomes.RetryDelayDoubles` | server/app/outbox.py:190-193 | the wait before another try starts with two seconds and doubles up to 256 |
| `OutboxActivities.RegistrationTells` | server/app/api.py:397-442 | a token for a known activity: an older one changes nothing; else the activity is shown with it, and the push it has missed waits exactly if its run has ended or has gone on |
| `OutboxActivities.FirstRegistrationTells` | server/app/api.py:397-442 | a token for an unknown activity: it takes over exactly the first binding that waits for it, and catches up if there is anything to show |
| `OutboxActivities.ReportTells` | server/app/api.py:332-375 | a reported activity is as reported, with the token that is not older, and catches up exactly if it is shown, has a token and has missed something |
| `OutboxActivities.FirstReportTells` | server/app/api.py:332-375 | the same for an activity that the server did not know |
| `OutboxActivities.UnreportedTells` | server/app/api.py:376-388 | exactly the shown activities of the device that it has not reported, and that are not awaited any more, have ended |
| `OutboxWithdrawal.StoppingWithdraws` | server/app/lifecycle.py:172-200 | exactly the pushes that wait for the device because of the machine are cancelled, and exactly that subscription goes |
| `OutboxWithdrawal.RevokingWithdraws` | server/app/lifecycle.py:203-265 | exactly the pushes that wait for a subscriber because of the machine are cancelled, the activities of its runs become undeliverable, and its subscriptions go |
| `OutboxWithdrawal.ResetWithdraws` | server/app/lifecycle.py:307-375 | exactly the pushes, activities, subscriptions and tokens of the device go, and no row at all can be sent to it |
| `OutboxProcessor.PushStore.Drain` | server/app/outbox.py:201-205 | ends, is a history of single steps no longer than the remaining attempts, and stops early only when nothing is due |
| `OutboxProcessor.PushStore.BindingFor` | server/app/api.py:337-357 | finds the binding of an activity, or adds one and marks the placeholder it replaces |
| `OutboxProcessor.PushStore.RegisterActivityUpdateToken` | server/app/api.py:397-442 | an older token changes nothing but the bindings; a newer one revives the binding and schedules what the activity has missed |
| `OutboxProcessor.PushStore.ReportActivity` | server/app/api.py:332-375 | one reported activity: its binding as reported, and the push that it has missed |
| `OutboxProcessor.PushStore.EndUnreported` | server/app/api.py:376-388 | exactly the deliverable bindings that are neither reported nor placeholders end |
| `OutboxProcessor.PushStore.SyncActivities` | server/app/api.py:318-389 | every report is taken in order and unreported activities end, or nothing changes because a run is unknown |
| `OutboxProcessor.PushStore.CancelPendingPushes` | server/app/lifecycle.py:136-169 | exactly the pending rows about the machine and the devices are cancelled |
| `OutboxProcessor.PushStore.StopReceiving` | server/app/lifecycle.py:172-200 | one subscription goes, with the pushes that wait because of it |
| `OutboxProcessor.PushStore.RevokeMachine` | server/app/lifecycle.py:203-265 | subscriptions, pending pushes and bindings of a revoked machine |
| `OutboxProcessor.PushStore.ResetDevice` | server/app/lifecycle.py:307-375 | subscriptions, pending pushes, bindings and tokens of a device that is reset |
| `RevisionedSync.NotModifiedIsSound` | server/app/api.py:853-979 | a client that sends back the cursor or entity tag of the snapshot it holds is told 304 only if it would get the same snapshot again (sections 13.1.2 and 15.4.5 of RFC 9110) |
| `SyncAnswers.AnswerIsSound` | server/app/api.py:853-979 | for any history, any answer in full (revision, tag, snapshot) and any continuation: a client that sends back that revision or that tag is never told that it is ahead, and is told 304 only if a request that carries neither would return that very snapshot |
| `SyncAnswers.AnswerIsCurrent` | server/app/api.py:857-860 | sent back at once, that revision or that tag, in either form, is enough to be told 304, and nothing else is |
| `SyncAnswers.SnapshotIsExact` | server/app/api.py:862-979 | in every history a snapshot shows the newest active runs, the newest ended runs, the newest machines and the newest notifications of the workspace, each up to its limit and no other, and says that there is more exactly if one is left out |
| `RevisionedSync.StepShows` | server/app/sync.py:17-27 | revisions never fall, and a step that leaves a revision alone leaves alone all that the workspace shows |
| `RevisionedSync.HistoryShows` | server/app/sync.py:17-27 | the same for any two states of a history |
| `RevisionedSync.CleanUpShows` | server/app/retention.py:216-240 | without the assumption about notifications: a cleanup that does not bump a workspace changes what it shows if and only if it deletes a run that a kept notification of the workspace is about |
| `RevisionedSync.StaleSnapshot` | server/app/retention.py:232-240 | without it: a history from the empty database after which the snapshot differs and the server still answers 304 |
| `SyncEffects.RevisionTells` | server/app/sync.py:17-27 | a transaction raises the revision of the workspace that it is about by its bumps, one, or two with a fallback notification, and of no other; one that changes nothing raises none |
| `SyncEffects.ClaimShows` | server/app/api.py:573-661 | when a pairing session can be claimed, and that the machine is then shown as paired anew, to the claiming device as subscribed; nothing else changes |
| `SyncEffects.RenameShows` | server/app/api.py:1126-1154 | a renamed machine and all its runs are shown with the new name to every device |
| `SyncEffects.RevokeShows` | server/app/lifecycle.py:203-265 | a revoked machine is shown to no device, exactly its subscriptions go, and its runs stay |
| `SyncEffects.RevokedIsRefused` | server/app/lifecycle.py:203-265 | once a machine has been revoked, nothing is done in its name in any history until it is paired again |
| `SyncEffects.StopShows` | server/app/lifecycle.py:172-200 | exactly one subscription goes |
| `SyncEffects.ResetShows` | server/app/lifecycle.py:307-375 | exactly the subscriptions of the device go |
| `SyncEffects.UpsertShows` | server/app/api.py:705-786 | when a run can be registered, and that it is then shown as registered, once, with the name of its machine |
| `SyncEffects.IngestShows` | server/app/api.py:790-832 | a run with accepted events is shown as they leave it, with its fallback notification; without one nothing changes |
| `SyncEffects.NoteShows` | server/app/services.py:291-332 | a notification is shown, unless one of the workspace has its key; then nothing changes |
| `SyncEffects.CleanUpTells` | server/app/retention.py:57-240 | exactly the named rows go; a kept notification forgets exactly a run that has gone, and a kept run exactly a named log tail |
| `SyncEffects.RunsAreNotTaken` | server/app/api.py:705-786 | no transaction of any machine gives a run to another machine or workspace |
| `RevisionedSync.ETagInjective` | server/app/api.py:178-179 | entity tags of different revisions differ |
| `RevisionedSync.RevokeUntouched` | server/app/lifecycle.py:203-265 | revoking a machine changes nothing that another workspace shows |
| `RevisionedSync.ClaimUntouched` | server/app/api.py:573-661 | claiming a pairing session changes nothing that another workspace shows |
| `RevisionedSync.RenameUntouched` | server/app/api.py:1126-1154 | renaming a machine changes nothing that another workspace shows |
| `HistoryWalk.WalkIsExact` | server/app/api.py:982-1017 | following the cursors returns runs from newer to older, and each run that was in the table all along exactly once, whatever came and went between pages |
| `HistoryWalk.PagingTells` | server/app/api.py:990-1017 | in the columns of the runs: paging to the end returns, latest first, only runs that have ended, in the workspace and on the machine asked for, that were there at one of the requests, and every such run that was there at all of them |
| `HistoryWalk.PageTells` | server/app/api.py:1003-1017 | a page is no longer than the limit, and has a next cursor exactly if a wanted run is not on it, and then is full |
| `HistoryWalk.WindowAndWalkAreExact` | server/app/api.py:878-928 | the window of a snapshot and the walk from its cursor together are exact as well |
| `HistoryWalk.WalkEnds` | server/app/api.py:982-1017 | on a table that does not change the walk ends after no more pages than rows |
| `HistoryWalk.WindowIsPage` | server/app/api.py:878-928 | the window of a snapshot is a first page of its length |
| `HistoryWalk.FoundAre` | server/app/api.py:189-190 | a query finds exactly the matching rows behind the cursor, newest first |
| `HistoryCursor.CursorRoundTrip` | server/app/sync.py:30-71 | a cursor decodes to what was encoded under the same kind and machine filter, and is refused under any other |
| `HistoryCursor.Base64RoundTrip` | server/app/sync.py:45-57 | base64url text without padding decodes to its bytes once padded by its length (sections 3.2 and 5 of RFC 4648) |
| `HistoryCursor.EncodedIsUnpadded` | server/app/sync.py:46-56 | the text carries no padding and has the length that the padding is restored from |
| `HistoryCursor.EncodedIsCanonical` | server/app/sync.py:45-46 | the bits of its last letter that stand for nothing are zero (section 3.5 of RFC 4648) |
| `HistoryCursor.DecodesExactly` | server/app/sync.py:56-57 | the decoder takes exactly the texts of letters in groups of four with at most two signs of padding at the end, and refuses every other |
| `HistoryCursor.CursorIsTaken` | server/app/sync.py:50-71 | a cursor is taken exactly if it is such a text, of an object of version 1 with the same kind and machine filter and an id |
| `Retention.CleanedKeepsLinks` | server/app/retention.py:41-254 | a cleanup leaves every foreign key resolved |
| `Retention.ActiveRunsStay` | server/app/retention.py:55-93 | a cleanup deletes no active run and none of its events or notifications |
| `Retention.RunFate` | server/app/retention.py:199-215 | a cleanup deletes a run if and only if the run ended before the cutoff, each deliverable binding of it is a placeholder that the same call expires, and fewer such runs than the batch holds ended before it |
| `Retention.DeliverableRunGoes` | server/app/retention.py:119-140 | tables with all keys in order in which a run with a deliverable binding is deleted |
| `Retention.DeliverableRunsStay` | server/app/retention.py:200-215 | a run with a deliverable binding stays, unless the binding is a stale placeholder |
| `RetentionFates.NoteFate` | server/app/retention.py:57-76 | in the columns of the rows, for a whole call: a notification goes exactly if it has expired or is too old, is not about a run that goes on, and fewer such ones than the batch holds are older; else it stays, without its run exactly if that goes |
| `RetentionFates.EventFate` | server/app/retention.py:78-98 | an event goes exactly if its run has ended, it is too old and its turn comes, or its run goes |
| `RetentionFates.TailFate` | server/app/retention.py:100-117 | a run that stays is as it was, but for its log tail, which goes exactly if it has not been updated for long enough and its turn comes |
| `RetentionFates.BindingFate` | server/app/retention.py:119-140 | a binding stays with its run, as it was, unless it is a stale placeholder whose turn comes: that one is closed and invalid |
| `RetentionFates.AttemptFate` | server/app/retention.py:142-165 | an attempt goes exactly if it is too old and its turn comes, or its push goes |
| `RetentionFates.PushFate` | server/app/retention.py:152-165 | a push goes exactly if it is no longer pending, too old and its turn comes, or its run goes |
| `RetentionFates.PairingFate` | server/app/retention.py:167-175 | a pairing session goes exactly if it expired long enough ago and its turn comes |
| `RetentionFates.AuditFate` | server/app/retention.py:177-185 | an audit log goes exactly if it is too old and its turn comes |
| `RetentionFates.ChallengeFate` | server/app/retention.py:187-197 | a challenge goes exactly if it has expired and its turn comes |
| `RetentionFates.AbuseStateFate` | server/app/abuse.py:290-308 | exactly the expired rate buckets and the quota locks that were not used for long enough go |
| `RetentionFates.CountTells` | server/app/retention.py:242-254 | each class is reported with the number of its rows that go, or change, in its turn |
| `Retention.FirstSize` | server/app/retention.py:30-31 | a batch is full or takes everything there is |
| `Retention.FirstIsOldest` | server/app/retention.py:30-31 | what a batch leaves is newer than what it takes |
| `RetentionProgress.ReportsNothing` | server/app/retention.py:242-254 | a call reports zeros exactly if no row of any class is old enough; then it has changed nothing, and otherwise it leaves less to clean |
| `RetentionProgress.CleaningEnds` | server/app/retention.py:41-254 | with the time fixed, repeated calls come to one that reports zeros |
| `RetentionProgress.StageShrinks` | server/app/retention.py:57-236 | the same for each class of rows |
| `RetentionStore.Database.CleanupRetention` | server/app/retention.py:41-254 | the deletions and updates in their order compute the tables, the counts and the workspaces to bump |
| `RetentionBatches.NotesTaken` | server/app/retention.py:57-76 | the deleted notifications are old, older than every old one that is kept, and as many as the batch holds or all; the count reported is their number and the workspaces to bump are theirs |
| `RetentionStore.Database.DeleteEvents` | server/app/retention.py:78-98 | deletes a batch of old events of ended runs and names the workspaces of the runs |
| `RetentionStore.Database.ClearTails` | server/app/retention.py:100-117 | clears a batch of old log tails and names the workspaces of the runs |
| `RetentionStore.Database.ExpirePlaceholders` | server/app/retention.py:119-140 | expires a batch of stale placeholders |
| `RetentionBatches.AttemptsTaken` | server/app/retention.py:142-150 | the same for push attempts |
| `RetentionBatches.PushesTaken` | server/app/retention.py:152-165 | the same for pushes that are no longer pending |
| `RetentionBatches.AttemptsGoWithPushes` | server/app/retention.py:163-164 | an attempt is deleted with them exactly if it belongs to one of them |
| `RetentionBatches.DeletionTakesOldest` | server/app/retention.py:30-38 | for rows of any class: deleting by the ids of a batch takes the oldest eligible rows, a full batch or all of them, and no other |
| `RetentionStore.Database.DeleteRuns` | server/app/retention.py:199-235 | deletes the picked runs with their attempts, pushes, events and bindings, and unlinks their notifications |
| `RetentionStore.Database.CleanupAbuseState` | server/app/abuse.py:290-308 | expired rate buckets and unused quota locks go, all at once |
| `RetentionStore.UnbumpedShowsSame` | server/app/retention.py:216-240 | a workspace that is not bumped has the same runs, events and notifications as before, except for the run that a notification refers to |
| `HandoffTheorems.SupervisionIsAcknowledged` | cli/src/runbuoy/worker/runtime.py:195-205 | over every interleaving, the supervision loop is entered only after an acknowledgement with the nonce of the manifest and a committed run.started |
| `HandoffTheorems.SuccessMeansStarted` | cli/src/runbuoy/cli/app.py:482-538 | when the command reports success run.started is in the log |
| `HandoffTheorems.UnacknowledgedFailureEnds` | cli/src/runbuoy/cli/app.py:702-723 | when it fails without an acknowledgement the run has ended, for good |
| `HandoffTheorems.LogIsWellShaped` | cli/src/runbuoy/persistence/store.py:198-204 | the log that both processes write has at most one terminal event, nothing after it, and the shape that convergence needs |
| `HandoffTheorems.LostBeforeStart` | cli/src/runbuoy/worker/runtime.py:320-325 | a run that is lost before it started never starts and is never supervised |
| `HandoffTheorems.RefusedStartSignals` | cli/src/runbuoy/worker/runtime.py:317-325 | a Worker that has spawned the target supervises it exactly if run.started could be recorded, and signals it otherwise |
| `HandoffTheorems.MarkedAfterStart` | cli/src/runbuoy/cli/app.py:466-479 | run.lost follows run.started exactly if the row said RUNNING when the command marked it |
| `HandoffTheorems.LostAfterStartByWhom` | cli/src/runbuoy/cli/app.py:466-479 | a started run is marked as lost only by a command that gave up; if that had read that its acknowledgement was taken, the store has failed it since |
| `HandoffTheorems.LostAfterReply` | cli/src/runbuoy/cli/app.py:522-538 | such a history of a command that had read it |
| `HandoffTheorems.LostWithLiveTarget` | cli/src/runbuoy/cli/app.py:522-529 | such a history: the reply is lost, and a lost run has a live, supervised target |
| `HandoffTheorems.WorkerLeavesEnd` | cli/src/runbuoy/worker/runtime.py:245-282 | without a crash and with a last word that can be written, a Worker that is done leaves a log with exactly one end; which one, `HandoffEnds` says |
| `HandoffEnds.EndTellsTarget` | cli/src/runbuoy/worker/runtime.py:370-390 | in every history and for every event of the log: run.succeeded says 0 and the target has exited with 0; run.failed says the code, not 0, with which the target has exited, or 127 for an error of the Worker; run.cancelled occurs only after a cancellation; run.lost says 125 |
| `HandoffEnds.SmoothRunEnds` | cli/src/runbuoy/worker/runtime.py:358-390 | a started run whose Worker is done without an error, and that was not marked as lost, has an exited target and ends cancelled exactly if it was cancelled when the Worker looked at the exit code, else succeeded if and only if that code is 0, else failed with that code |
| `HandoffReplies.ReplyTells` | cli/src/runbuoy/worker/runtime.py:91-138 | a request is answered with success exactly if it is well-formed, has the right nonce, is not stale and can be logged; then it has been done, by a flag or by one event that says what was requested, and else the log is as it was |
| `HandoffReplies.ServeTells` | cli/src/runbuoy/worker/runtime.py:91-138 | a request that is read does to flags and log what its answer says and touches nothing else; the acknowledgement of the command is answered with success |
| `HandoffReplies.OnlyRunningWorkersServe` | cli/src/runbuoy/worker/runtime.py:217-282 | in every history requests are read only by a Worker that has opened its socket and neither closed it nor died, and only a cancelled run has a signalled target |
| `HandoffReplies.GivesUpForReason` | cli/src/runbuoy/worker/runtime.py:217-262 | in every history a Worker gives up only because something failed, its time was over, it was cancelled or its run was lost or had ended, and at the first such thing that it meets |
| `HandoffReplies.FileTells` | cli/src/runbuoy/worker/runtime.py:195-240 | in every history the handoff file says that the run was acknowledged only if it was, and says so before the target is spawned |
| `HandoffTargets.AbandonedTarget` | cli/src/runbuoy/worker/runtime.py:307-372 | the exact fate of the target once its Worker is done and has not died: gone if and only if it has exited; otherwise alive if and only if the process ids could not be written or an error ended its supervision, and then signalled if and only if the run was cancelled while it was supervised |
| `HandoffTargets.TargetIsAbandoned` | cli/src/runbuoy/worker/runtime.py:312-316 | a history that ends with a Worker that is done and a live, unsignalled target of a run that never started |
| `HandoffTargets.StartedTargetIsAbandoned` | cli/src/runbuoy/worker/runtime.py:334-372 | the same of a run that has started and has failed |
| `HandoffTargets.LostTargetIsAbandoned` | cli/src/runbuoy/worker/runtime.py:360-362 | the same of a run that was marked as lost while its target was supervised |
| `HandoffTheorems.ExplicitProgressAdvances` | cli/src/runbuoy/worker/runtime.py:103-117 | over any requests to the socket, the remembered progress never falls if and only if no accepted progress request has a total below it |
| `HandoffTheorems.ExplicitProgressFalls` | cli/src/runbuoy/worker/runtime.py:103-117 | two accepted requests after which it has fallen |
| `HandoffTheorems.StoreFollows` | cli/src/runbuoy/persistence/store.py:189-262 | appending to the shared store is appending to the log of the handoff |
| `HandoffTheorems.HandedOverRunConverges` | cli/src/runbuoy/worker/runtime.py:77-81 | with nothing left to deliver, the server agrees with the machine about a run that was handed over |
| `HandoffSafety.StepKeeps` | cli/src/runbuoy/worker/runtime.py:217-408 | every step of either process keeps the invariant over log, flags and places |
| `WorkerSocket.Worker.SocketHandler` | cli/src/runbuoy/worker/runtime.py:91-138 | each request changes flags, row and log as the state machine says, and keeps the shape of the log |
| `WorkerSocket.Worker.Emit` | cli/src/runbuoy/worker/runtime.py:77-81 | appends the event unless the run has ended |
| `Framing.RecordFramer.Feed` | cli/src/runbuoy/progress_adapters.py:21-42 | the scan over the buffer returns exactly the finished records and keeps the rest |
| `Framing.RecordFramer.Flush` | cli/src/runbuoy/progress_adapters.py:44-50 | the rest becomes a last record, if there is one |
| `Framing.FramesMeaning` | cli/src/runbuoy/progress_adapters.py:21-42 | records joined with their separators give back the text with CR LF read as LF, and no record contains a break |
| `Framing.ChunkingInvariance` | cli/src/runbuoy/progress_adapters.py:14-50 | however a text is cut, the non-empty records are those of the uncut text, and the full lists are equal if and only if no cut falls inside a CR LF |
| `Adapters.LineProgressAdapter.Feed` | cli/src/runbuoy/progress_adapters.py:76-78 | takes every record that the framer finishes |
| `Adapters.LineProgressAdapter.Close` | cli/src/runbuoy/progress_adapters.py:80-82 | takes what the framer still held back |
| `Adapters.LineProgressAdapter.HandleRecord` | cli/src/runbuoy/progress_adapters.py:84-90 | the fields follow what handling all records so far leaves behind |
| `Adapters.LineProgressAdapter.OnRecord` | cli/src/runbuoy/progress_adapters.py:114-126 | a matching record reports min(current + 1, total) |
| `Adapters.LineReportsAre` | cli/src/runbuoy/progress_adapters.py:114-126 | the k-th report is min(k, total) |
| `Adapters.MatchingCounts` | cli/src/runbuoy/progress_adapters.py:114-126 | n is the number of the records handed on that match |
| `Adapters.ChunkingNeverOvercounts` | cli/src/runbuoy/progress_adapters.py:76-90 | however the output is cut no record is handed on more often than from the uncut output |
| `AdapterCuts.CutLosesExactly` | cli/src/runbuoy/progress_adapters.py:84-90 | the records handed on from a cut output are as many fewer as repeat the non-empty record before them where both end in CR as fed and one only because its CR LF is cut; the lists are equal if and only if there is no such repetition |
| `Adapters.CutLosesRepeatedLine` | cli/src/runbuoy/progress_adapters.py:84-90 | a cut inside a CR LF can lose a repeated line |
| `Adapters.RegexProgressAdapter.OnRecord` | cli/src/runbuoy/progress_adapters.py:144-165 | a record changes the reports as its capture demands |
| `Adapters.RegexReportsRise` | cli/src/runbuoy/progress_adapters.py:144-165 | while totals do not shrink the reported values strictly rise, and each lies between zero and its total |
| `Adapters.RegexReflects` | cli/src/runbuoy/progress_adapters.py:144-165 | every capture is reflected in turn: one with a positive total and a value not below the last is reported, clamped to its total, and every other is passed over |
| `Adapters.RegexLastIsHighest` | cli/src/runbuoy/progress_adapters.py:144-165 | with one total throughout, the last report is the highest value captured |
| `Adapters.RegexReportsRiseExactly` | cli/src/runbuoy/progress_adapters.py:144-165 | in any run the reported values strictly rise if and only if every capture that is taken has a total above the value reported last |
| `Adapters.ShrinkingTotalFalls` | cli/src/runbuoy/progress_adapters.py:144-165 | a shrinking total makes a report fall |
| `Uuid7.Generator.Generate` | server/app/security.py:20-42 | each call advances the state and returns its encoding |
| `Uuid7.OutputsInOrder` | server/app/security.py:20-42 | for any clocks and draws, while timestamps stay below 2^48: two numbers of a process are out of order if and only if all readings up to the first were before 1970 and not all up to the second (or the counter has run over between them), and the second has not reached the largest timestamp with a larger counter |
| `Uuid7.FreshOutputsRise` | server/app/security.py:20-42 | so the numbers strictly increase whenever the first reading is not before 1970, whatever the clock does afterwards |
| `Uuid7.TimestampIsHighest` | server/app/security.py:20-42 | the timestamp of a number is the highest reading of the clock so far, and its counter is drawn anew exactly if that is the present reading and higher than all before |
| `Uuid7.NumberFollows` | server/app/security.py:24-33 | each number follows from the one before: a later reading starts a new timestamp with a fresh counter, and else the counter goes up by one, or, if it has run over, is drawn afresh with the timestamp one later |
| `Uuid7.OutputsRise` | server/app/security.py:20-42 | the same from any state, within one period of the 48-bit timestamp |
| `Uuid7.FieldsDecode` | server/app/security.py:35-42 | version, variant, timestamp and counter decode back from the 128-bit number (sections 4.1, 4.2, 5.7 and 6.2 of RFC 9562) |
| `Uuid7.ClockBefore1970` | server/app/security.py:16-26 | a clock that shows -1 ms before the first call makes the second number smaller |
| `Limiter.RateLimiter.Enforce` | server/app/abuse.py:146-209 | counts the request in its window and decides by the count |
| `Limiter.RateLimiter.Cleanup` | server/app/abuse.py:290-298 | removes exactly the expired buckets |
| `Limiter.DecisionIsCount` | server/app/abuse.py:157-209 | a decision depends on nothing but the number of accounted requests of the key in the current window |
| `Limiter.CleanupIsInvisible` | server/app/abuse.py:290-308 | cleanups anywhere in a history change no decision |
| `Limiter.WindowAdmitsLimit` | server/app/abuse.py:146-209 | of the requests in a window exactly the first `limit` are admitted |
| `Limiter.AnswerTells` | server/app/abuse.py:146-209 | a request is told that it is admitted, and how many are left, exactly by its rank among the accounted requests of its window, and else to wait until the end of the window |
| `Limiter.IntervalAdmitsTwiceLimit` | server/app/abuse.py:146-209 | any interval as long as a window admits at most twice the limit |
| `Limiter.RetryAfterIsEnough` | server/app/abuse.py:186-208 | waiting `retry_after` lands in a new window, no shorter wait does, and the request is then admitted |

## Left out

- PipelineTheorems.ExactlyOnce: a request takes effect, if at all, before the client goes on; `PipelineLate` drops that assumption for requests that the client has given up on. The methods of the drain loop are about the pipeline without late requests.
- Uuid7.OutputsInOrder: stops where a timestamp would exceed 2^48 - 1 ms and wrap.
- OutboxQuota.QuotaHolds: the buckets of past days stay; a clock that goes back behind a cleaned bucket, and the fail-open mode when the accounting itself fails, are not modelled.
- RevisionedSync.NotModifiedIsSound: assumes that a notification is about a run of its own workspace, which the server does not check; `CleanUpShows` gives the exact condition without it. `*` in If-None-Match and the splitting of the header are not modelled.
- OutboxThrottle.ProgressIsThrottled: speaks of keys whose pushes all come from progress events, with a clock that does not run backwards and a device whose setting stays; other events may push at any time.
- OutboxCapacity.CapacityHolds: transactions of the outbox are serial; two workers that count at the same moment are not modelled.
- HandoffTheorems.WorkerLeavesEnd: promises nothing after a crash, or if the last event cannot be written.
- HandoffTargets.AbandonedTarget: says nothing of a Worker that has died.
- HistoryCursor.CursorRoundTrip: JSON and ISO timestamps are given functions with a round trip.
- Requests from other machines, webhooks and the server side of pairing and workspace deletion, except as steps that change what a workspace shows.
- The machine-name outbox, the `run_id` filter of a flush, and `history prune`, which deletes local runs while they may be in use.
- Retention is not a step of the pipeline or outbox state machines; it is modelled on its own tables, with the columns that decide about a row.
- A device's choice among several placeholders: the first in the order of creation is taken, where the query leaves it open.
- Accepting a batch schedules pushes event by event: the outbox state machine has one step per accepted event, not per batch, and one step per run of a renamed machine.
- The two processes of a handoff are program counters over shared state rather than methods: between any two statements the other may move.
- `--wait`, the result file, tmux, PTY reading, signals and redaction: foreign effects, kept as outcomes.
- Texts, headers, tokens and encryption of pushes; what the push provider answers is an input.
- Paging of the notification history, which has the form of the run history.
- Uniqueness of new identifiers is assumed where the source relies on UUIDs; they are numbers in their text order.
- Floats of progress values are real numbers.
- The body limit middleware, the quotas on machines, runs and webhooks, metrics, migrations, configuration and the user interfaces.
