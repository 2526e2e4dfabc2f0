# EmbodiRun: what its cores promise, proved

This project models the parts of EmbodiRun whose correctness rests on state, interleavings or arithmetic, and
proves what they promise over all inputs and all runs.

| Part | Files | Main results |
|---|---|---|
| Job registry: one SQLite database, many process incarnations, worker and cancel threads, crashes | `JobModel`, `JobRuns`, `JobProofs`, `JobTheorems`, `JobSignals`, `JobRows`, `JobLogs`, `JobStops`, `JobRegistry` | no callback is entered twice, one incarnation at a time is inside callbacks, terminal rows never change, a running callback sees its cancel event exactly if a cancel is recorded or its registry closed, every column of a row and its event log, and when a confirmed stop is still on record |
| Device managers: leases, lock table, single-flight close, fault ledger | `DeviceModel`, `DeviceRuns`, `DeviceProofs`, `DeviceTheorems`, `DeviceLedger`, `DeviceStates`, `DeviceAnswers`, `DeviceReleases`, `DeviceMarks`, `DeviceFailures`, `DeviceFailureRuns`, `DeviceManager` | open devices are exclusive, failed acquires restore or quarantine, the whole answer of an acquire by what happened before, and over whole runs exactly when a fault is on the ledger, a preparer meets one, a closer starts under a live lease, a close takes a reported fault away, and who can take the fault of a failed close |
| Quest teleoperation: kinematics, arm step, mapper, input clock; the correction bridge | `Plane`, `Kinematics`, `Quaternions`, `WristTurns`, `FractionSearch`, `ArmStep`, `ArmMotion`, `QuestModel`, `QuestRuns`, `QuestSafety`, `QuestRefusals`, `QuestCommands`, `QuestMapper`, `InputClock`, `Corrections` | inverse kinematics is exact and nearest, what every joint does in a step, exactly when a sample is refused, every command stays inside limits and speed, motion is consumed once, the trigger interlock, exactly which corrections are accepted |
| Recorder: bounded queue, byte and record limits, shutdown | `RecorderModel`, `RecorderRuns`, `RecorderTheorems`, `RecorderMarks`, `Recorder` | no action is lost unseen, limits hold, the writer ends within a bounded number of moves, and a recording is marked incomplete exactly if something is missing |
| Control configuration and its merge in the planner | `Contracts`, `ContractReading`, `ServiceMerge`, `MergeProofs`, `PlanMerge`, `PlanOwners`, `KeyOrder` | exact round trip, exactly which messages are accepted and as what, merging keeps every runtime's profile and resource, who owns a device after renaming |
| Retry identity of direct requests | `Identity` | a request counts as a retry exactly if it asks for the same |
| Line rasteriser of the trajectory preview | `Raster` | exact pixels of every segment, all inside the buffer, and where every point is placed |
| Digest preimage of a source archive | `Digest` | equal preimages exactly for equal files |

A critical section (a block under one lock) is a function from state to state. Where the program updates an
object in place there is a class whose methods are proved against those functions, and whole runs of the
functions, with every interleaving, are what the theorems are about. `History` and `calls` fields only record.
`Histories` holds the one induction behind the exact conditions: a fact that steps switch on and off holds at the
end of a run exactly if it held at the start and nothing switched it off, or some step switched it on and no
later one off again.

Angles are real numbers of degrees, and a `Trig` record stands for sine, cosine, their inverses and the square
root; lemmas that need it take `Lawful(t)`, which lists the laws used (angle sum, unit circle, full turns, polar
form, arc cosine, square root). The usual functions satisfy them.

## Where the code surprises

- A cancel writes `cancel_requested` over `not_requested` inference (jobs.py:424): `NotRequestedUntilCancelled`.
- A stop that was confirmed can be written over, for instance by a worker that starts after the cancel callback
  answered (jobs.py:599-603): `ConfirmedStopIsLost`. `StoppedIff` says exactly when it is on record after any run.
- Between the two locked parts of a lease release an acquire can slip in, and the closer starts under a live
  lease (lifecycle.py:681, 696): `AcquireCanSlipBeforeClose`. Shutting a manager down starts closers under live
  leases with nothing in between (lifecycle.py:863-873): `ShutDownClosesUnderLease`. `CloserStartsLeasedIff` says
  for every closer of every run exactly when it starts under one.
- Between the ledger check of an acquire and its preparer another manager can report a fault:
  `FaultCanSlipBeforePrepare`. `PreparerFaultIff` says exactly when the ledger has a fault of the resource, and
  when it is unreadable, at a preparer call; `PreparerCallFrom` covers every call of every run.
- A fault report protects the record open on the device only if it comes from the record's own manager and under
  its primary identity (lifecycle.py:851). A report under a component's identity, or by another manager under the
  very same identity, is taken off the ledger by an ordinary close of the record: `ReportedFaultOutlivesCloseIff`
  for all runs from the report to the close, `ForeignReportIsLost` for one of them.
- A record opened over a recorded fault never takes it away, provided the fault was there at the check and not
  only at the opening, and no closer of the same manager clears it in between: `OpensMarkedIff`,
  `OpenedOverFaultNeverTakes`.
- The fault of a failed close is meant to go only by a verification or a retried close of the same record. Other
  records take it too, by an ordinary close: an external record of the device, which takes no locks
  (lifecycle.py:561-562), `ExternalCloseTakesFault`; a record whose acquire was checked before the failure and
  opened after the failed process died, `AcquireAcrossFailureTakesFault`; one of a manager with another node
  label, `OtherLabelTakesFault`; and one checked while the ledger could not be read, if another close of its
  manager made it forget that, `OutageTakesFault`. `FailedCloseFaultPersists` and `FailedCloseFaultTakenBy` say that
  there is no other way, and `OpenedRecordTakesIff` when a given record does it.
- The fault check looks under the manager's own node label; it is sound exactly if that label covers every
  physical key of the resource: `CheckSoundIffCovered`.
- A recorder that is stopped before it is started keeps accepted events unwritten without being marked
  incomplete: `StoppedQueueIff`.
- A configuration without inference forgets backend, endpoint and options when it is encoded: `RoundTripIff`.
- The view of a service for one of its profiles is refused if the profile's provider transport is neither http
  nor wireless: `ForProfileIff`.
- A robot named like a runtime of a later shared robot loses its device resources to that robot's service, and
  the check for different service names does not notice: `OwnerFollowsGroupIff`, `WrongOwnerPassesCheck`.
- Two first attempts of one request that both looked it up before either was stored conflict if they selected
  different snapshots, although a later lookup takes the second as a retry: `RacingSubmitIff`.
- The lookup compares with Python's equality, for which 1, 1.0 and True are equal (api.py:496), the submit compares
  texts: a request that changed a parameter from True to 1 is a retry for one and a conflict for the other,
  `TrueIsOneOnLookup`.

## Model

| member | source | states |
|---|---|---|
| Jobs.JobRegistry.constructor | src/embodirun/application/jobs.py:231-257 | opening the store gives every unfinished row of the previous process the status `unknown` |
| Jobs.JobRegistry.AbandonUnfinished | src/embodirun/application/jobs.py:790-828 | exactly the unfinished rows become unknown; terminal rows are untouched |
| Jobs.JobRegistry.SubmitJob | src/embodirun/application/jobs.py:259-347 | accepts, reuses, conflicts, or refuses for capacity or a closed registry, with the whole new state |
| Jobs.JobRegistry.BeginWorker | src/embodirun/application/jobs.py:589-656 | the worker's first critical section and whether `execute` is entered |
| Jobs.JobRegistry.EndWorker | src/embodirun/application/jobs.py:658-731 | the worker's last critical section: completed, failed, cancelled or nothing after a close |
| Jobs.JobRegistry.RequestCancel | src/embodirun/application/jobs.py:395-437 | what a cancel writes, and the errors for unknown and foreign requests |
| Jobs.JobRegistry.RegisterCancelThread | src/embodirun/application/jobs.py:438-453 | a decided cancel thread is started unless the registry closed meanwhile |
| Jobs.JobRegistry.EndCancel | src/embodirun/application/jobs.py:747-788 | what a cancel callback's answer writes, also into a terminal row |
| Jobs.JobRegistry.AddStage | src/embodirun/application/jobs.py:456-502 | a stage is appended to the bounded event list of any known row |
| Jobs.JobRegistry.ShutDown | src/embodirun/application/jobs.py:534-575 | close marks rows, then itself, then signals every listed runtime |
| Jobs.JobRegistry.ReleaseStore | src/embodirun/application/jobs.py:576-587 | the store is closed only when every worker and cancel thread has ended |
| JobProofs.NextKeeps | src/embodirun/application/jobs.py:259-828 | every step of every incarnation, crash included, keeps the invariant of rows, threads, lock and history |
| JobTheorems.CallbacksEnteredAtMostOnce | src/embodirun/application/jobs.py:285-342 | in every interleaving no request's execute or cancel callback is entered twice |
| JobTheorems.OneIncarnationInside | src/embodirun/application/job_store.py:37-48 | two incarnations are never inside callbacks on one database |
| JobTheorems.RunLater | src/embodirun/application/jobs.py:538-571 | over any later run a terminal row keeps status, dispatch, inference, result and times |
| JobTheorems.AbandonedForGood | src/embodirun/application/jobs.py:790-828 | what recovery or shutdown decides about a job is final over any later run: an unfinished one is `unknown` for good, a finished one keeps everything, and only the event log grows |
| JobTheorems.NeverReplayed | src/embodirun/application/jobs.py:790-828 | a job accepted before a restart is never entered after it |
| JobTheorems.RetryGetsSameRun | src/embodirun/application/jobs.py:285-312 | an equal retry gets the first run in this or any later incarnation, a different one a conflict |
| JobTheorems.RowsConsistent | src/embodirun/application/jobs.py:665-731 | dispatch equals status in every reachable state; a job with a recorded cancel never ends completed or failed |
| JobTheorems.RowsTruthful | src/embodirun/application/jobs.py:918-941 | completed, failed, started and stopped are claimed only if this job's own callbacks said so |
| JobTheorems.NotRequestedUntilCancelled | src/embodirun/application/jobs.py:420-430 | inference stays `not_requested` exactly until a cancel is recorded |
| JobSignals.CallbackSeesCancel | src/embodirun/application/jobs.py:407-427 | in every run a running execute callback sees its cancel event set exactly if a cancel of its job is on record or its registry has been shut down |
| JobSignals.CancelCallbackIff | src/embodirun/application/jobs.py:409-453 | a cancel callback is on its way, running or done exactly if the job has one and a cancel is on record, and what the row says of the robot until it has answered |
| JobSignals.CancelReachesUnfinished | src/embodirun/application/jobs.py:395-437 | a cancel in an open registry reaches exactly the unfinished jobs, with row, event and callback; any other changes nothing |
| JobRows.RowsSayAll | src/embodirun/application/jobs.py:599-731 | in every run the inference status, the physical status and error of a job without a cancel, and the entries of the event log are those of its status and its end |
| JobRows.WorkerDecides | src/embodirun/application/jobs.py:589-731 | a worker enters the callback exactly if no cancel is on record, and ends its job as cancelled, failed or completed by the record and the callback's outcome |
| JobRows.SubmitTakesIff | src/embodirun/application/jobs.py:285-347 | a new request is taken in exactly while there is room, with a run id of its own |
| JobRows.CapacityHolds | src/embodirun/application/jobs.py:300-312 | over any processes the table never outgrows the largest capacity |
| JobRows.NamesParse | src/embodirun/application/jobs.py:918-941 | what a callback says by name is what is recorded; anything unrecognised confirms no stop |
| JobLogs.NextLogs | src/embodirun/application/jobs.py:892-906 | every step adds at most one event to a row: one if there is room, and a mark if not |
| JobLogs.LogHolds | src/embodirun/application/jobs.py:892-906 | over any run a log holds no more events than the largest bound and is cut off only at the smallest |
| JobLogs.AnswerIsPosted | src/embodirun/application/jobs.py:747-788 | the answer of a cancel callback of an open registry reaches its row: physical status, error and event |
| JobLogs.StageIsLogged | src/embodirun/application/jobs.py:456-502 | a stage of a job of an open registry is added to its log and changes nothing else |
| JobLogs.AbandonIsLogged | src/embodirun/application/jobs.py:538-571 | restart and shutdown log the recovery or the close in exactly the unfinished rows |
| JobLogs.ErrorIsCut | src/embodirun/application/jobs.py:943-948 | an error is kept with at most 1024 characters |
| JobStops.StoppedIff | src/embodirun/application/jobs.py:599-788 | after any run `stopped` is on record exactly if an answer or result confirmed it and none of five named steps came later |
| JobStops.ConfirmedStopIsLost | src/embodirun/application/jobs.py:599-603 | a run in which a confirmed stop ends as `stop_requested` |
| Devices.HostState.LockEach | src/embodirun/devices/lifecycle.py:561-571 | all locks are taken or the table is as before |
| Devices.HostState.UnlockEach | src/embodirun/devices/lifecycle.py:259-268 | exactly the given keys are freed |
| Devices.HostState.MarkEach | src/embodirun/devices/lifecycle.py:335-348 | one ledger entry for each physical key, or none if the file is unreadable |
| Devices.HostState.ClearEach | src/embodirun/devices/lifecycle.py:350-361 | the entries of the given physical keys go, the others stay |
| Devices.DeviceManager.BeginAcquire | src/embodirun/devices/lifecycle.py:499-560 | the answer of an acquire up to its locks, drivers or preparer |
| Devices.DeviceManager.PrepareRecord | src/embodirun/devices/lifecycle.py:645-671 | preparing a record that is open: granted, refused, or marked with faults in the ledger |
| Devices.DeviceManager.OpenRecord | src/embodirun/devices/lifecycle.py:561-634 | a first consumer: granted, restored, or quarantined with its locks |
| Devices.DeviceManager.FinishAcquire | src/embodirun/devices/lifecycle.py:543-634 | the effects of an acquire after its checks |
| Devices.DeviceManager.Release | src/embodirun/devices/lifecycle.py:673-686 | closing a lease removes one reference at most once; the last makes a close due |
| Devices.DeviceManager.CloseBegin | src/embodirun/devices/lifecycle.py:688-706 | a due close starts the closer unless the record is gone or closing |
| Devices.DeviceManager.CloserReturned | src/embodirun/devices/lifecycle.py:708-778 | ledger, locks and state after the closer succeeded or failed |
| Devices.DeviceManager.CloseEnd | src/embodirun/devices/lifecycle.py:716-731 | a closed record goes, a failed one stays without leases |
| Devices.DeviceManager.ReportUncertain | src/embodirun/devices/lifecycle.py:847-861 | an owner's fault report marks the record found under that identity |
| Devices.DeviceManager.VerifyCleared | src/embodirun/devices/lifecycle.py:837-845 | an owner's verification clears the fault |
| Devices.DeviceManager.CloseAll | src/embodirun/devices/lifecycle.py:863-895 | shutting down makes a close due for every record |
| DeviceProofs.NextKeeps | src/embodirun/devices/lifecycle.py:462-890 | every critical section of any manager, crash and ledger outage keeps locks, records, leases and history consistent |
| DeviceTheorems.OpenHandlesExclusive | src/embodirun/devices/lifecycle.py:561-634 | an open value that is not external holds all its physical keys, so no two open values share one |
| DeviceTheorems.LocksHaveRecords | src/embodirun/devices/lifecycle.py:733-778 | no lock leaks: a held one belongs to a record not yet closed |
| DeviceLedger.AcquireAllOrNothing | src/embodirun/devices/lifecycle.py:572-634 | an acquire grants, or leaves locks, handles and ledger as before, or quarantines with its locks and a fault on every physical key |
| DeviceTheorems.ReferencesCountLeases | src/embodirun/devices/lifecycle.py:544-548 | references are the number of live leases and a token belongs to one record |
| DeviceTheorems.OldTokensStayDead | src/embodirun/devices/lifecycle.py:289-293 | a lease closed again, at any later time, releases nothing |
| DeviceTheorems.OneCloserAtATime | src/embodirun/devices/lifecycle.py:688-731 | the closer of a record is entered only while it is not running |
| DeviceReleases.LeaseIff | src/embodirun/devices/lifecycle.py:543-549 | over any run a token is live on a record exactly if it was, or was granted on it, and has not been released |
| DeviceAnswers.AcquireAnswers | src/embodirun/devices/lifecycle.py:504-560 | in every run the whole answer of an acquire of an open device, by what happened before: closed, closing, other declaration, still held, refused for its ledger, going on to the preparer, or granted |
| DeviceAnswers.SecondConsumerGranted | src/embodirun/devices/lifecycle.py:544-549 | while a token is live on a device, an acquire of the same declaration without preparing is granted, and both leases are live |
| DeviceAnswers.FirstConsumerAnswers | src/embodirun/devices/lifecycle.py:527-560 | the answer for a device that is not open |
| DeviceAnswers.RecordStateIff | src/embodirun/devices/lifecycle.py:615-731 | a record is uncertain, prepared or closing exactly if named earlier steps made it so and no later one undid it |
| DeviceAnswers.ShutIff | src/embodirun/devices/lifecycle.py:863-873 | a manager refuses acquires as closed exactly if it was shut down |
| DeviceReleases.DueHasCause | src/embodirun/devices/lifecycle.py:673-686 | every close that is due comes from an earlier release of the last lease or a shutdown |
| DeviceReleases.CloserStartsLeasedIff | src/embodirun/devices/lifecycle.py:673-700 | whatever happens between the step that made a close due and its closer, the closer starts under a live lease exactly if one was granted since a release, or was live at a shutdown, and has not been released |
| DeviceReleases.ClosingGrantsNothing | src/embodirun/devices/lifecycle.py:504-517 | from the start of a closer until its close is finished, whatever happens, no acquire gets a lease of the record |
| DeviceReleases.AtomicReleaseClosesUnused | src/embodirun/devices/lifecycle.py:673-700 | so with no step in between a release starts the closer with no live lease |
| DeviceReleases.AcquireCanSlipBeforeClose | src/embodirun/devices/lifecycle.py:681-696 | a run in which it starts under one |
| DeviceReleases.ShutDownClosesUnderLease | src/embodirun/devices/lifecycle.py:863-873 | a shutdown that does so with no step in between |
| DeviceLedger.CheckSoundIffCovered | src/embodirun/devices/lifecycle.py:820-835 | the fault check stops every faulty prepare exactly if the node label covers the resource |
| DeviceLedger.PreparersFollowCleanChecks | src/embodirun/devices/lifecycle.py:527-560 | every preparer call follows a check that read a readable ledger without a fault of the resource |
| DeviceLedger.PreparerFaultIff | src/embodirun/devices/lifecycle.py:527-576 | whatever runs between check and preparer, at the call the ledger has a fault of a covered resource exactly if a step in between put one there that no later one took away, and is unreadable exactly if it became so |
| DeviceLedger.PreparerCallFrom | src/embodirun/devices/lifecycle.py:636-660 | every preparer call of every run comes from such a check |
| DeviceLedger.AtomicAcquirePreparesClean | src/embodirun/devices/lifecycle.py:527-576 | so with no step in between the ledger at the call is clean |
| DeviceLedger.FaultCanSlipBeforePrepare | src/embodirun/devices/lifecycle.py:527-576 | a run in which it has a fault |
| DeviceLedger.FaultIff | src/embodirun/devices/lifecycle.py:335-361 | from any point of a run to any later one a fault is on the ledger exactly if it was, or a step put it there, and no later step took it away |
| DeviceStates.LedgerHasOneEach | src/embodirun/devices/lifecycle.py:335-361 | in every run the ledger has at most one entry for a physical key |
| DeviceStates.StatesFit | src/embodirun/devices/lifecycle.py:615-634 | in every run a record that is not uncertain is external exactly if its resource is |
| DeviceStates.OwnerKnows | src/embodirun/devices/lifecycle.py:837-861 | what a manager knows of faults after its owner's report and verification, with the ledger readable or not |
| DeviceStates.StartKnows | src/embodirun/devices/lifecycle.py:420-456 | a manager starts with what the ledger says, if it can be read |
| DeviceFailures.RecordOpened | src/embodirun/devices/lifecycle.py:513-634 | every record of every run was opened by an acquire with its own earlier check |
| DeviceFailures.FailedCloseFaultPersists | src/embodirun/devices/lifecycle.py:716-778 | across crashes and restarts the fault of a failed close is on the ledger at any later point of any run, unless a verification, a successful close of the same record, or one of two named kinds of other records took it |
| DeviceFailures.FailedCloseFaultTakenBy | src/embodirun/devices/lifecycle.py:756-770 | the step that takes a fault standing since a failed close is a verification, a close of the same record, a close where one of the two records is external, or a close of a record opened later that was checked before the failure, under a label that does not cover it, or through a ledger outage |
| DeviceFailures.SeeingNeverTakes | src/embodirun/devices/lifecycle.py:615-629 | a record whose check reads the fault under a covering label, with the ledger readable until it is opened, never takes the fault |
| DeviceFailures.OldTakerIsSame | src/embodirun/devices/lifecycle.py:561-571 | of the records live at the failure only the failed one can take the fault, unless one is external: the lock table keeps them apart |
| DeviceFailureRuns.ExternalCloseTakesFault | src/embodirun/devices/lifecycle.py:561-562 | a run in which an external record of the same device takes the fault while the failed record is still failed |
| DeviceFailureRuns.AcquireAcrossFailureTakesFault | src/embodirun/devices/lifecycle.py:527-571 | a run in which a record checked before the failure and opened after the crash takes it |
| DeviceFailureRuns.OtherLabelTakesFault | src/embodirun/devices/lifecycle.py:820-835 | a run in which a manager of another node label takes it |
| DeviceFailureRuns.OutageTakesFault | src/embodirun/devices/lifecycle.py:756-770 | a run in which a record checked during a ledger outage takes it, since another close made its manager forget the outage |
| DeviceMarks.OpensMarkedIff | src/embodirun/devices/lifecycle.py:615-629 | a record is opened with a mark exactly if it is quarantined or its check found a fault or no readable ledger, corrected by the closers of its own manager since |
| DeviceMarks.OpenedRecordTakesIff | src/embodirun/devices/lifecycle.py:756-778 | over any run from the check to the close, the close takes a fault away exactly if it succeeds and the record was neither opened with a mark nor marked since |
| DeviceMarks.OpenedOverFaultNeverTakes | src/embodirun/devices/lifecycle.py:615-629 | so a record whose check met a fault never takes one of its resource away, unless its own manager's closer cleared it before the opening |
| DeviceMarks.MarkedIff | src/embodirun/devices/lifecycle.py:847-861 | while a record is there it is marked exactly if it was, or one of three named steps has marked it since |
| DeviceMarks.ReportedFaultOutlivesCloseIff | src/embodirun/devices/lifecycle.py:847-861 | a fault reported by any manager outlives the record's next successful close, whatever runs in between, exactly if no step took it before or a later one put it back, and the report was the own manager's under the primary identity or the record was or became marked otherwise |
| DeviceMarks.ForeignReportIsLost | src/embodirun/devices/lifecycle.py:847-861 | a run in which another manager's report under that identity is taken away by an ordinary close |
| Kinematics.ForwardOfInverse | integrations/xlerobot_owner/src/embodirun_xlerobot_owner/control.py:183-209 | on the whole annulus forward kinematics undoes the inverse, both branches, with or without reference |
| Kinematics.ForwardOfInversePlain | agents/rpent/so101_correction.py:156-185 | the same for the correction bridge |
| Kinematics.ClampIsNoOp | integrations/xlerobot_owner/src/embodirun_xlerobot_owner/control.py:191-200 | in the annulus the cosine clamp changes nothing |
| Kinematics.RewrapReaches | integrations/xlerobot_owner/src/embodirun_xlerobot_owner/control.py:38-39 | wrapping joints toward a reference leaves the hand where it is |
| Kinematics.InverseIsNearest | integrations/xlerobot_owner/src/embodirun_xlerobot_owner/control.py:201-209 | the result is nearest to the reference among all joint pairs that reach the point |
| Kinematics.PlainIsNearer | agents/rpent/so101_correction.py:156-180 | the bridge's solution is the nearer of the two elbow branches |
| Quaternions.WristIgnoresWorldFrame | integrations/xlerobot_owner/src/embodirun_xlerobot_owner/control.py:42-59 | turning the world changes neither wrist angle; an unmoved controller gives the identity |
| WristTurns.WristOfTurns | integrations/xlerobot_owner/src/embodirun_xlerobot_owner/control.py:42-59 | of a controller turned by a heading, then a pitch under a right angle, then a roll, the two angles are the pitch and the roll, and the heading changes neither |
| FractionSearch.FindFraction | integrations/xlerobot_owner/src/embodirun_xlerobot_owner/control.py:338-354 | the halving and bisection loops end and compute the specified search |
| FractionSearch.SearchIsTight | integrations/xlerobot_owner/src/embodirun_xlerobot_owner/control.py:338-354 | the fraction is accepted, and one at most 1/1024 of it above is rejected |
| FractionSearch.LargerHalfRejected | integrations/xlerobot_owner/src/embodirun_xlerobot_owner/control.py:338-354 | every power of a half above the fraction was rejected |
| ArmStep.MoveArm | integrations/xlerobot_owner/src/embodirun_xlerobot_owner/control.py:297-382 | one arm step: planar joints together, the others on their own |
| ArmStep.StepIsSafe | integrations/xlerobot_owner/src/embodirun_xlerobot_owner/control.py:297-382 | from inside the limits a step ends inside them and within speed and time of the start |
| ArmStep.HandFollowsLine | integrations/xlerobot_owner/src/embodirun_xlerobot_owner/control.py:310-336 | the hand moves by exactly the fraction of the scaled displacement: up by the height, back by the depth |
| ArmStep.FractionIsTight | integrations/xlerobot_owner/src/embodirun_xlerobot_owner/control.py:338-354 | shoulder and elbow are the candidate at the fraction, the largest the search resolves; every larger halving is rejected |
| ArmMotion.PlanarMotion | integrations/xlerobot_owner/src/embodirun_xlerobot_owner/control.py:310-354 | the whole planar result: at the fraction the arm gets there by the least turning inside limits and speed, a little above it is blocked, and at zero nothing moves |
| ArmMotion.OtherJointsFollow | integrations/xlerobot_owner/src/embodirun_xlerobot_owner/control.py:356-378 | pan, wrist and roll each go to what they are asked, by their own scale and sign, until a limit or the speed stops them |
| ArmMotion.ReportedShare | integrations/xlerobot_owner/src/embodirun_xlerobot_owner/control.py:356-382 | the reported share is the least that any part of the motion achieved |
| ArmMotion.RangesAre | integrations/xlerobot_owner/src/embodirun_xlerobot_owner/control.py:320-328 | given limits hold, and the defaults are half a turn and 0 to 100 |
| ArmStep.WristKeepsPitch | integrations/xlerobot_owner/src/embodirun_xlerobot_owner/control.py:370-376 | gripper pitch changes by the requested rotation alone exactly if the wrist is not limited |
| ArmStep.IndependentSafeIff | integrations/xlerobot_owner/src/embodirun_xlerobot_owner/control.py:359-368 | a joint on its own ends safe for every target exactly if its range is reachable in one step |
| QuestMappers.QuestMapper.Sample | integrations/xlerobot_owner/src/embodirun_xlerobot_owner/control.py:384-508 | one frame: command or error, and the whole new state |
| QuestMappers.QuestMapper.SampleSide | integrations/xlerobot_owner/src/embodirun_xlerobot_owner/control.py:421-494 | one hand: let go, anchored, jumped or driven |
| QuestMappers.QuestMapper.PullTrigger | integrations/xlerobot_owner/src/embodirun_xlerobot_owner/control.py:480-494 | the trigger interlock and gripper of one sample |
| QuestMappers.QuestMapper.SetControlMode | integrations/xlerobot_owner/src/embodirun_xlerobot_owner/control.py:272-279 | a change of mode forgets everything; driving needs the base |
| QuestMappers.QuestMapper.AcceptAppliedAction | integrations/xlerobot_owner/src/embodirun_xlerobot_owner/control.py:290-295 | only known targets follow a receipt |
| QuestRuns.DisplacementAccounted | integrations/xlerobot_owner/src/embodirun_xlerobot_owner/control.py:450-478 | during a grip height and depth moved are what was fed plus a residual under a millimetre |
| QuestRuns.LateralAccounted | integrations/xlerobot_owner/src/embodirun_xlerobot_owner/control.py:450-478 | over a whole grip the sideways displacement is what was fed for the hand, plus the hand motion that a deflected stick replaced, plus a residual, which is under a millimetre exactly if the last sample is not stalled |
| QuestRuns.ReadyIffArmed | integrations/xlerobot_owner/src/embodirun_xlerobot_owner/control.py:431-489 | the trigger is ready exactly if it was released in this grip since the last change of direction |
| QuestRuns.SqueezeNeedsRelease | integrations/xlerobot_owner/src/embodirun_xlerobot_owner/control.py:483-494 | every gripper move follows such a release |
| QuestRuns.GripperMovesBounded | integrations/xlerobot_owner/src/embodirun_xlerobot_owner/control.py:489-494 | a move goes straight to the open or closed position, stops there, and is bounded by speed, time and trigger |
| QuestRuns.RotationConsumedOnce | integrations/xlerobot_owner/src/embodirun_xlerobot_owner/control.py:452-478 | over a grip a rotation is fed once, from the pose at which the last one was fed |
| QuestSafety.CommandsStayInside | integrations/xlerobot_owner/src/embodirun_xlerobot_owner/control.py:384-500 | in every run all commands keep both arms and grippers inside their limits |
| QuestSafety.CommandsMoveSlowly | integrations/xlerobot_owner/src/embodirun_xlerobot_owner/control.py:384-500 | in every run an arm that keeps its grip, or has none, stays within speed and time of its last target |
| QuestRefusals.RefusedIff | integrations/xlerobot_owner/src/embodirun_xlerobot_owner/control.py:390-448 | in every run a sample is refused exactly if a hand is not tracked, or in arm mode a continued grip moved or turned too far since its previous sample, and with which error |
| QuestRefusals.RearmsFromMeasuredPose | integrations/xlerobot_owner/src/embodirun_xlerobot_owner/control.py:390-450 | after such a sample the next command is the measured pose |
| QuestCommands.CommandsAreTargets | integrations/xlerobot_owner/src/embodirun_xlerobot_owner/control.py:397-508 | every command is what the next sample starts from |
| QuestCommands.GripBeginsAtMeasuredPose | integrations/xlerobot_owner/src/embodirun_xlerobot_owner/control.py:431-448 | a grip begins at the measured joints with the gripper as it was sent |
| QuestCommands.GripMovesArm | integrations/xlerobot_owner/src/embodirun_xlerobot_owner/control.py:450-494 | a continued grip moves the hand along the controller's motion since it was last consumed, or the stick's, by the reported fraction |
| QuestCommands.DriveSpeeds | integrations/xlerobot_owner/src/embodirun_xlerobot_owner/control.py:397-416 | a wheel turns exactly while the right hand grips and its stick is deflected, against its sign and at its share of top speed |
| QuestCommands.SwitchAnswers | integrations/xlerobot_owner/src/embodirun_xlerobot_owner/control.py:272-288 | a mode is refused exactly if it drives without a base; a new mode forgets all motion |
| QuestCommands.ReceiptIsTaken | integrations/xlerobot_owner/src/embodirun_xlerobot_owner/control.py:290-295 | a receipt replaces the known targets of exactly the joints it names |
| QuestSafety.DriveHoldsArms | integrations/xlerobot_owner/src/embodirun_xlerobot_owner/control.py:397-416 | in drive mode every command repeats the held pose over any undisturbed run |
| QuestSafety.BaseOrArms | integrations/xlerobot_owner/src/embodirun_xlerobot_owner/control.py:397-508 | a wheel turns only in drive mode with the right grip, and from any drive command on all commands of an undisturbed run keep the arms in one pose |
| QuestSafety.UngrippedHolds | integrations/xlerobot_owner/src/embodirun_xlerobot_owner/control.py:419-430 | over any run of commands in which a hand is not gripped its arm and gripper stay where the last command sent them |
| InputClocks.InputClock.AcceptFrame | integrations/xlerobot_owner/src/embodirun_xlerobot_owner/control.py:155-169 | accept, reorder, clock change or delay, with the new clock |
| InputClocks.RunIsOrdered | integrations/xlerobot_owner/src/embodirun_xlerobot_owner/control.py:155-169 | processed numbers and times strictly increase over every run |
| InputClocks.OffsetIsLeastProcessed | integrations/xlerobot_owner/src/embodirun_xlerobot_owner/control.py:160-166 | the offset is the least of all processed frames |
| InputClocks.AcceptedIsFresh | integrations/xlerobot_owner/src/embodirun_xlerobot_owner/control.py:166-169 | an accepted time is neither in the future nor too old, and a delayed frame is never executed later |
| InputClocks.AnswersIff | integrations/xlerobot_owner/src/embodirun_xlerobot_owner/control.py:155-169 | after any run the answer for a frame by the frames processed: reordered, clock changed, delayed, or its time by the lesser offset |
| Corrections.MapCorrections | agents/rpent/so101_correction.py:223-355 | the loop over waypoints gives all public actions, encoded or plain, or none |
| Corrections.ActionsSayRows | agents/rpent/so101_correction.py:299-353 | an accepted call gives one action for each waypoint at successive control steps with complete metadata, carrying exactly the row under the configured names, or the encoder's values; without an encoder it is accepted exactly if the rows are |
| Corrections.CorrectionsReach | agents/rpent/so101_correction.py:207-300 | each row puts each targeted hand exactly at its waypoint, inside calibration and the step bound; the other arm rests |
| Corrections.RowIff | agents/rpent/so101_correction.py:223-300 | a waypoint is accepted exactly if it lasts one control step, has a target, and each side's target can be reached and taken inside calibration and step bound |
| Corrections.CorrectedIff | agents/rpent/so101_correction.py:223-250 | a call is looked at exactly with one to five waypoints and an observed state inside the bounds |
| Corrections.ActionParts | agents/rpent/so101_correction.py:299-353 | the time, the order of the twelve values and the metadata of an action |
| Recorders.ObservationRecorder.RecordAction | src/embodirun/devices/recording.py:243-261 | an event is queued, displaces the oldest, or is refused |
| Recorders.ObservationRecorder.AskStop | src/embodirun/devices/recording.py:262-286 | what a stop request does in every state |
| Recorders.ObservationRecorder.AppendEach | src/embodirun/devices/recording.py:563-590 | writes are checked against the byte limit and counted up to the first failure |
| Recorders.ObservationRecorder.WriteSnapshot | src/embodirun/devices/recording.py:431-536 | gaps, missing parts, limits and counts of one snapshot |
| Recorders.ObservationRecorder.Pop | src/embodirun/devices/recording.py:538-544 | the oldest queued event is taken, or none is left |
| Recorders.ObservationRecorder.WriteAction | src/embodirun/devices/recording.py:545-562 | an event's write is counted if it fits and succeeds |
| Recorders.ObservationRecorder.Fail | src/embodirun/devices/recording.py:592-597 | a failure marks the recording incomplete and asks the writer to stop |
| Recorders.ObservationRecorder.Finish | src/embodirun/devices/recording.py:418-429 | the writer's end keeps a failure, and an unwritten manifest is one |
| RecorderTheorems.ActionsConserved | src/embodirun/devices/recording.py:243-261 | every accepted event is written, dropped, lost, in hand or queued, once; a lost one means failure |
| RecorderTheorems.WrittenInOrder | src/embodirun/devices/recording.py:538-561 | events are written in the order of acceptance |
| RecorderTheorems.CompleteMeansAllWritten | src/embodirun/devices/recording.py:391-429 | a recording that ends unmarked has written every event in order |
| RecorderTheorems.LimitsHold | src/embodirun/devices/recording.py:563-590 | the counters tell the bytes and snapshots the files hold, and with the queue never exceed their limits |
| RecorderTheorems.StoppedQueueIff | src/embodirun/devices/recording.py:270-278 | a stopped recorder's queue is empty exactly if it was started or given nothing |
| RecorderTheorems.StoppedUnstartedKeepsEvent | src/embodirun/devices/recording.py:270-274 | a run that stops unstarted with an event queued and nothing marked |
| RecorderTheorems.FewSnapshotsAfterStop | src/embodirun/devices/recording.py:391-413 | after a stop at most one snapshot more than the queue size is taken, and the loop is cut off exactly when that many are written |
| RecorderTheorems.ShutdownBounded | src/embodirun/devices/recording.py:391-429 | the writer ends within `6 * queue_size + 13` moves whatever callers and publisher do |
| RecorderTheorems.WriterNeverStuck | src/embodirun/devices/recording.py:391-429 | a writer that has not ended can always move, so the bound is met |
| RecorderTheorems.SequencesAccounted | src/embodirun/devices/recording.py:439-456 | rising sequence numbers are all taken or reported missing; some are reported exactly if neighbours leave some out |
| RecorderTheorems.EndIsForGood | src/embodirun/devices/recording.py:410-429 | failed, stopped and incomplete are never taken back |
| RecorderMarks.IncompleteIff | src/embodirun/devices/recording.py:246-456 | in every run a recording is marked incomplete exactly if an event was displaced, a stop timed out, the shutdown budget was spent, the recording failed, or a noted snapshot lacked a frame or its state, carried errors, or left out a number |
| RecorderMarks.MissingCounted | src/embodirun/devices/recording.py:446-453 | the counters of missing frames and states are the sums over the snapshots noted |
| RecorderMarks.PhaseIff | src/embodirun/devices/recording.py:209-286 | the phase is the one that the calls and failures so far lead to |
| RecorderMarks.OfferAnswers | src/embodirun/devices/recording.py:243-261 | an event is taken exactly until a stop or failure, at the end of the queue, displacing the oldest exactly if it is full |
| RecorderMarks.WriteAnswers | src/embodirun/devices/recording.py:431-590 | a write raises exactly if it fails, leaves the byte limit, or, for a snapshot, as many as allowed are kept |
| RecorderMarks.NotedAreKept | src/embodirun/devices/recording.py:431-536 | all snapshots noted are kept but for one on which the recording failed |
| RecorderMarks.UnmarkedIsWhole | src/embodirun/devices/recording.py:391-456 | a recording that ends unmarked holds every event and snapshot in order with nothing missing |
| Contracts.ProfileRoundTrip | src/embodirun/application/contracts.py:76-122 | decoding a profile's payload gives the profile back |
| Contracts.DecodeEncode | src/embodirun/application/contracts.py:262-398 | what decoding an encoded configuration gives, in all cases |
| Contracts.RoundTripIff | src/embodirun/application/contracts.py:262-398 | the round trip is exact for inference, and otherwise exactly for default backend, no endpoint, no options |
| Contracts.DecodedIsStable | src/embodirun/application/contracts.py:262-398 | whatever the decoder accepts is stable after one more round of encoding and decoding |
| Contracts.ProfileForRuntimeIff | src/embodirun/application/contracts.py:400-419 | which runtimes have a profile, and that it is valid |
| Contracts.ForProfileIff | src/embodirun/application/contracts.py:421-434 | when the view of a service for a profile can be built, and selects it |
| ContractReading.PayloadIff | src/embodirun/application/contracts.py:87-122 | a payload is decoded to a profile exactly if its members, the missing ones by their defaults and no others, say that profile and it is valid |
| ContractReading.ConfigIff | src/embodirun/application/contracts.py:309-398 | a message is decoded to a configuration exactly if it has the schema and no unknown member, every member says its part, and the configuration is valid |
| PlanMerge.MergeControlServices | src/embodirun/deployment/plan.py:901-961 | the merge with its loops computes the specified service or error |
| MergeProofs.MergeOkIff | src/embodirun/deployment/plan.py:901-948 | a group merges exactly if it decodes, infers, is wired, names one robot and declares shared resources alike, by Python's equality, with names that can be iterated |
| MergeProofs.MergeKeepsProfileIff | src/embodirun/deployment/plan.py:921-925 | a runtime keeps its profile exactly if the last service of its name has it |
| MergeProofs.MergeKeepsProfiles | src/embodirun/deployment/plan.py:921-961 | with different names every runtime keeps its profile and no other gains one |
| MergeProofs.MergeKeepsResources | src/embodirun/deployment/plan.py:926-953 | every resource is declared once, unchanged in kind, value and owner, with all its names, in key order |
| MergeProofs.MergeKeepsRest | src/embodirun/deployment/plan.py:954-961 | the merged service has the given name and runtimes, the first service's endpoint and owner, and the identities of all resources in the order of their first declaration |
| MergeProofs.MergeKeepsConfig | src/embodirun/deployment/plan.py:949-953 | its configuration is the first one but for profiles and resources |
| MergeProofs.MergedNames | src/embodirun/deployment/plan.py:938-944 | the names of a shared resource are listed once each in the order in which its declarations first give them |
| MergeProofs.NamesAre | src/embodirun/deployment/plan.py:941-943 | which values are names of a resource |
| PlanOwners.RenameOwners | src/embodirun/deployment/plan.py:231-236 | the renaming loops compute what becomes of every owner |
| PlanOwners.RenameRuntimes | src/embodirun/deployment/plan.py:237-242 | exactly the group's runtimes move to the group's service |
| PlanOwners.OwnerFollowsGroupIff | src/embodirun/deployment/plan.py:215-242 | a resource follows its group exactly if no later shared group has a runtime named like its robot |
| PlanOwners.WrongOwnerPassesCheck | src/embodirun/deployment/plan.py:243-245 | a plan that passes the name check with a wrong owner |
| Identity.Canonicalize | src/embodirun/application/api.py:935-961 | the edits of the copy compute the canonical form |
| Identity.CanonicalIff | src/embodirun/application/api.py:905-961 | canonical forms compare equal, as Python compares, exactly for requests that differ at most in action metadata's observation and in how numbers are written |
| Identity.RetryIff | src/embodirun/application/api.py:485-498 | a request matches a stored identity exactly if it asks for the same, however snapshots moved |
| Identity.StoredIff | src/embodirun/application/api.py:869-883 | a request can be stored exactly if no action names an observation other than the selected one |
| Identity.StoredSays | src/embodirun/application/api.py:905-932 | what is stored names the selected observation in every action and keeps the rest |
| Identity.LookupAnswers | src/embodirun/application/api.py:422-440 | in every run of lookups and submits: retry, conflict or nothing, by the first request stored |
| Identity.RacingSubmitIff | src/embodirun/application/jobs.py:285-312 | a racing second submit is the same one exactly if both selected the same snapshot |
| Identity.TrueIsOneOnLookup | src/embodirun/application/api.py:485-498 | any request with a parameter changed from True to 1 is a retry for the lookup and a conflict for the submit |
| Raster.Put | agents/astra_pi05/reviewer.py:278-281 | three bytes of one pixel, or nothing outside the image |
| Raster.Line | agents/astra_pi05/reviewer.py:283-300 | the loop ends and colours exactly the pixels of the segment |
| Raster.StepAdvances | agents/astra_pi05/reviewer.py:294-300 | the error term steps along both axes exactly as the nearest-pixel form says |
| Raster.SegmentPixels | agents/astra_pi05/reviewer.py:283-300 | pixels go from end to end, past neither, each within half a pixel |
| Raster.PixelsDiffer | agents/astra_pi05/reviewer.py:283-300 | no pixel comes twice, so there are as many as the longer axis plus one |
| Raster.DrawTrajectory | agents/astra_pi05/reviewer.py:272-318 | the picture is right path over left path on white |
| Raster.TrajectoryInside | agents/astra_pi05/reviewer.py:302-318 | every pixel of either path lies inside the image and the buffer |
| Raster.PointsPlaced | agents/astra_pi05/reviewer.py:302-316 | the least and greatest values of all points are drawn at the margins, heights upwards, and the others in proportion |
| Digest.ContentDigest | src/embodirun/deployment/source.py:330-338 | the hash sees the length-prefixed names and contents in name order, or a length does not fit |
| Digest.ParseFramed | src/embodirun/deployment/source.py:330-338 | the preimage can be read back |
| Digest.PreimageIff | src/embodirun/deployment/source.py:330-338 | preimages are equal exactly for equal files, in whatever order they were collected |
| Digest.FileLayout | src/embodirun/deployment/source.py:332-337 | of each file the hash sees the name's length, the name, the content's length and the content, lengths in eight bytes with the most significant first |
| Digest.EncodeTextInjective | src/embodirun/deployment/source.py:333 | different names have different UTF-8 encodings |

## Left out

- SQLite, flock, fsync, temporary files and threads: rows are a map, a lock is a table entry, a thread is a phase; failures of a database commit are not modelled.
- Jobs: event and update timestamps, the `_results` cache, the `wait` loop, the text of results and errors, in-memory databases; run ids are a counter.
- Devices: reasons and error texts, `status`, the ledger's file format, openers that return nothing, and the order in which one acquire takes its locks among those of other processes (the result of taking all or none does not depend on it). Identities are triples, so nodes and kinds contain no colon.
- `RobotControlArbiter`, `SharedSensorHub`, the observation store and subscriptions: a snapshot enters as an argument.
- Floating point: all measures are real numbers; rounding, NaN and rounded diagnostics are not modelled. Distances are compared by their squares where the source takes the root.
- Quest: parsing of frames, diagnostics, `neutral` and `grip_activation_ready`. Unknown joints in the measured state and in receipts do not occur.
- Recorder: file names, JSON text and media encoding; a write is a number of bytes and whether it succeeds.
- Contracts: JSON text (values are encoded, the text is not), key order of objects, error messages.
- PlanMerge.MergeControlServices: `sensor_ids` given as an object lists its keys in key order where the source takes them as they stand in the document; the set of names is the same.
- Planning beyond merge and renaming: environments, endpoints, model and simulation services, sensor nodes, wireless files.
- Authorisation, freshness of snapshots and dispatch of direct actions: only the identity path of `execute` is modelled.
- Raster: PNG chunks and compression, and the variant drawn with Pillow.
- Digest.ContentDigest: SHA-256 is a parameter, so nothing is said about collisions; names with lone surrogates, which cannot be encoded, do not occur.
- HTTP and Host clients, transports, the command line, SSH, supervisors, environment preparation, benchmarks and demos.
