# WorkBoost: sessions that can always be undone

WorkBoost changes the priorities of Windows processes, asks applications to close and stops services for the time of a
coding session, and must be able to undo all of that after a crash at any moment. This project models the parts of it
that this promise rests on, and proves the promise.

## The system

* **Sessions** (`Worlds`, `Moments`, `Recoverable`, `Machines`, `SessionManager`, `Enacting`, `Entering`, `Restoring`,
  `Acknowledging`, `Evolution`, `Lifetime`). The operating system is a class whose trace lists every world a run has
  passed through: live processes keyed by pid and creation time, service states, the session file, the reports, a log
  of effects and a count of failed calls. Before every call the world may change by itself. A crash keeps a prefix of
  the trace. What the calls answer is recorded (`Moments`), so that everything that is refused, fails or is left undone
  must have a cause in those answers. The three commands are methods over that class with the branches, saves and early exits of the source.
  Every world they pass through satisfies one invariant, `Recoverable.Good`, so a crash between any two steps leaves
  such a world too; and every step satisfies `Recoverable.StepOk`: what is done was planned on disk before, records
  only move forward, and the session file goes away only for a complete report.
* **Actions** (`Executor`, `ProcessActionApi`, `ServiceApi`, `ElevatedHelper`, `Refusals`): what each system call may have
  done when it fails, what the client may conclude from the helper's answer, what the elevated helper must have made sure
  of before it acts, and what it may refuse for.
* **Plans** (`Planner`, `Policy`, `PlanLaws`): the planner and the validator decide about the same actions independently;
  the plan is complete and sound for what the profile and the policy say of each entry of the inventory, and what the
  validator accepts and the policy lets be touched is characterized exactly.
* **Messages** (`Utf8`, `Wire`): the binary codec between WorkBoost and its helper.
* **Files** (`JsonText`, `JsonSyntax`, `JsonScan`, `JsonFields`, `JsonReader`, `JsonLayout`, `Words`, `SessionModel`,
  `SessionText`, `SessionLoader`, `Completion`, `ReportText`, `BenchmarkText`): JSON as concrete syntax trees with
  explicit whitespace; the validator, the field scanner and the printers are each related to those trees.
* **Measurements** (`Windows`, `BenchmarkPoints`, `Diagnosis`, `DiagnosisLaws`, `Smbios`): loops that aggregate a window of snapshots, and
  the two walks over a firmware table.

## What is assumed of the surroundings

* A save, and the write of a report, is atomic; one that fails leaves the old file.
* Other programs leave the targets of a session alone while it lasts: nobody else changes their priorities or stops
  their services. All other processes and services change freely, processes end and pids are reused at any time.
* A creation time is never used twice with one pid. An open handle keeps its process identified.
* A system call that reports failure changed nothing, except that a failed send of WM_CLOSE may have been delivered. A
  failed pipe write was not delivered. A stop that is refused stopped nothing; an accepted one leaves Running at once.
* `SetPriorityClass` sets exactly the class it is given, and `OpenProcess` reports an invalid parameter only for a pid
  nobody has.
* A check of the helper's peer, image, session or elevation that does not pass counts as a failed call, and so does a
  trusted configuration that cannot be loaded.
* A helper whose client has given up may still stop its service at any time between two commands (`Lifetime.Idle`), but
  not while a command runs.
* A snapshot lists each pid once; an entry with a creation time has a nonzero pid and the true priority. A priority
  class is never 0, and one that cannot be read (0 in a snapshot) is excluded: see below.
* The service manager knows no service whose name has more than 256 bytes, a slash, a backslash or a control byte.
  `SessionText.LoadedExactlyWithValidNames` shows why this is needed: the program saves such a name but does not load
  it again.

Where the code and its comments differ, the model follows the code. One promise does not hold for every snapshot. The
validator does not ask for the priority of its target, so a raise of a process whose priority could not be read is
accepted (`Enacting.UnreadablePriorityIsAccepted`) and planned with a restore value of 0; after a crash right behind it,
`RestoreSession` reports the record as not restorable (`Executor.Rollback`). The planned restore value is the
pre-session priority if and only if the snapshot has that priority (`Enacting.PlannedPayloadIsTrue`), and the runs below
are runs with such snapshots; in them no pending record has a restore value of 0.

## Model

| member | source | states |
|---|---|---|
| `Lifetime.Life` | src/cli/cli.cpp:910-1286 | Any sequence of enter, restore and acknowledge, each cut off by a crash at any step, with processes ending, pids reused, services changing state and stops taking effect after their client gave up: every world of the run satisfies the recovery invariant, and every step is in order: what is done was planned on disk before, records only move forward, and the session file only disappears once a report on disk says that everything was undone and counts every action |
| `Lifetime.FirstMoment` | src/cli/cli.cpp:1105-1118 | A machine on which no session ran yet, with every process at its own priority, is a run of this kind: the invariant has a start |
| `Lifetime.RunCommand` | src/cli/cli.cpp:910-1286 | Each single command keeps every world of the run recoverable and only ever extends the run |
| `Lifetime.ChangedProcessHasRecord` | src/cli/cli.cpp:1178-1274 | In every world of every run, a live process whose priority is not its pre-session one has a Planned, Applied or Uncertain record on disk for exactly that pid and creation time, whose restore value is the pre-session priority |
| `Lifetime.StoppedServiceHasRecord` | src/cli/cli.cpp:1178-1274 | In every world of every run, a service the session stopped and that does not run has a pending record on disk that will start it |
| `Lifetime.ReusedPidIsUntouched` | src/platform/windows/process_action_api.cpp:94-123 | A process that reuses the pid of a target, with another creation time, never has its priority changed |
| `Lifetime.NothingTwice` | src/core/optimization/optimization.cpp:298-455 | Within a session no priority is changed twice, no stop accepted twice, no window told to close twice, and no process sent a second close request, crashes and retried restores included |
| `Lifetime.DoneOnlyWhenPlanned` | src/cli/cli.cpp:1243-1250 | Whatever is done was waited for by a record on disk in the world before: a planned one, or, for a stop that takes effect late, one already given up as uncertain |
| `Lifetime.RecordsMoveForward` | src/cli/cli.cpp:947-961 | Over any stretch of a session, whatever crashes, restores and acknowledgements are in it, the baseline stays, records keep their place and no record is ever planned again, so no action is executed again; what is final or completed stays; a close of unknown outcome stays uncertain until it is completed by the word of the user |
| `Lifetime.DeedIsOnRecord` | src/cli/cli.cpp:1243-1273 | While a session lasts, everything that was done has a record that admits it: never Failed or Rejected; a close Planned, Uncertain or Completed, and Completed with an undelivered message to a living process only by the word of the user |
| `Lifetime.NeverLockedOut` | src/app/session_manager.cpp:775-1089 | The text of every session file of every run is loaded back as the very session it was printed from |
| `Recoverable.GoodStays` | src/cli/cli.cpp:1178-1274 | Whatever a stretch of a run does within the scope of the pending records on disk, closes only for planned ones, the worlds it passes through stay recoverable and their records stay truthful |
| `Recoverable.NoFileMeansRestored` | src/cli/cli.cpp:1014-1024 | Without a session file every live process is at its own priority and every stopped service runs |
| `Recoverable.SettledMeansRestored` | src/cli/cli.cpp:950-961 | When all records that cover the changes are settled, nothing is left to undo |
| `Recoverable.FreshTargetIsClean` | src/core/optimization/optimization.cpp:55-175 | A target that none of the records has was not touched yet, and nothing was done for it; this is what distinct planned targets are needed for |
| `Recoverable.RecordAdded` | src/cli/cli.cpp:1178-1243 | Appending a record for a target of its own, with a true restore value and a state that tells the truth, keeps the records backing the machine |
| `Recoverable.RecordChanged` | src/cli/cli.cpp:1244-1250 | Replacing a record keeps the machine backed exactly because a record may stop being pending only once its target is clean, and its new state tells the truth about what was done |
| `Recoverable.NewDeeds` | src/core/optimization/optimization.cpp:298-393 | Effects made once for a target no earlier record has repeat nothing that was done before |
| `Entering.EnterCodingMode` | src/cli/cli.cpp:1105-1286 | The plan is what the planner makes of the last snapshot of the baseline window, all of it sampled during the run, with exactly the configured services in it as they were queried; with exit 0 (no dry run) each action of that plan has a record with a settled outcome, in plan order, and one that did not come out as planned has its cause in what the machine answered or in a failed call; every session file has the baseline that describes that window; 64 is returned exactly for a bad duration or unconfirmed medium-risk actions; with 64, on a dry run, or with an unfinished session nothing was done; with 1 a call failed, no session exists and nothing was done; 2 means an unfinished session, an uncertain outcome with its cause, or a failed call; without the confirmation option no stop is ever accepted; every moment stays recoverable |
| `Entering.RunPlan` | src/cli/cli.cpp:1178-1286 | The loop over the plan keeps file and memory equal between actions and ends with one settled record per action, each applied, completed, or answered for by a cause outside; it stops early only when a call failed or the newest record on disk is of uncertain outcome, with its cause; the file only ever holds planned actions |
| `Entering.StopsArePlanned` | src/cli/cli.cpp:1147-1170 | While the session file holds only actions of a plan without stops, no stop is in the log of any world |
| `Entering.BaselineStays` | src/app/session_manager.cpp:490-493 | As long as there is a session file, its baseline is the one it was first written with |
| `Entering.NewSession` | src/app/session_manager.cpp:480-488 | A new session has no records, and a baseline that says exactly what the observed window shows |
| `Enacting.EnterStep` | src/cli/cli.cpp:1180-1274 | One action: if it no longer validates it is recorded as Rejected and nothing is done; otherwise it is carried out after its planned record was written, and comes out settled; a priority not changed, a close not sent and a stop not made each have their cause in what the machine answered; abandoning means a failed call or an uncertain record on disk, with its cause |
| `Enacting.CarryOut` | src/cli/cli.cpp:1243-1273 | Write-ahead: if anything was done, there was a world before it in which the planned record was on disk and nothing had been done yet |
| `Enacting.ExecuteAndSave` | src/cli/cli.cpp:1249-1273 | The outcome replaces the planned record on disk and has its cause; an uncertain outcome or a failed save ends the run |
| `Enacting.PlannedRecord` | src/cli/cli.cpp:1196-1219 | The restore value is the priority the execution snapshot shows for the same pid and creation time |
| `Enacting.PlannedPayloadIsTrue` | src/cli/cli.cpp:1203-1221 | For an action that validates against an honest snapshot, the persisted restore value is the pre-session priority if and only if the snapshot has the priority of the target at all |
| `Enacting.UnreadablePriorityIsAccepted` | src/core/optimization/optimization.cpp:248-276 | The validator accepts a raise of a process whose priority could not be read: the planned record then holds a restore value of 0 |
| `Enacting.ConfirmedPlanIsReady` | src/cli/cli.cpp:1137-1170 | A confirmed plan has distinct targets, all of them seen, and every record made of it will be accepted by the loader |
| `Entering.CountMediumRisk` | src/cli/cli.cpp:1139-1165 | The medium-risk count is nonzero exactly when some action is neither Safe nor Low |
| `Entering.PlannedStopsAreMedium` | src/cli/cli.cpp:1147-1165 | A plan with a service stop has a nonzero medium-risk count, so it needs the confirmation option |
| `Enacting.AttachConfiguredServices` | src/cli/cli.cpp:336-357 | Either exactly the configured services were queried and are listed, as they were answered and in the order of their names, or the whole snapshot is refused, and then a call failed or a nameless service is configured |
| `Names.Least` | src/cli/cli.cpp:340-344 | The next of the sorted names |
| `Restoring.RestoreSession` | src/cli/cli.cpp:910-1025 | With exit 0 the session file is gone and every process and stopped service is as it was, after any number of crashed or partly failed restores; otherwise the file is kept, and there is a reason: a call failed, a close waits for the user, the restart of a recorded service was denied for a cause the machine answered, or a service that had been found running was then found off; unless the file could not be read or a save failed, every record had its own turn and is settled on disk at the end of it, or was kept from that by a failed call or a denial in that very turn; only undoing effects are made; records only evolve towards their end, and exit 0 is impossible while a close is Planned or Uncertain |
| `Restoring.TakeAllBack` | src/cli/cli.cpp:947-961 | The reverse loop saves after each step, goes on past failures (each record has its turn, one after the other, unless a save fails), and succeeds only when every record is settled and saved; it fails only for a failed call, a close that waits for the user, or a restart that was denied; a stop counts as taken back only once its service was found running |
| `Restoring.TakeBack` | src/cli/cli.cpp:950-961 | After one rollback the machine is backed both by what is on disk and by what is in memory, whether or not the save succeeds; it fails only for a failed call or for a record that cannot be settled |
| `Restoring.VerifyServices` | src/cli/cli.cpp:982-1000 | Checking the restarted services has no effect of its own; when it succeeds each of them runs, and when it does not a call failed or one of them was found off or to be another one |
| `Restoring.NobodyAwaits` | src/core/optimization/optimization.cpp:405-411 | A complete rollback of records that evolved from the stored ones leaves no close whose delivery is unknown |
| `Evolution.FilesEvolveSave` | src/cli/cli.cpp:956-961 | Saving evolved records keeps the rule that what the file holds only moves towards its end |
| `Acknowledging.AcknowledgeRecovery` | src/cli/cli.cpp:1027-1103 | No effect on any process or service; in every world the file holds the records as they were, or all of them acknowledged, or is gone; refuses, changing nothing, while a reversible action is unrestored or a one-shot one unassessed; with exit 0 there was an uncertain close, the file is gone and the machine is as it was; otherwise it ends the session unless a call fails |
| `Acknowledging.MayAcknowledge` | src/cli/cli.cpp:1039-1067 | The checks pass exactly when nothing is unrestored and some close is uncertain |
| `Acknowledging.AcknowledgeAll` | src/cli/cli.cpp:1069-1076 | Each uncertain close becomes Completed, nothing else changes, and the records are then all settled |
| `SessionManager.Persist` | src/app/session_manager.cpp:490-493 | A save that succeeds makes the file the given session, one that fails leaves the old file; either way the run stays recoverable |
| `SessionManager.Complete` | src/app/session_manager.cpp:574-594 | The report is on disk before the session file is removed; if either step fails the file stays |
| `SessionManager.RemoveKeepsFine` | src/app/session_manager.cpp:583-593 | The removal of the file is rightful: the stored report of that session is complete and its counts sum to the number of actions |
| `Machines.Machine.Save` | src/platform/windows/windows_utils.cpp:274-307 | The atomic write as assumed: the whole new file or the old one |
| `Completion.TallyIsTotal` | src/app/session_manager.cpp:618-636 | The seven per-state counts sum to the number of actions |
| `Completion.CompleteMeansNothingPending` | src/app/session_manager.cpp:625-645 | A rollback judged complete leaves no planned and no uncertain action |
| `Completion.Assess` | src/app/session_manager.cpp:618-645 | The counting loop computes the declarative counts and completeness |
| `Executor.Execute` | src/core/optimization/optimization.cpp:298-393 | No lost effect: an action that ends Failed or Rejected did nothing at all; Applied did something; nothing is done twice. No idle excuse: for an action that validates, a priority is not changed only if a call failed or the process was gone; a close fails only if a call failed, the process was gone or in front, or no listed window was shown; a stop is not applied only if it was denied for a cause the machine answered. A close Completed although its target lives went through all windows listed and was delivered to every one whose turn it was. A stop was made only with leave. The restore value of an applied priority change is the priority the process had before, and never 0 |
| `Executor.ExecutePriority` | src/core/optimization/optimization.cpp:315-328 | Applied means the process, if it still lives, has the target priority; otherwise a call failed or the process was gone |
| `Executor.ExecuteClose` | src/core/optimization/optimization.cpp:330-355 | A close that may have reached a window is Uncertain or Completed, never Failed; Failed means that nothing was sent, and a call failed, the process was gone or in front, or none of its windows was shown; Uncertain means that a message was not delivered or the time was up; Completed means that all windows were gone through and every message was delivered, or the process is gone |
| `Executor.ExecuteStop` | src/core/optimization/optimization.cpp:357-386 | Applied means the stop was accepted; Failed or Rejected means it never was; whatever is not Applied was denied for a cause; an accepted stop had leave by the trusted configuration and a complete inventory |
| `Executor.Rollback` | src/core/optimization/optimization.cpp:395-455 | Success means nothing is left to undo at the target; failure leaves Uncertain with the restore value intact, and has its reason: no restore payload, a failed call, or a denied restart; closes are never sent again; a record whose restore value is 0 always fails |
| `Executor.RollbackStop` | src/core/optimization/optimization.cpp:412-441 | The helper is asked to start exactly this service; it is called restored only when it is Running and was found so; failure means that the restart was denied: the protocol cannot carry the request, a call failed, or the machine answered with a reason (another identity, the policy, an unknown inventory, a state that cannot come up, the time was up) |
| `ProcessActionApi.SetPriority` | src/platform/windows/process_action_api.cpp:67-92 | A failed change changed nothing, and happens only when a call fails or the process is gone; a successful one acts on the identified process only and reports the priority it had before |
| `ProcessActionApi.RestorePriority` | src/platform/windows/process_action_api.cpp:94-123 | Success means that the original process is gone or has the given priority; failure means that a call failed; no other process is touched |
| `ProcessActionApi.RequestGracefulClose` | src/platform/windows/process_action_api.cpp:125-200 | The windows listed are gone through in order, and each turn has its reason: exactly the windows found shown, with the process not in front, are sent one message each; neither success nor uncertainty means that no message was sent, and then a call failed, the process was gone or in front, or no window was shown; success means that the process is gone, or that messages were sent and all were delivered; uncertainty means a message not delivered or the time up |
| `ProcessActionApi.SilenceHasReason` | src/platform/windows/process_action_api.cpp:155-200 | A round in which no message was sent, and which was not cut off by the time, was halted by the process coming to the front, or found no window shown |
| `ProcessActionApi.VerifyProcessIdentity` | src/platform/windows/process_action_api.cpp:14-38 | A match means the handle has the expected creation time, a mismatch that it has not |
| `ServiceApi.Query` | src/platform/windows/service_api.cpp:306-334 | A service is reported as the manager answered, and one reported Running that belongs to the session still runs when the answer is used |
| `ServiceApi.StopTemporary` | src/platform/windows/service_api.cpp:336-421 | Neither success nor uncertainty means that the stop was never accepted, success or uncertainty that it was; no success means a failed call or a refusal with its reason; an accepted stop went to the service of exactly the expected identity and process, found running, willing and unneeded, and then found so once more |
| `ServiceApi.StartForRestore` | src/platform/windows/service_api.cpp:423-498 | Success means the service is Running, whichever of its states the restore found it in; a failure that is not uncertain started nothing, and every failure has its reason: a failed call, another identity, a state that cannot come up, or the time was up while it did not run; nothing but the service of the expected identity is started, and it never stops anything |
| `ServiceApi.WaitForServiceStateUntil` | src/platform/windows/service_api.cpp:152-168 | Terminates at the deadline; reports success only for a state just seen, and failure only for a failed call or a deadline that has passed |
| `ElevatedHelper.HandleElevatedRequest` | src/app/elevated_action_handler.cpp:37-113 | The status of the answer is true of the service: a request answered Rejected or Failed had no effect, a stop answered Succeeded was accepted, a start answered Succeeded left the service Running. If anything was done, the service queried in this call had exactly the identity token of the request, and for a stop it is in none of the fixed lists, has no blocked keyword, owns no remote session or active capture, and is listed, optimizable, running and willing; for a start the same but for its state. Whatever is not granted has its reason |
| `Refusals.AllowedIsFair` | src/core/policy/service_protection_policy.cpp:34-78 | The policy allows a stop or a start of a verified service exactly if the service is in none of the fixed lists, has no blocked keyword, owns no remote session and no active capture, and is listed and optimizable; whatever the configuration |
| `ElevatedHelper.HelperMain` | src/elevated/main.cpp:68-155 | It acts only on a request with the nonce it was given, and only with leave; any exit before the request is handled has no effect, writes nothing and means a failed call; whatever it writes is the encoding of a valid, truthful answer with the id and nonce of the request; a success is always written, and anything else has its reason |
| `ElevatedHelper.Respond` | src/elevated/main.cpp:113-148 | The configuration is the trusted one and the context that of a sampled, complete inventory; without them the answer is Failed, whatever is answered Failed or Rejected had no effect, and whatever is not granted has its reason |
| `ElevatedHelper.Execute` | src/platform/windows/elevated_helper_client.cpp:37-173 | What is sent is a valid request for exactly this command, service, identity and time-out; if it was not sent nothing happened; success means a valid, truthful answer with the id and nonce of that request; if it is not granted, then the protocol cannot carry it, a nonce of zeros was drawn, a call failed, or the elevated side had a reason; whatever was done had leave |
| `ElevatedHelper.Exchange` | src/platform/windows/elevated_helper_client.cpp:144-173 | Once the request is sent, only a valid answer with its id and nonce counts as success; the codec carries both messages unchanged; an answer that does not grant the request, or does not arrive, has its reason |
| `ElevatedHelper.NameArrives` | src/core/helper/helper_protocol.cpp:23-64 | A service name the protocol accepts reaches the helper byte for byte |
| `ElevatedHelper.SanitizeMessage` | src/app/elevated_action_handler.cpp:13-18 | Control characters become blanks, in place, and nothing else changes |
| `Planner.Create` | src/core/optimization/optimization.cpp:49-178 | The loops produce exactly the proposals of the inventory, in order, and the refusals; what these are is stated by PlanLaws |
| `PlanLaws.PlanIsComplete` | src/core/optimization/optimization.cpp:55-175 | Whatever deserves an action has one in the plan: a known process whose listed target is another priority and which may be raised gets that change; a listed, visible process that is not in front and may be closed gets a close, and a listed one that may be slowed down a change to below normal, if the inventory is complete; a listed service that may be stopped gets a stop |
| `PlanLaws.PlanIsSound` | src/core/optimization/optimization.cpp:55-175 | Every action of the plan serves an entry of the inventory that deserves it |
| `PlanLaws.PlannedChangesChange` | src/core/optimization/optimization.cpp:70-82 | Every planned priority change has a known source and a target that differs from it |
| `PlanLaws.RejectedIsTheRest` | src/core/optimization/optimization.cpp:64-174 | What is listed, not yet as it should be and not planned is refused by name, and nothing else is refused |
| `PlanLaws.AcceptedCloses` | src/core/optimization/optimization.cpp:220-296 | Of closes the validator accepts exactly those of low risk, with a time-out from 100 to 5000, on a complete inventory that has a process of the same pid, creation time and name, visible, not in front, that may be closed |
| `PlanLaws.AcceptedChanges` | src/core/optimization/optimization.cpp:220-296 | Of priority changes it accepts exactly the safe ones to a moderate target, for a process of the same pid, creation time and name that may be raised, or that may be changed otherwise on a complete inventory |
| `PlanLaws.AcceptedStops` | src/core/optimization/optimization.cpp:180-219 | Of stops it accepts exactly the confirmed ones of medium risk, with a time-out from 1000 to 30000, on a complete inventory that has a service of the same name and identity that may be stopped |
| `PlanLaws.MayCloseExactly` | src/core/policy/protection_policy.cpp:5-66 | A process may be closed exactly if it is listed for it, is not untouchable, and its rule in the configuration leaves it to optimization; whatever the configuration |
| `PlanLaws.MayChangeExactly` | src/core/policy/protection_policy.cpp:5-59 | A priority may be raised exactly for a listed development process that nothing always protects, and changed otherwise exactly for a listed process that is not untouchable and left to the configuration |
| `Planner.PlanHasDistinctTargets` | src/core/optimization/optimization.cpp:55-175 | With distinct pids and service names no plan has two actions for one target |
| `Planner.PlannerAndValidatorAgree` | src/core/optimization/optimization.cpp:35-296 | On one complete snapshot a planned close validates, a planned stop validates exactly once confirmed, and a planned priority change validates exactly when its target is safe and its direction is the one the planner assumed |
| `Planner.PriorityAgreement` | src/core/optimization/optimization.cpp:35-45 | The two directions of a priority change agree exactly as stated, although planner and validator compute them independently |
| `Planner.StopAgreement` | src/core/optimization/optimization.cpp:155-213 | A planned stop does not validate without the confirmation, and does with it |
| `Planner.AcceptedTargetsAreFair` | src/core/optimization/optimization.cpp:180-296 | For every configuration, an accepted close or non-raising change never aims at a system, security, workload, unknown or always-protected process, a remote session or an active capture; a raise only at a listed development process |
| `Planner.AcceptedStopsAreFair` | src/core/policy/service_protection_policy.cpp:34-78 | For every configuration, an accepted stop never aims at a service of the fixed lists, a blocked keyword, or a remote session owner, and always at a listed, optimizable, verified one |
| `Planner.UntouchableIsProtected` | src/core/policy/protection_policy.cpp:5-39 | Whatever may not be touched is protected whatever the configuration says |
| `Planner.PlannedTargetsAreSafe` | src/core/optimization/optimization.cpp:263-269 | A planned and validated target priority is one of three values |
| `Policy.BuildRuntimeContext` | src/core/model/types.cpp:224-255 | The two loops compute the declarative sets of remote-session and active-capture pids |
| `Utf8.IsValidUtf8` | src/core/helper/helper_protocol.cpp:23-64 | Accepts exactly the encodings (RFC 3629, sections 3 and 4) of allowed scalar values, with every index in bounds |
| `Utf8.ValidExactly` | src/core/helper/helper_protocol.cpp:23-64 | What the loop computes is the standard: soundness and completeness |
| `Utf8.FirstIsEncoding` | src/core/helper/helper_protocol.cpp:23-64 | An accepted sequence is the one standard encoding of its code point: no overlong form, no surrogate |
| `Utf8.EncodingIsFirst` | src/core/helper/helper_protocol.cpp:23-64 | The encoding of an allowed scalar value is accepted whatever follows it |
| `Wire.RequestDecodesExactly` | src/core/helper/helper_protocol.cpp:248-358 | Bytes decode to a request exactly when it is valid and the bytes are its encoding |
| `Wire.ResponseDecodesExactly` | src/core/helper/helper_protocol.cpp:278-392 | Bytes decode to a response exactly when it is valid and the bytes are its encoding |
| `Wire.DecodeRequest` | src/core/helper/helper_protocol.cpp:334-357 | The strict reader decodes exactly the encodings of valid requests |
| `Wire.DecodeResponse` | src/core/helper/helper_protocol.cpp:359-392 | The strict reader decodes exactly the encodings of valid responses |
| `Wire.EncodeRequest` | src/core/helper/helper_protocol.cpp:295-311 | Encodes every valid request, never hitting the size limit, and no invalid one |
| `Wire.EncodeResponse` | src/core/helper/helper_protocol.cpp:313-332 | Encodes every valid response, never hitting the size limit, and no invalid one |
| `JsonSyntax.AcceptsExactlyObjectTexts` | src/core/config/config.cpp:39-214 | Soundness and completeness: the parser accepts exactly the RFC 8259 object texts, after an optional byte-order mark, with no two members of one object sharing a raw key, nonempty containers at depth at most 63 and empty ones at most 64 |
| `JsonSyntax.JsonSyntaxValidator.ValidateObject` | src/core/config/config.cpp:43-58 | The class terminates on every input and accepts exactly those texts |
| `JsonSyntax.JsonSyntaxValidator.ParseObject` | src/core/config/config.cpp:170-195 | Consumes exactly one object, refusing repeated raw keys |
| `JsonSyntax.JsonSyntaxValidator.ParseMembers` | src/core/config/config.cpp:178-194 | The loop over the members terminates and consumes exactly the rest of an object, with the set of keys seen so far |
| `JsonSyntax.JsonSyntaxValidator.ParseArray` | src/core/config/config.cpp:152-168 | Consumes exactly one array |
| `JsonSyntax.JsonSyntaxValidator.ParseItems` | src/core/config/config.cpp:158-167 | The loop over the items terminates and consumes exactly the rest of an array |
| `JsonSyntax.JsonSyntaxValidator.ParseString` | src/core/config/config.cpp:75-101 | Consumes exactly one string: escapes complete, no raw control characters |
| `JsonSyntax.JsonSyntaxValidator.ParseNumber` | src/core/config/config.cpp:103-144 | Consumes exactly one number of the RFC 8259 grammar |
| `JsonText.FreshKeysMeansDistinct` | src/core/config/config.cpp:170-195 | The running set of seen keys means pairwise distinct keys |
| `JsonScan.FieldFound` | src/app/session_manager.cpp:21-71 | In any rendered object with distinct keys the scanner finds the value of the requested top-level key, whatever the strings and nested values contain |
| `JsonScan.FieldMissing` | src/app/session_manager.cpp:21-71 | A key that is no top-level member is not found, even when strings or nested objects mention it |
| `JsonReader.FieldValueStart` | src/app/session_manager.cpp:21-71 | The index loop stays in bounds and computes the scanner |
| `JsonReader.DelimitedField` | src/app/session_manager.cpp:73-104 | The bracket-counting loop computes the declarative cut |
| `JsonFields.DelimitedReads` | src/app/session_manager.cpp:73-104 | A nested object or array is cut out whole, whatever its strings contain |
| `JsonFields.ObjectsOfItems` | src/app/session_manager.cpp:237-259 | A rendered array of objects is split into exactly its elements |
| `JsonReader.Objects` | src/app/session_manager.cpp:237-259 | The loop computes the declarative split |
| `JsonFields.UnescapeUndoesEscape` | src/platform/windows/windows_utils.cpp:239-260 | Reading an escaped string gives back every byte string |
| `JsonFields.EscapedIsInjective` | src/platform/windows/windows_utils.cpp:239-260 | Different strings are never escaped to the same text |
| `JsonReader.JsonEscape` | src/platform/windows/windows_utils.cpp:239-260 | The appending loop computes the escape |
| `JsonReader.StringField` | src/app/session_manager.cpp:134-174 | The scanner of one string computes the declarative unescape |
| `JsonReader.IntegerField` | src/app/session_manager.cpp:176-193 | Reads exactly the digit runs that fit 64 bits and end at a delimiter |
| `JsonReader.BoolField` | src/app/session_manager.cpp:195-210 | Reads exactly the two literals |
| `JsonFields.IntegerReads` | src/app/session_manager.cpp:176-193 | A printed 64-bit number reads back as itself |
| `SessionText.SessionRoundTrip` | src/app/session_manager.cpp:775-1089 | The loader accepts a printed session exactly when it is storable, and gives back the same session with every field exact |
| `SessionText.ActionRoundTrip` | src/app/session_manager.cpp:990-1085 | One record reads back exactly when it is storable, and then unchanged |
| `SessionText.PointRoundTrip` | src/app/session_manager.cpp:910-934 | The baseline reads back exactly when its coverage counts are consistent, and then unchanged |
| `SessionText.SessionIsObjectText` | src/app/session_manager.cpp:775-835 | Every printed session is accepted by the syntax checker |
| `SessionText.LoadedExactlyWithValidNames` | src/app/session_manager.cpp:385-398 | Records that are otherwise fine are loaded back if and only if their service names are at most 256 bytes without slash, backslash or control bytes |
| `SessionText.LongNameLocksOut` | src/app/session_manager.cpp:385-390 | A service name of 129 accented letters, 258 bytes, is saved and makes the file unreadable to the program that wrote it |
| `SessionLoader.Deserialize` | src/app/session_manager.cpp:837-1089 | The loader as a method, with the validator, the scanners of every field and the loops over them, computes the declarative loader |
| `SessionLoader.LoadActions` | src/app/session_manager.cpp:961-1085 | One bad record refuses the whole file; otherwise all are appended in order |
| `SessionLoader.LoadAction` | src/app/session_manager.cpp:961-1085 | One record, scanned field by field, is what the declarative reader makes of it |
| `SessionLoader.LoadPoint` | src/app/session_manager.cpp:844-958 | The baseline, scanned field by field, is what the declarative reader makes of it |
| `ReportText.SummaryReadsBack` | src/app/session_manager.cpp:400-454 | Each completion report is read back with the right number of actions and the right rollback flag |
| `ReportText.TallyReadsBack` | src/app/session_manager.cpp:618-773 | The seven per-state counts and the verdict in the text of a report read back as those of the session |
| `ReportText.ReportIsOneObject` | src/app/session_manager.cpp:647-773 | Reopening the printed session and appending the findings prints one object |
| `ReportText.ReportIsObjectText` | src/app/session_manager.cpp:606-773 | Every completion report is accepted by the syntax checker |
| `ReportText.ReopenedSession` | src/app/session_manager.cpp:647-650 | Dropping the last newline and brace of a printed session leaves exactly its members |
| `BenchmarkText.SummaryIsObjectText` | src/core/benchmark/benchmark.cpp:102-141 | Every benchmark report is accepted by the syntax checker |
| `BenchmarkText.ComparisonIsObjectText` | src/core/benchmark/benchmark.cpp:206-227 | Every comparison, with its two re-indented reports, is accepted by the syntax checker |
| `BenchmarkText.ComparisonIsOneObject` | src/core/benchmark/benchmark.cpp:206-227 | The pieces of the stream form one object |
| `BenchmarkText.IndentCommutes` | src/core/benchmark/benchmark.cpp:63-74 | Indenting the text of a value is printing the indented value: newlines occur outside strings only |
| `BenchmarkText.IndentKeepsOk` | src/core/benchmark/benchmark.cpp:63-74 | A re-indented value is as well formed as before |
| `BenchmarkText.IndentAfterNewline` | src/core/benchmark/benchmark.cpp:63-74 | The inserting loop terminates, although each round lengthens the text, and indents every line |
| `BenchmarkPoints.MakeBenchmarkPoint` | src/app/session_manager.cpp:1098-1252 | On a nonempty window: every stored average is the declarative one, the counts of the samples and their span are those of the window, nothing is divided by zero, the coverage counts pass the gate of the loader, and the top background process has maximal average I/O |
| `BenchmarkPoints.Accumulate` | src/app/session_manager.cpp:1132-1211 | The single pass equals sums and counts taken one by one over the window |
| `BenchmarkPoints.AddProcesses` | src/app/session_manager.cpp:1182-1211 | The loop over processes adds up development use and, per lower-case name, background I/O |
| `BenchmarkPoints.WorstOfSample` | src/app/session_manager.cpp:1139-1162 | The loop over disks finds the worst values, overall and per medium |
| `BenchmarkPoints.FindTopBackground` | src/app/session_manager.cpp:1242-1251 | No name has more background I/O on average than the one reported, which is the first in name order of those that have as much |
| `BenchmarkPoints.CoverageIsOrdered` | src/app/session_manager.cpp:910-934 | Protection samples are at most process samples and at most TCP samples, and both at most all samples |
| `Windows.CountIsCardinality` | src/core/diagnosis/diagnosis_engine.cpp:57-67 | A running count is the size of the set of snapshots that answer yes |
| `Windows.WorstIsMaximum` | src/app/session_manager.cpp:1139-1162 | The folded maximum bounds every disk and occurs, or is zero |
| `Diagnosis.Evaluate` | src/core/diagnosis/diagnosis_engine.cpp:48-500 | The results are the stable sort of the findings, disks in name order, each resting on direct counts over the window; which they are, and how severe, is stated by DiagnosisLaws |
| `DiagnosisLaws.ReportedIsDue` | src/core/diagnosis/diagnosis_engine.cpp:48-500 | The list returned holds a result if and only if it is due, in terms of the sets of matching samples: half of those that can tell match, its counts are the sizes of those sets, its confidence follows from their share, and its severity is high exactly under the condition of its kind: mean CPU at least 97, mean page reads at least three times the limit, memory below half its limit with commitment of nine tenths, mean latency twice the limit, free space at most 0.02 and a quarter of the limit, both impacts of Defender, mean I/O at least three times the limit |
| `DiagnosisLaws.MachineFindings` | src/core/diagnosis/diagnosis_engine.cpp:69-136 | CpuSaturation, MemoryPressure and PagingPressure are each in the list if and only if at least half of all samples show them |
| `DiagnosisLaws.DefenderFinding` | src/core/diagnosis/diagnosis_engine.cpp:292-350 | DefenderImpact is in the list if and only if Defender ran, at least two samples and half of the window are complete, and half of the complete samples show its impact |
| `DiagnosisLaws.DiskFindings` | src/core/diagnosis/diagnosis_engine.cpp:189-278 | For each disk, bottleneck, slow paging and lack of space are each in the list if and only if it was seen (and its space known) in at least two samples and half of the window, and half of those sights match |
| `DiagnosisLaws.ProcessFindings` | src/core/diagnosis/diagnosis_engine.cpp:402-491 | A background or foreground process is in the list if and only if some process is active in that role in half of the samples that can tell |
| `DiagnosisLaws.MatchingIsCardinality` | src/core/diagnosis/diagnosis_engine.cpp:352-400 | The activity of a process is the size of the set of its glimpses that match |
| `Diagnosis.CountMachine` | src/core/diagnosis/diagnosis_engine.cpp:69-97 | The single loop equals separate counts and sums over the window |
| `Diagnosis.CountDisks` | src/core/diagnosis/diagnosis_engine.cpp:136-187 | The nested loop with its map of aggregates equals direct counts per disk over all sights |
| `Diagnosis.CountImpacts` | src/core/diagnosis/diagnosis_engine.cpp:352-400 | The nested loop with its two maps equals direct counts and sums per process identity |
| `Diagnosis.CountDefender` | src/core/diagnosis/diagnosis_engine.cpp:292-320 | The loop equals direct counts over the window |
| `Diagnosis.FindHeaviest` | src/core/diagnosis/diagnosis_engine.cpp:402-475 | The chosen process is sustained and weighs most, the first by pid and creation time among equals, and none is chosen only when none is sustained |
| `Diagnosis.JudgeDisks` | src/core/diagnosis/diagnosis_engine.cpp:189-278 | Each disk is judged once, in the order of the names, from its own counts |
| `Diagnosis.DiskCountIsCardinality` | src/core/diagnosis/diagnosis_engine.cpp:136-187 | A disk count is the size of the set of its sights that answer yes |
| `Diagnosis.EveryResultHasEvidence` | src/core/diagnosis/diagnosis_engine.cpp:48-500 | Everything reported was seen in at least two samples and half the window, and in at least half of those, so nothing reported is of low confidence |
| `Diagnosis.PagingImpliesMemory` | src/core/diagnosis/diagnosis_engine.cpp:69-136 | Whenever PagingPressure is in the list returned, so is MemoryPressure, on no fewer samples |
| `Diagnosis.HddPagingImpliesBottleneck` | src/core/diagnosis/diagnosis_engine.cpp:189-246 | Whenever HddPagingBottleneck on a disk is in the list returned, so is DiskBottleneck on that disk, on no fewer samples |
| `Diagnosis.SortIsStable` | src/core/diagnosis/diagnosis_engine.cpp:493-498 | Same results, most severe first, equals in the order found |
| `Smbios.WalkIsClean` | src/platform/windows/system_hardware.cpp:126-143 | True exactly when a chain of structures, all within the table, leads from the start to the end marker |
| `Smbios.FindStructureTableStart` | src/platform/windows/system_hardware.cpp:147-160 | The least start of BIOS shape from which such a chain leads, else the least start, else none, within the first 256 bytes |
| `Smbios.SummarizeMemory` | src/platform/windows/system_hardware.cpp:164-222 | Never reads past the table, visits exactly the structures of the accepted chain, sums up their memory devices and prints type, speed and capacity as far as known; fails exactly when there is no start, no device, or nothing known |
| `Smbios.LabelIsEmpty` | src/platform/windows/system_hardware.cpp:206-221 | The printed text is empty exactly when no type is named and speed and capacity are 0 |
| `Smbios.CapacityFits` | src/platform/windows/system_hardware.cpp:169-189 | The 64-bit sum of capacities cannot wrap around for a table of up to 2 to the 38th bytes |
| `Smbios.DeviceReadsFit` | src/platform/windows/system_hardware.cpp:177-195 | The two-byte read at offset 0x15 of a structure of length 0x16 is in bounds because another structure follows in the chain |
| `Smbios.FittingIsNotEnough` | src/platform/windows/system_hardware.cpp:177-195 | Without the accepted chain a structure that fits can be one byte too short for that read |
| `Smbios.OneChain` | src/platform/windows/system_hardware.cpp:126-143 | From one start there is only one chain, so both walks visit the same structures |

## Left out

- Printing as a stream: the printers are functions that give the whole text; insertion order into a stream is not modelled, except for the loops of `JsonReader.JsonEscape` and `BenchmarkText.IndentAfterNewline`.
- Floating point: doubles in files are opaque JSON number tokens and aggregation is over real numbers; rounding, 12-digit printing and the parsing of number-like texts that are not JSON tokens are not modelled.
- Entering.EnterCodingMode: the wait between two samples, the console output and the log file are not modelled.
- Diagnosis.Evaluate: of the evidence only the subject and the two counts are kept.
- BenchmarkPoints.MakeBenchmarkPoint: a development working set whose average exceeds 64 bits is stored as an arbitrary number, as its conversion is undefined in C++.
- Smbios.SummarizeMemory: how a speed and a capacity are printed is an input; for tables beyond 2 to the 38th bytes the wrap-around of the capacity sum is not modelled.
- ElevatedHelper.Execute: a stop that takes effect after its client gave up does so between two commands (`Lifetime.Idle`), not during one; creating the pipe, launching, and checking the peer are calls that may fail.
- Machines.Machine: system calls are contracts chosen freely within what is stated above; handles, access rights, error texts and time-outs of the pipe are not modelled.
- The service identity token is an opaque text of sixteen hexadecimal digits; that two services may share one is not modelled.
- Service names are compared exactly by the modelled service manager; Windows ignores case, and configured names are lower-case.
- Configuration loading by regular expressions: rule maps and sets are arbitrary inputs.
- ReportText: class, severity and confidence names are arbitrary words, deltas opaque numbers, and the grouping of protected workloads an input.
- The size limit of files that are read back (16 MiB): a load may fail for any reason, and then nothing is changed.
- Summaries and medians of startup benchmarks: only simple arithmetic.
- The graphical interface, the tray, command-line parsing, logging, language detection, start-up inventory, serial ports: no property of the session depends on them.
