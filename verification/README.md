# Verified model of the supervisor

The supervisor drives a coding agent through a plan. This project models the stateful algorithms
underneath it and proves what they promise over whole runs.

1. **The run state machine.** One record per run, changed by the loop (events, gates, decisions,
   verification, pauses, recovery, injection) and by the daemon (resume, review, orphan recovery),
   saved to disk and lost or kept by crashes. `RunModel` states each operation as a step on values, and
   `IsRun` a run as the worlds that any sequence of operations leads through; `SupervisorLoop` has the
   operations as updates of a mutable record, one field at a time, each proved equal to its step.
   `RunSteps` reduces every operation to elementary steps, so that the theorem files (`RunProgress`,
   `RunPauses`, `RunCompletion`, `RunFinish`, `RunInjections`, `RunBudget`, `RunAttach`, `RunAdmission`,
   `RunEdges`, `RunInterventions`, `RunFaults`, `RunSafety`) speak about every reachable world, in memory and
   on disk. `RunOutcomes`, `RunReports` and `RunIterations` say which world each operation leads to, end to
   end: from the gate's decision (`Gates`) to the record, the log and the instruction handed over.
   `RunWitnesses` has whole runs in which something goes wrong. The checkpoints, the judge, the verifier, git
   and the surface with their faults, and the crashes are free.
2. **The event plane.** Append-only logs folded with an out-of-order guard (`EventFold`), the calls on
   the records in them (`EventPlane`), their refinement of plain maps (`EventRefinement`), and what the
   records show in terms of the calls alone (`EventContents`); the files as their readers see them, where a
   record can be torn (`EventLines`), and what that costs (`EventReadBack`); idempotence
   (`EventIdempotence`), the store and service as loops and appends (`EventStore`), what its queries list
   (`EventQueries`), and the export of one session (`EventExport`).
3. **Quiet windows** of runtime recovery (`QuietWindows`).
4. **The rate limiter** (`RateLimiter`).
5. **The Stop-hook handshake** (`StopHook`) and **the JSONL tail reader** (`JsonlTail` with its rolling
   buffer in `JsonlBuffer`, on the lines of text of `TextLines`).
6. **The sunset trigger** (`Sunset`).

`dafny verify dfyconfig.toml` checks everything.

## Where the code does not do what its comments or documentation say

Each of these is a theorem: an input, or a whole run, on which the promise fails, and exactly when it
holds.

- Recovery is not always followed by an intervention or a pause (comment at
  `supervisor/loop.py:930-938`), and the loop can raise: the readiness probe and the first read of the
  surface, the parsing and recording of text, the judge, the shared notes and git are not guarded.
  `RunSafety.RaisesIff` and `RunSafety.CutShortIsSavedIff` say exactly when, and when RECOVERY_NEEDED or
  VERIFYING is what stays on disk. `RunWitnesses.AFaultLeavesRecoveryOnDisk`,
  `RunWitnesses.UnparsableTextKillsTheSidecar` and `RunWitnesses.AGitFaultLeavesVerificationOnDisk` are
  such runs; `RunSafety.RecoveryCutShortIsPaused` and
  `RunSafety.VerificationCutShortNeedsOrphanRecovery` say what becomes of them.
- An acknowledged review is not on record if git raises in the acknowledgement:
  `RunWitnesses.AnAcknowledgementIsLost`, `RunCompletion.AcknowledgedIsRecordedIff`.
- The loop over a batch goes on after the run has paused or completed, and a later checkpoint of the
  batch can then request a transition outside the table: `RunWitnesses.HaltedBatchCanRaise`,
  `RunFaults.HaltedBatchRaisesIff`.
- A `blocked` checkpoint does not always reach a human (comment at `supervisor/loop.py:255-256`): a
  structured checkpoint with administrative evidence that claims execution is re-injected first, and a
  decision point does not read the status. `Gates.BlockedCanBeReInjected` and `Gates.BlockedCanBranch`
  are the inputs, `Gates.BlockedReachesAHumanIff` the exact condition.
- Orphan recovery pauses without remembering the state it interrupts, so a run caught in ATTACHED, and
  only such a run, resumes past the attach boundary: `RunPauses.OrphanRecoveryDropsTheBoundaryIff`,
  `RunPauses.ResumeRestoresTheStateLeftIff`.
- A review that the worker itself declares never pauses the run in the class `review`:
  `RunPauses.DeclaredReviewIsNeverTaggedReview` says which class it gets.
- A crash loses the charges made since the last save, so a run can see more failures than it is charged
  for: `RunWitnesses.ACrashLosesACharge`, `RunBudget.ChargesAreExactIff`.
- A record of the event plane with a line break beyond ASCII in one of its strings is lost to every
  reader, and one that leaves a fragment like `null` makes every reader raise:
  `EventReadBack.ReadBackIff`, `EventReadBack.FilesRefineStoreIff`, `EventReadBack.NullSummaryPoisons`,
  `EventReadBack.PoisonStopsTheService`.
- Ingest is idempotent per key only while results can be read back and keyless payloads keep off the
  reserved field: `EventIdempotence.SameKeyTwice`, `EventIdempotence.ReservedFieldsCollide`,
  `EventIdempotence.SwallowedIff`.
- A late copy of a waiting record with the timestamp of the resolution reopens the wait:
  `EventRefinement.LateWaitingCopyReopensIff`.
- The tail reader splits a transcript line at any character `splitlines` knows, and strips from the ends
  of what it reads characters that a JSON parser does not skip, so that its lines depend on how the file
  grows: `JsonlTail.LineSeparatorTears`, `JsonlTail.GrowthDecides`, `JsonlTail.ReadsAreExactIff`.
- A transcript line that is no JSON object makes the reader raise after it has moved on, and every other
  event of that read is lost: `JsonlTail.NullLosesTheRead`, `JsonlTail.EventsAreExactIff`.
- The hook writes its ACK before the agent sees anything, so a hook that dies in between leaves an
  instruction that counts as acknowledged and is never delivered: `StopHook.AcknowledgedCanBeLost`,
  `StopHook.AcknowledgedWasDeliveredIff`, `StopHook.WaitWasDeliveredIff`.
- A handed-over instruction whose ACK wait timed out is not withdrawn; the next Stop call still delivers
  it to the agent of the paused run, unless something else is written first:
  `StopHook.TimedOutIsStillDelivered`, `StopHook.NextWriteWithdraws`.

## Model

| member | source | states |
|---|---|---|
| FinishGate.Evaluate | supervisor/gates/finish_gate.py:25-103 | raises iff it has to ask git and git raises what it does not catch; otherwise its loops list exactly the unmet requirements: no failure is listed unless its requirement is unmet, none is missed, and the list is empty iff the acceptance contract holds |
| FinishGate.AcceptsIff | supervisor/gates/finish_gate.py:14-126 | the contract accepts a run iff: all steps are done (in a conditional workflow, the current one), no verification has failed, the tree is clean, no forbidden state holds, each required evidence occurs in an entry (a key-value pair at its start), and the reviewer asked for, or the stronger one, has acknowledged; a reviewer of another name is never satisfied |
| Plan.FindNode | supervisor/domain/models.py:226-233 | the node found is the first with that id, and none is missed |
| Gates.OrdinaryCheckpointsDecide | supervisor/loop.py:255-336 | an ordinary checkpoint on a task: blocked, it goes to a human; a progress claim on administrative evidence is re-injected on the attach boundary unless its text alarms; a finished step is verified; otherwise text of an escalation class goes to a human, the question first, as a safety matter iff the one that counts is dangerous; text that only asks for a go-ahead is continued with guidance; and only then the judge's verdict is taken, kind by kind |
| Gates.FastPathDecides | supervisor/loop.py:177-253 | a structured checkpoint with something to route goes to a human, for safety iff it is about authorization or what it quotes says so, and is re-injected iff an execution-semantic contradiction comes first |
| Gates.QuestionsDecide | supervisor/gates/continue_gate.py:13-69 | without a checkpoint, the question alone decides, and the judge where it is silent |
| Gates.BranchesIff | supervisor/gates/branch_gate.py:8-57 | a decision point branches iff the judge is sure of an option that the node offers, to where the last option of that name leads, and goes to a human otherwise |
| Gates.LegacyPayloadsCannotOptIn | supervisor/protocol/normalizer.py:119-192 | a payload that does not advertise schema version 2 is routed as if it declared none of the structured fields |
| Gates.ValidEscalationsReachAHuman | supervisor/loop.py:177-253 | a declared authorization request, business escalation with blocking inputs, or review always escalates, past contradictions, status checks and judge |
| Gates.BlockedReachesAHumanIff | supervisor/gates/contradictions.py:62-193 | at every node: a blocked checkpoint on a task node escalates iff no execution-semantic contradiction pre-empts it, and is re-injected otherwise; at a decision point it escalates iff the judge's branch is not taken, and branches otherwise |
| Gates.BlockedCanBeReInjected | supervisor/loop.py:201-265 | a blocked checkpoint that is re-injected |
| Gates.BlockedCanBranch | supervisor/gates/branch_gate.py:8-57 | a blocked checkpoint at a decision point that is answered with a branch |
| Gates.UnaskedJudgesDoNotMatter | supervisor/loop.py:161-336 | where the gate does not get as far as asking the judge, its decision is the same for every judge; that is where a judge that raises cannot stop it |
| Gates.AskedJudgesMatter | supervisor/gates/continue_gate.py:58-69 | and where it does, two answers of the judge lead to different decisions |
| RunProgress.DoneIsTheVerifiedPrefix | supervisor/loop.py:563-621 | for linear plans, in every reachable world, the finished nodes are the plan prefix before the current node (or the whole plan), each once, and each was the current node of a successful verification |
| RunProgress.VerificationAdvances | supervisor/domain/models.py:241-251 | a successful verification finishes the current node once and moves to its successor with a fresh attempt count; a failed one only charges both budgets |
| RunPauses.PausesNameTheStateLeft | supervisor/loop.py:634-718 | in every reachable world the pause snapshot is empty in active states and otherwise names the last active state, through any chain of recovery, auto-intervention and pause; only orphan recovery leaves it empty |
| RunPauses.ResumeRestoresTheStateLeftIff | supervisor/daemon/server.py:614-668 | in every run, with orphan recoveries anywhere, resuming a paused record restores the state left iff it was not left in ATTACHED with an empty snapshot; the replayed resume gives the same record, and a restored boundary has a fresh re-inject count |
| RunPauses.OrphanRecoveryDropsTheBoundaryIff | supervisor/daemon/server.py:231-299 | of every state an orphan can be caught in: resume after orphan recovery restores the state left iff it was not ATTACHED |
| RunPauses.FinishedRunsStayFinished | supervisor/domain/state_machine.py:16-111 | once a run is recorded as completed, failed or aborted, no loop or daemon operation and no crash ever changes that |
| RunPauses.DeclaredReviewIsNeverTaggedReview | supervisor/loop.py:722-745 | a review declared on a task node, whatever else is declared and however its text is classified, pauses the run in the class safety iff authorization is required, or denied while text or question is dangerous, and business otherwise |
| RunFinish.CompletionIsAlwaysAccepted | supervisor/loop.py:542-585 | in every run, the step into COMPLETED is a checkpoint or an acknowledged review, and the finish gate accepts the whole record the step leaves with the git status it saw: steps, verification, clean tree, forbidden states, evidence and review |
| RunCompletion.CompletedRunsEarnedIt | supervisor/daemon/server.py:752-766 | over every run of a linear plan, long after completion: steps, verification and review of the contract stay met; with all steps and verification required every node is done and verified and the last verification is ok, not pending; no review is recorded that was not acknowledged |
| RunCompletion.AcknowledgedIsRecordedIff | supervisor/daemon/server.py:748-764 | in every run, a review that the session log shows as acknowledged is on record iff git did not raise in at least one of its acknowledgements |
| RunWitnesses.AnAcknowledgementIsLost | supervisor/daemon/server.py:748-764 | a run whose log shows a review acknowledged that the record does not have |
| RunInjections.DirectInstructionsNeverRepeat | supervisor/loop.py:1340-1412 | the direct instructions of a linear run carry strictly increasing (node, attempt) pairs over any crashes and resumes, so no pair is ever sent twice |
| RunBudget.ChargesCountFailures | supervisor/loop.py:446-493 | in every run the current attempt is at most the global budget used, and that plus what crashes lost is the number of failures |
| RunBudget.ChargesAreExactIff | supervisor/loop.py:446-493 | the global budget used is the number of failures iff every crash found the charge saved |
| RunWitnesses.ACrashLosesACharge | supervisor/loop.py:1390-1413 | a run whose failed verification is charged in memory, lost to a crash before the end of the batch, and not charged on disk |
| RunBudget.VerificationSpends | supervisor/loop.py:586-621 | every verification that leaves the run active decreases remaining budget plus remaining nodes by one; one that raises has the whole plan done and leaves the budgets alone |
| RunBudget.RetrySpends | supervisor/loop.py:471-493 | so does every retry decision |
| RunBudget.FailuresAreBounded | supervisor/loop.py:446-621 | a linear run of n nodes sees at most min(G, n * (P - 1) + 1) failures |
| RunAttach.AttachEndsThrough | supervisor/loop.py:292-336 | in every run over task nodes, a step that leaves the attach phase is a checkpoint that is admitted and accepted then and shows execution or claims no progress, or an orphan recovery of a run in ATTACHED, or an operation that may plan an intervention, with a clear probe and a surface that takes it |
| RunAttach.OnlyWorkEndsTheAttachPhase | supervisor/loop.py:1160-1240 | without the last two, a run past the attach phase got there through such a checkpoint, taken up while the run was still in that phase, however often it was paused, crashed and resumed |
| RunAttach.ReInjectsAreCapped | supervisor/loop.py:446-469 | in every run, a run waiting on the attach boundary has been re-injected at most MAX_RE_INJECTS times |
| RunAdmission.OldReportsChangeNothing | supervisor/loop.py:1160-1183 | in every run, a checkpoint of another run, one whose number is positive and at most the last one taken up, unless it is 1 or at least 100 behind, and one equal to the last in status, node, summary and number change nothing |
| RunAdmission.ReportsAreRecordedIff | supervisor/loop.py:1160-1256 | in every run, a checkpoint is taken up iff it is of this run, not old, and about the current node (or, on an observation-only surface, about none that is done): then its number and, if its text can be recorded, its content are the record's; any other leaves both as they were |
| RunAdmission.NumbersIncrease | supervisor/loop.py:1164-1171 | in every run, while a sidecar lives and the agent does not start to count again, the numbers of the checkpoints taken up strictly increase |
| RunEdges.NodesFollowEdges | supervisor/loop.py:494-621 | in every run of a well-formed specification, linear or conditional, the node changes only by a checkpoint and only along an edge: from a task that this checkpoint verified to its successor, or from a decision point to where the option leads that the judge selected with confidence; otherwise it stays or is read back from disk |
| RunEdges.NodesAreReached | supervisor/domain/models.py:241-251 | in every world of a run, there is a way from the first node to the current one along these edges, in memory and on disk |
| RunInterventions.AutoCountIsLimited | supervisor/interventions.py:13-28 | in every world of a run, the counter of auto-interventions is at most the configured limit |
| RunInterventions.InterventionsAreBounded | supervisor/loop.py:768-826 | in every run, from one progress checkpoint taken up or resume of a paused run to the next, crashes included, the loop intervenes at most as often as the limit says |
| RunReports.AlarmingTextPauses | supervisor/gates/continue_gate.py:37-56 | in every run, an ordinary report on a task under way with text of an escalation class pauses the run where it is, whatever the judge would say, in the class safety iff the text is dangerous, and no intervention takes it over |
| RunReports.EscalationLeads | supervisor/loop.py:510-745 | a decision for a human pauses the run in the class its reason has; with a recoverable reason, the loop takes it over iff an intervention is planned, the surface is clear and the text is sent |
| RunReports.ContinueLeads | supervisor/loop.py:1339-1388 | a go-ahead leaves node, attempt and budgets alone; guidance waits for the end of the batch, and otherwise the agent is told iff node or attempt is new to it |
| RunReports.RetryLeads | supervisor/loop.py:470-493 | a retry is charged to both budgets; it is the next attempt, with a new instruction, while both last, and a recovery pause otherwise |
| RunReports.ReInjectLeads | supervisor/loop.py:446-469 | a re-inject repeats the instruction on the attach boundary, does nothing elsewhere, and the fourth in a row pauses the run |
| RunReports.BranchIsTaken | supervisor/loop.py:494-509 | at a decision point whose confident answer names an option, the run goes to where that option leads, with attempt 0 and in RUNNING, unless the handover of the instruction ends the sidecar |
| RunReports.PassedVerificationLeads | supervisor/loop.py:563-605 | a passed verification finishes the step once and moves the run along the edge to the next, with attempt 0 and in RUNNING, and the agent is told |
| RunReports.LastVerificationLeads | supervisor/loop.py:569-585 | where no edge leads on, a passed verification completes the run iff the contract accepts it, pauses it for a review otherwise, and ends the sidecar in VERIFYING iff git raises |
| RunReports.FailedVerificationLeads | supervisor/loop.py:600-621 | a failed verification is charged like a retry, and leads to the next attempt iff both budgets last |
| RunReports.MismatchLeads | supervisor/loop.py:1210-1240 | a new report about another node is counted and saved, and nothing else, until the fifth in a row starts recovery |
| RunReports.StalledLeads | supervisor/loop.py:1185-1206 | an observation-only surface that still reports a finished node ends the sidecar with the run paused for recovery |
| RunReports.FaultsLead | supervisor/loop.py:1256-1270 | a report whose text cannot be recorded, or over which the judge raises, ends the sidecar with the record saved as far as it got |
| RunReports.HaltedReportLeads | supervisor/loop.py:1160-1270 | a report that a batch takes up after the run has halted is put on record, and nothing follows |
| RunOutcomes.RecoveryEnds | supervisor/loop.py:1222-1240 | recovery ends in RUNNING iff an intervention is planned, the surface is clear and the text is sent; in RECOVERY_NEEDED iff the probe raises; and otherwise saved in a pause that remembers where the run worked |
| RunOutcomes.HandOverEnds | supervisor/loop.py:1481-1694 | what handing over an instruction does to record, disk and log, for every way it can go: the pair told last is saved before anything is sent, and only what fails is recovered from or pauses the run |
| RunIterations.BootLeads | supervisor/loop.py:930-1006 | where a booting sidecar gets: a recovery cut short is paused, a fresh run is attached, saved and handed over, any other is polled |
| RunIterations.EndBatchLeads | supervisor/loop.py:1390-1413 | guidance is sent at the end of a batch iff the batch was not cut short and node and attempt are still the same; then the record is saved |
| RunIterations.RuntimeRetryLeads | supervisor/loop.py:1099-1118 | a retry by the runtime hands over once more |
| RunIterations.DeliveryTimeoutLeads | supervisor/loop.py:1016-1042 | a delivery that times out starts recovery, and if it works, waiting starts anew from the last report |
| RunIterations.IdleTimeoutLeads | supervisor/loop.py:1131-1153 | so does silence; away from the attach boundary, the state left is GATING |
| RunIterations.EventLeads | supervisor/loop.py:114-159 | what each event does to question, checkpoint and state |
| RunIterations.PausesIff | supervisor/loop.py:634-686 | a pause succeeds iff its class is known and the run is not over, and what is left behind where it raises |
| RunIterations.RecoversIff | supervisor/loop.py:688-720 | recovery is entered iff it is tagged so and the run has been handed over and works |
| RunIterations.ResumeLeads | supervisor/daemon/server.py:614-668 | a paused record resumes on the attach boundary iff it was paused there, with nothing pending and nothing counted |
| RunIterations.OrphanLeads | supervisor/daemon/server.py:231-299 | orphan recovery pauses exactly the records in which a sidecar was at work |
| RunIterations.AckLeads | supervisor/daemon/server.py:683-768 | an acknowledgement is logged and recorded, and completes the run iff the contract then accepts it and it is not over |
| RunFaults.CheckpointIsSafe | supervisor/loop.py:1160-1388 | from ATTACHED, RUNNING or GATING, one checkpoint raises exactly where a readiness probe, the record of its text, the judge, the shared notes or the finish gate's git call faults on its way, never for a transition outside the table, an unsupported decision, an unknown node or an untagged pause; it rests in ATTACHED, GATING, RUNNING, PAUSED_FOR_HUMAN or COMPLETED, in RECOVERY_NEEDED iff the probe faulted there, and in VERIFYING iff git did |
| RunFaults.HaltedBatchRaisesIff | supervisor/loop.py:1283-1288 | a checkpoint processed after the run has halted raises iff it is the mismatch that reaches the limit, stalls a finished run, or cannot be recorded; the state stays in each case |
| RunWitnesses.HaltedBatchCanRaise | supervisor/loop.py:1213-1240 | a whole run: a blocked checkpoint and then five foreign ones in one batch, the last of which raises |
| RunSafety.RunIsSteady | supervisor/domain/state_machine.py:16-111 | every world of a run of a well-formed specification rests, in memory and on disk, in a state the loop can go on from, or holds a recovery cut short, which only a dead or booting sidecar does, or a verification cut short, which only a dead one does; FAILED and ABORTED are never entered |
| RunSafety.RaisesIff | supervisor/loop.py:902-1424 | in every world of a run, an iteration that can happen next raises iff something it calls unguarded does on its way (probe, first read, parsing or recording of text, judge, notes, git), or it is a halted batch that raises; and with which exception |
| RunSafety.CalmOpsNeverRaise | supervisor/loop.py:902-1424 | where none of these raises, only a halted batch does |
| RunSafety.CutShortIsSavedIff | supervisor/loop.py:882-891 | in every run, an iteration leaves RECOVERY_NEEDED on disk iff a probe raised after recovery was entered, and VERIFYING iff git raised in the finish gate after the last node had passed; nothing else puts them there |
| RunSafety.RecoveryCutShortIsPaused | supervisor/loop.py:930-954 | in every run, resuming and booting such a record pauses it for a human, saved, with the state left in its snapshot |
| RunSafety.VerificationCutShortNeedsOrphanRecovery | supervisor/daemon/server.py:231-299 | in every run, a record left in VERIFYING cannot be resumed; an acknowledged review may complete it, and otherwise only an orphan recovery moves it, after which it resumes in RUNNING with the same nodes done |
| RunWitnesses.AFaultLeavesRecoveryOnDisk | supervisor/loop.py:768-790 | a run whose readiness probe raises in mid-recovery |
| RunWitnesses.UnparsableTextKillsTheSidecar | supervisor/runtime_recovery.py:171-181 | a run over a surface that never raises, ended by a date that cannot be parsed |
| RunWitnesses.AGitFaultLeavesVerificationOnDisk | supervisor/gates/finish_gate.py:52-66 | a run whose only node passes, and whose finish gate raises |
| SupervisorLoop.SupervisorState.TransitionTopState | supervisor/domain/state_machine.py:94-111 | the guarded assignment of the top state, with the record of the last active state |
| SupervisorLoop.SupervisorState.PauseForHuman | supervisor/loop.py:634-686 | the in-place pause is the step on values, including the partial updates before a raise |
| SupervisorLoop.SupervisorState.EnterRecovery | supervisor/loop.py:688-720 | likewise for entering recovery |
| SupervisorLoop.SupervisorState.HandleEvent | supervisor/loop.py:114-159 | likewise for events |
| SupervisorLoop.SupervisorState.ApplyDecision | supervisor/loop.py:422-561 | likewise for decisions; what each decision leads to is in RunReports |
| SupervisorLoop.SupervisorState.ApplyVerification | supervisor/loop.py:563-621 | likewise for verifications |
| SupervisorLoop.SupervisorState.ResumePaused | supervisor/daemon/server.py:614-653 | likewise for the resume of a paused run |
| SupervisorLoop.SupervisorState.ReplayResume | supervisor/history.py:231-257 | the separately written replay of a resume is the same step |
| SupervisorLoop.SupervisorState.RecoverOrphan | supervisor/daemon/server.py:231-299 | likewise for orphan recovery |
| SupervisorLoop.SupervisorState.AckReview | supervisor/daemon/server.py:683-768 | likewise for an acknowledged review |
| SupervisorLoop.Sidecar.AttemptAuto | supervisor/loop.py:768-818 | the auto-intervention, with its plan from supervisor/interventions.py, is the step on worlds |
| SupervisorLoop.Sidecar.InjectViaHook | supervisor/loop.py:1481-1621 | the hook handoff, for every outcome of the wait, is the step on worlds |
| SupervisorLoop.Sidecar.InjectOrPause | supervisor/loop.py:1623-1694 | the injection with its recovery paths is the step on worlds |
| SupervisorLoop.Sidecar.ProcessCheckpoint | supervisor/loop.py:1160-1388 | the body of the batch loop is the step on worlds; which checkpoints it takes up is in RunAdmission |
| SupervisorLoop.Sidecar.Boot | supervisor/loop.py:930-1006 | the start of the sidecar is the step on worlds |
| SupervisorLoop.Sidecar.EndBatch | supervisor/loop.py:1390-1413 | the end of a batch, with the deferred instruction, is the step on worlds |
| SupervisorLoop.Sidecar.DeliveryTimeout | supervisor/loop.py:1016-1042 | the delivery timeout is the step on worlds |
| SupervisorLoop.Sidecar.IdleTimeout | supervisor/loop.py:1131-1153 | the idle timeout is the step on worlds |
| EventFold.LatestIsTheWinner | supervisor/event_plane/store.py:217-260 | the guarded fold returns a record iff it has the greatest (timestamp, append position) of its id, and nothing iff the id never occurs |
| EventFold.FoldConverges | supervisor/event_plane/store.py:217-235 | any two orders of the same records, with any repetitions, give the same latest record if equal timestamps mean equal records |
| EventFold.StaleAppendIsInvisible | supervisor/event_plane/store.py:217-235 | an append older than the current record of its id changes no query |
| EventFold.FreshAppendTakesOver | supervisor/event_plane/store.py:64-93 | an append at least as recent as the log takes over its id and no other |
| EventFold.UnguardedAgrees | supervisor/history.py:111-138 | of one id's records: the unguarded fold agrees with the guarded one if the timestamps never decrease; with distinct timestamps, iff the last append is the newest |
| EventExport.FilterThenFoldIff | supervisor/history.py:111-138 | picking a session's records before folding equals folding first, iff no id with a record in the session has its last record outside |
| EventExport.FilesExportIff | supervisor/history.py:97-146 | after every sound sequence of calls, the exports of all sessions list exactly the current requests, waits and items of the abstract store, once each, and its results in order, iff every call that appended is readable |
| EventExport.FilesExportIsClosed | supervisor/history.py:97-146 | after every sequence of calls, torn records or not, every item and result that an export lists refers to a request that it lists |
| EventExport.TornRequestLeavesItsWait | supervisor/history.py:97-146 | but a wait can be listed whose request is torn and missing |
| EventExport.ExportIsClosed | supervisor/history.py:97-146 | of the records: whatever an export lists, waits included, refers to a request that it lists |
| EventExport.ExportSession | supervisor/history.py:97-146 | the loops over the three files compute the export, or raise on a fragment that is no object |
| EventRefinement.CallRefines | supervisor/event_plane/ingest.py:71-277 | on the records: each register, ingest, ack and wake call is the corresponding update of the maps, with the same response |
| EventContents.RegistrationsStay | supervisor/event_plane/ingest.py:71-115 | over every sequence of calls, an accepted registration's request and wait show what it asked for from then on: session, run, provider, target, policy, the kind of wait, the way to resume and the deadline |
| EventContents.RequestsAreRegistered | supervisor/event_plane/store.py:143-159 | and there is no request without such a registration |
| EventContents.ResultsStay | supervisor/event_plane/ingest.py:190-244 | over every sequence of calls, an accepted result and its mailbox item show from then on what was reported, under the session of the registration and its run unless the call names one, and the request is complete |
| EventContents.ItemsAreIngested | supervisor/event_plane/ingest.py:190-213 | and there is no mailbox item without an accepted result |
| EventContents.CompletedIsIngested | supervisor/event_plane/ingest.py:234-240 | nor a completed request |
| EventContents.IngestAnswers | supervisor/event_plane/ingest.py:132-190 | a result is rejected iff its kind is unknown or its provider is another than the one asked, and is a repeat iff its key is known; it is answered with the session of the registration |
| EventContents.UnregisteredIsRejected | supervisor/event_plane/ingest.py:132-134 | a result for a request that was never registered is rejected |
| EventContents.WakeAnswers | supervisor/event_plane/wake_policy.py:59-94 | an item wakes the worker iff its request blocks the session of a run that is paused or recovering, is held back iff that run is busy, is only recorded iff advisory, and goes to the operator otherwise; the item shows the decision |
| EventContents.AckAnswers | supervisor/event_plane/ingest.py:263-277 | an acknowledgement is accepted iff there is such an item and the status is one to set, which the item then has |
| EventReadBack.StepAgrees | supervisor/event_plane/store.py:176-192 | on the files: unless reading raises, a call that appends nothing or is readable does to what can be read what it does to the records, with the same response |
| EventReadBack.ReadBackIff | supervisor/event_plane/store.py:176-192 | over every sequence of calls, the files show exactly the records written iff no call that appends has U+0085, U+2028 or U+2029 in its strings |
| EventReadBack.FilesRefineStoreIff | supervisor/event_plane/store.py:64-192 | over every sequence of calls, what the readers of the files fold is the abstract store iff every call that appends is readable; then it is consistent, and no reader raises |
| EventReadBack.NullSummaryPoisons | supervisor/event_plane/ingest.py:181-228 | after the ingest of a summary with `null` between two line separators, reading the tasks and the mailbox raises |
| EventReadBack.PoisonStopsTheService | supervisor/event_plane/store.py:64-93 | from then on, over every sequence of calls, every ingest, wake decision and valid acknowledgement fails and changes nothing |
| EventRefinement.PlaneRefinesStore | supervisor/event_plane/store.py:64-159 | over every sequence of calls the folded records are the abstract store; every request has exactly one wait, open iff the request is pending; everything carries its request's session; the unguarded folds agree |
| EventReadBack.FilesRewritesDoNotInterfere | supervisor/daemon/server.py:1284-1288 | acknowledgements and wake decisions, each a rewrite of the whole item, never overwrite each other's field in the files, over every sequence of readable calls |
| EventRefinement.LateWaitingCopyReopensIff | supervisor/event_plane/store.py:238-260 | a late copy of a waiting record reopens a resolved wait iff the wait was not resolved strictly after it was entered; otherwise it changes no query |
| EventIdempotence.RepeatsChangeNothing | supervisor/event_plane/ingest.py:132-190 | once a keyed call is answered with a result that can be read back, every later valid call with the same request and key gets the same ids and changes no file, whatever happened in between |
| EventIdempotence.OneResultPerKey | supervisor/event_plane/ingest.py:132-244 | over every sequence of calls whose keyless payloads avoid the reserved key field, at most one result per request and key can ever be read |
| EventIdempotence.SwallowedIff | supervisor/event_plane/ingest.py:160-213 | over every sequence of calls, a valid keyed call appends nothing iff an earlier valid call on the request had the key, or was keyless with the key in the reserved field, and its result can be read back |
| EventIdempotence.ReservedFieldsCollide | supervisor/event_plane/ingest.py:160-213 | a keyless result whose payload carries the reserved field swallows the first keyed call |
| EventIdempotence.TornResultsAreForgotten | supervisor/event_plane/ingest.py:160-228 | after a keyed call whose result is torn, a repeat that is valid appends again |
| EventIdempotence.SameKeyTwice | supervisor/event_plane/ingest.py:160-228 | three calls from empty files, the last two the same keyed call, each answered with a new result and a new item |
| EventStore.Fold | supervisor/event_plane/store.py:95-159 | the dictionary loop of the listing queries is the guarded fold, in order of first appearance |
| EventStore.IterRecords | supervisor/event_plane/store.py:179-192 | the loop over the lines of a file yields the records read, or raises on a fragment that is a value but no object |
| EventStore.EventPlaneStore.ListOpenWaits | supervisor/event_plane/store.py:95-122 | the open waits, or those past their deadline, of the folded log; raises iff reading the waits does |
| EventStore.EventPlaneStore.ListMailboxItems | supervisor/event_plane/store.py:124-141 | the items of a session, by status, of the folded log |
| EventStore.EventPlaneStore.ListRequestsBySession | supervisor/event_plane/store.py:143-159 | the requests of a session |
| EventQueries.WaitsAreListed | supervisor/event_plane/store.py:95-122 | the waits listed are exactly the current ones that are open, or of those the ones whose deadline is set and has passed, once each |
| EventQueries.ItemsAreListed | supervisor/event_plane/store.py:124-141 | the items listed are exactly the current ones of the session, with the status if one is asked for, once each |
| EventQueries.RequestsAreListed | supervisor/event_plane/store.py:143-159 | the requests listed are exactly the current ones of the session, once each, as long as no request changes its session |
| EventStore.EventPlaneStore.Summarize | supervisor/event_plane/surface.py:15-60 | the counts shown for a session, and the first of its most recently created items; raises iff reading any of the three files does |
| EventStore.FilesSummaryIsExact | supervisor/event_plane/surface.py:15-60 | after any sound sequence of calls of which those that append are readable, these counts are the cardinalities of the abstract store |
| EventStore.EventPlaneIngest.RegisterRequest | supervisor/event_plane/ingest.py:71-115 | the appends of a registration are the step on the logs |
| EventStore.EventPlaneIngest.LatestWaitForRequest | supervisor/event_plane/ingest.py:283-296 | the service's own unguarded loop finds the most recently entered wait of the request |
| EventStore.EventPlaneIngest.IngestResult | supervisor/event_plane/ingest.py:121-244 | the appends of an ingest are the step on the logs |
| EventStore.EventPlaneIngest.AckMailboxItem | supervisor/event_plane/ingest.py:263-277 | the acknowledgement is the step on the logs |
| EventStore.EventPlaneIngest.ApplyWakePolicy | supervisor/daemon/server.py:1253-1288 | the wake decision, as supervisor/event_plane/wake_policy.py makes it, is the step on the logs |
| QuietWindows.NextAllowedRecoveryAt | supervisor/runtime_recovery.py:146-164 | everything skipped is quiet; if any instant is allowed at all, n + 1 rounds suffice for n windows, and the result is the least allowed instant at or after the candidate, less than a day away |
| QuietWindows.WindowEndIsNextEnd | supervisor/runtime_recovery.py:226-232 | the computed end is the next instant, within a day, at which the local time is the window's end |
| QuietWindows.AllowedIffSomethingIsLeft | supervisor/runtime_recovery.py:146-164 | a least allowed instant exists iff the windows leave something of the day that starts at the candidate |
| QuietWindows.LeastAllowedIsMonotone | supervisor/runtime_recovery.py:146-164 | the answer is idempotent, monotone in the candidate, and the same for every candidate up to it |
| QuietWindows.EveryRoundIsNeeded | supervisor/runtime_recovery.py:149-163 | for each n there are n windows on which the first n - 1 rounds all end at a quiet instant and round n at an allowed one |
| RateLimiter.Limiter.Check | supervisor/boundary/rate_limit.py:35-52 | admits iff the limit is positive and fewer than N of the client's past admissions lie in [now - 60, now], whatever was pruned or swept before; and no bucket outlives its client's last admission by two windows |
| RateLimiter.NoWindowOverflows | supervisor/boundary/rate_limit.py:35-52 | no closed sixty-second window, wherever it starts, ever holds more than N admissions of a client |
| RateLimiter.ClientsAreIndependent | supervisor/boundary/rate_limit.py:44-52 | what a client is admitted is what it would be admitted alone |
| RateLimiter.SweepIsUnobservable | supervisor/boundary/rate_limit.py:54-64 | dropping stale buckets loses nothing that the rule could still count |
| RateLimiter.PrunedBucketCounts | supervisor/boundary/rate_limit.py:47-49 | the length of a pruned bucket is the count over the full history |
| StopHook.DeliveredOnceInOrder | supervisor/hook.py:77-109 | over any interleaving of writes, Stop calls, Stop calls that die before the hand-over, polls and detectable damage, the pairs of id and text that Stop calls return are a duplicate-free subsequence of what was written, in order, and nothing is acknowledged that no ACK was written for |
| StopHook.DeliveredUnlessLost | supervisor/hook.py:263-283 | over any interleaving, an instruction that an ACK was written for was delivered or lost, never both, and lost iff a hook died on it |
| StopHook.AcknowledgedWasDeliveredIff | supervisor/hook.py:263-283 | what the loop recorded as acknowledged was delivered iff no hook died on it between ACK and hand-over |
| StopHook.AcknowledgedCanBeLost | supervisor/app.py:2455-2467 | four steps to an instruction that is acknowledged and never delivered |
| StopHook.StopDeliversIff | supervisor/hook.py:240-288 | a Stop call that completes delivers iff the pending file is intact and holds an instruction that no ACK was written for, and then it delivers that one |
| StopHook.StopReplies | supervisor/hook.py:240-288 | at any point of any interleaving, a Stop call returns a nonempty id iff the pending file is intact and no ACK was written for it; the exit code is then 2 and the text is the content of the newest instruction written, which has that id; otherwise the exit code is 2 iff a run is active |
| StopHook.PollSeesTheLatest | supervisor/adapters/jsonl_observer.py:148-156 | a poll says yes iff the id is that of the latest ACK, whether or not its hook lived to deliver |
| StopHook.LostAckRepeatsIff | supervisor/hook.py:263-283 | once the ACK file is lost, the next Stop call repeats a delivery iff the pending file is intact and its instruction was delivered before |
| StopHook.WaitSucceedsIff | supervisor/loop.py:1539-1577 | while the loop can poll, its wait succeeds iff a Stop-hook call writes an ACK before the deadline |
| StopHook.WaitWasDeliveredIff | supervisor/loop.py:1539-1577 | under any poll errors, a wait that reports an acknowledgement was for a delivered instruction iff the first hook of the wait lived to hand it over |
| StopHook.AcknowledgedHasAnAck | supervisor/loop.py:1544-1576 | under any interference and any poll errors, a wait reports an acknowledgement only for an instruction that an ACK was written for |
| StopHook.TimedOutIsStillDelivered | supervisor/loop.py:1600-1621 | whatever the polls come to, a wait that times out leaves the instruction pending, and the next Stop call delivers it iff none came during the wait |
| StopHook.NextWriteWithdraws | supervisor/hook.py:77-109 | after a later write, whatever follows, the instruction has been delivered iff a Stop-hook call came before that write and the first of them lived |
| StopHook.HookFiles.WriteInstruction | supervisor/hook.py:77-109 | overwrites the pending file, or raises on an empty id |
| StopHook.HookFiles.WriteAck | supervisor/hook.py:240-274 | the hook up to the ACK is the step in which it dies |
| StopHook.HookFiles.RunStopHook | supervisor/hook.py:240-288 | the hook with its hand-over is the step on values; what counts as given to the agent is the id and the text of its result, which are those of the instruction due, or no id and exit code 2 iff a run is active |
| StopHook.HookFiles.PollDelivery | supervisor/adapters/jsonl_observer.py:148-156 | the poll on the ACK file |
| StopHook.HookFiles.AwaitAck | supervisor/loop.py:1539-1600 | the polling loop, with its cap on consecutive errors and its interrupts, is the wait on values |
| JsonlTail.ReadsAreExactIff | supervisor/adapters/jsonl_observer.py:45-75 | however the file grows, the offset is always a line boundary, and all reads together hand on what a JSON parser sees in the lines of the consumed prefix, in order and once each, iff no such line has a line break inside and no read strips a character that JSON would keep |
| JsonlTail.ReadsAreFaithfulIff | supervisor/adapters/jsonl_observer.py:64-75 | torn or not, all reads together hand on what a JSON parser sees in the consumed prefix broken at every line break of splitlines, iff no read strips a character that JSON would keep |
| JsonlTail.GrowthDecides | supervisor/adapters/jsonl_observer.py:73-75 | the same file read at once and in two parts gives different lines |
| JsonlTail.EventsAreExactIff | supervisor/adapters/jsonl_observer.py:73-91 | where the lines are exact, the texts found over all reads are those of the lines of the consumed prefix iff no read with a text in it has a line that raises or more texts than it keeps |
| JsonlTail.VerbatimEventsAreExactIff | supervisor/adapters/jsonl_observer.py:73-91 | exact lines are needed: for the extractor that takes every value as a text, which looks only at what a JSON parser sees, the texts are exact iff the lines are |
| JsonlTail.NullLosesTheRead | supervisor/adapters/jsonl_observer.py:72-88 | a line `null` after an event: the offset has moved past both, nothing is added |
| JsonlBuffer.BufferEndsLikeTheText | supervisor/adapters/jsonl_observer.py:93-103 | however the file grows, the buffer never has more than 3 * limit lines, its lines that are not empty are the last of those of all the texts found so far, in order, and it is all of that text or has at least 2 * limit - 1 lines |
| JsonlBuffer.BufferIsTheTail | supervisor/adapters/jsonl_observer.py:93-103 | where no text found ends in a line break, the buffer has exactly the last lines of all the texts found so far: all of them or at least 2 * limit |
| JsonlBuffer.ShrunkFileIsReadAnew | supervisor/adapters/jsonl_observer.py:56-60 | a file that has shrunk is read as by a fresh reader with an empty buffer |
| JsonlTail.ReadCatchesUp | supervisor/adapters/jsonl_observer.py:64-72 | a read leaves no complete line behind unless all that is left is blank |
| JsonlTail.LineSeparatorTears | supervisor/adapters/jsonl_observer.py:73-79 | a legal one-line event handed on in two parts |
| TextLines.SplitLinesIsBroken | supervisor/adapters/jsonl_observer.py:75-75 | splitlines, with its two-character break and its missing last line, hands on to a JSON parser what lies between single breaks |
| TextLines.StripLosesIff | supervisor/adapters/jsonl_observer.py:75-75 | strip before splitlines loses something of a line iff it removes a character, at either end, that is neither a line break nor JSON whitespace |
| JsonlTail.JsonlObserver.TakeChunk | supervisor/adapters/jsonl_observer.py:51-73 | moves the offset past the last newline of the unread part; starts over if the file shrank; stays if the rest is blank |
| JsonlTail.JsonlObserver.Read | supervisor/adapters/jsonl_observer.py:45-104 | offset, buffer and returned text after a read, for a missing, shrunk, blank or unfinished file and for a line that raises; a read that found texts returns what the buffer held, a newline and the newest of the texts, or the last 2 * limit lines of that if it has more than 3 * limit |
| Sunset.EvaluateSunsetTrigger | supervisor/eval/robustness.py:236-306 | ready iff each of the N days up to the reference day has an observation and a fallback rate within the threshold and each frozen surface has a v2 observation in that window; the streak reported is the longest run of good days that ends at the reference day |
| Sunset.OrderDoesNotMatter | supervisor/eval/robustness.py:252-306 | reordering the observations does not change the verdict |
| Sunset.OutsideDoesNotMatter | supervisor/eval/robustness.py:254-285 | observations outside the window, older or dated in the future, do not change the verdict |
| Sunset.ComputeFallbackRateTrend | supervisor/eval/robustness.py:191-233 | one entry per day of the window, in order, with that day's counts and rate |
| Sunset.ComputeRobustnessReport | supervisor/eval/robustness.py:132-188 | the counts are those of the stream and add up; the frozen surfaces split into those with and without a v2 observation |
| Sunset.Streak | supervisor/eval/robustness.py:287-292 | the streak loop finds the longest run of days below the threshold at the end of the trend |

## Left out

- RunBudget.FailuresAreBounded: excludes auto-intervention and resume, each of which lets a run whose budget is exhausted work on until its next failure.
- RunAttach.OnlyWorkEndsTheAttachPhase: excludes auto-interventions that may succeed and orphan recovery, which RunAttach.AttachEndsThrough names as the other ways out.
- EventRefinement.PlaneRefinesStore: for the records as written, with fresh ids and a clock that does not run backwards, and each call atomic; EventReadBack.FilesRefineStoreIff says when the files show them.
- EventStore.EventPlaneStore.ListOpenWaits: deadlines are numbers; the strings of callers are compared as they are, so that deadlines written for different offsets compare by their text.
- RateLimiter.Limiter.Check: calls are serial and the clock does not run backwards; the lock is not modelled. The bound on the age of buckets needs a clock that is never negative, because the first sweep is timed from zero.
- StopHook.DeliveredOnceInOrder: instruction ids are fresh, a damaged pending file is unreadable or betrayed by its declared hash, and the ACK file is not lost; StopHook.LostAckRepeatsIff shows when its loss matters.
- JsonlTail.ReadsAreExactIff: counts characters, not bytes, and files only grow; JsonlBuffer.ShrunkFileIsReadAnew says what happens when one shrinks.
- JsonlTail.EventsAreExactIff: for extractors that depend only on what a JSON parser sees of a line.
- Sunset.EvaluateSunsetTrigger: rates are real numbers; the rounding of floats is not modelled.
- QuietWindows.NextAllowedRecoveryAt: zones have a fixed offset; zones with daylight saving are not modelled, and neither is the parsing of window texts, which raises on a text like `25:00-26:00` that has the form of a window.
- Sunset.ComputeRobustnessReport: the per-surface summaries are a map, not a tuple sorted by name.
- Crashes happen between operations of the run, between saving and handing over an instruction, and between the ACK of a hook and its hand-over; a crash inside a save, or between the several appends of one ingest call, is not modelled.
- Failures of the supervisor's own storage: a save or an append to a log that raises, except where the text of a checkpoint or the judge's answer makes it raise; strings that UTF-8 cannot encode make the first append of an event-plane call raise, before anything is written.
- EventReadBack.FilesRefineStoreIff: deadlines are numbers and blocking policies one of the three known ones; as strings of the caller they could tear a record as well.
- Text: pattern matching, evidence normalisation, and the phrases that make a pause recoverable are free inputs; so are the judge's answers, within its allowed set.
- Fields of the run record that no modelled operation reads back: branch history, the last decision, identifiers and paths.
- Resume guards that read the outside world (specification hash, pane lock, a foreground controller), notifications, and progress files.
- The bookkeeping of scheduled runtime recoveries (attempt limits per signature); only their injection is an operation of the run.
- The Stop hook is modelled for one session; whether a supervisor run is active is a free input of each call.
- JsonlBuffer.BufferEndsLikeTheText: for reads that keep a positive number of texts, the same at each read; a read that is asked for none keeps everything.
- JsonlTail.JsonlObserver.Read: the working directory that some events carry is not modelled; neither is the search for checkpoints in the text.
- The command line, chat adapters, terminals, sockets, credentials, promotion and proposal records.
- Response texts and error messages of the event plane; its ISO stamps are numbers, 0 for a missing one.
