# Verified model of the agent reliability lab

An agent run must make progress exactly once although tools fail, workers crash and compete,
and approvals race; and a gate must re-derive that story from the trace alone. This project
models three implementations of that idea and proves what ties them together:

- **The durable run protocol**: the store's transactions, the gateway's retry and claim logic,
  and any number of workers interleaving over them (`store`, `store_laws`, `gateway*`, `claims`,
  `protocol*`, `incident`, `retries`, `timestamps`, `locks`, `paging`).
- **The evidence gate**: the automaton over event sequences, what its acceptance guarantees,
  and the grading of whole reports (`gate*`, `evidence`, `grader`, `percentile`, `report*`).
- **The two engines that produce traces**: the desktop orchestrator as one uncrashed worker
  (`desktop*`), the mobile engine (`mobile*`), the agreement of the desktop with the gate
  (`agreement*`), and of the desktop with the mobile engine (`engines*`).

The main results (the `StoreLaws` at the end of the table only read single transactions):

1. `Agreement.AcceptedExactlyWhenGradeable`: the gate accepts the trace that one uncrashed worker
   commits for a scenario **if and only if** the scenario satisfies `Gradeable`, a walk over its
   actions that can be made before the run. No condition on the scenario is assumed: unknown tools,
   bad arguments, reused or missing keys, any fault plan, any budget and both modes are covered.
   `GradedWith` adds which outputs it accepts then. `CatalogueScenariosAreAccepted` is the readable
   instance for the suite; `AgreementCached.CachedReadIsRefused` is a correct run that the gate refuses.
2. `AgreementClaims.ClaimsAreTheRunners`: on acceptance the gate's claims are the runner's, and the
   accepted outputs are too **if and only if** every result that the run began with belongs to a step
   before the first action that is not a succeeding call. `FreshContextsAgree` is the case without
   such results; `OldResultSurvives` is a run on which the two differ.
3. `Engines.EnginesAgreeExactly`: the mobile and the desktop engine make the same attempts, deliver
   the same outputs and reach the same end under any answers **if and only if** the run reaches no
   call that reuses the key of an earlier call, which the mobile engine does not look at, and no call
   whose tool has transient faults planned at both attempts that the desktop allows, where the mobile
   engine has a third. The condition is a walk over the scenario. `EnginesAgree` is the case of keys used once and no fault at
   second attempts. `SecondFaultSeparates`, `EngineKeys.RepeatedReadSeparates` and
   `EngineKeys.ConflictingReadSeparates` are scenarios on which the engines part, and
   `MobileRunIsAdvance` ties the compared mobile run to the app's own bounded loop after every answer.
4. `ProtocolCore`, `ProtocolProgress`, `ProtocolConsent`, `ProtocolAnnounced`, `ProtocolClaims`:
   fencing, exactly-once checkpoints, terminal finality, the policy budget, approval safety down to
   the fingerprint of the announced call, and claim agreement in every interleaving with crashes,
   takeovers and stale clock readings. `ProtocolCursor` says how a run ends and why, and
   `GatewayOutcomes` what a failed, cancelled or lost call means for every later call of its key.
5. `GateOrder`, `GateRetries`, `GateOutputs`, `GateApproval`, `GateFrame`, `GateEnds`: what every
   accepted trace looks like, event by event, and that its result is the one its trace explains.
6. `ReportDetermined.GradingHasNoFreeChoice`: equal evidence forces equal metrics and verdicts.
   `ReportMetrics` says what these are, down to the claims of each case.
7. `DesktopProtocol.CallsAreInterleavings`: a gateway call, whatever its handlers do, is a sequence of
   steps of `Protocol`. `TheWorkerIsAnInterleaving`: everything the desktop worker commits for a
   scenario, after any number of answers to its requests for approval, is committed by an
   interleaving of the store's transactions in `Protocol`; `GradedRunsAreSafe` carries the guarantees
   of 4 over to it and to the graded case.
8. `AgreementModes.ModesAreGradedAlike`: with no transient fault declared, the gate decides alike on
   the fragile and the resilient trace and derives equal claims.
9. `MobileSafety.CrashesLoseNothing` and `ResumingTerminates`, `MobileTrace.TracesAreTrue`,
   `MobileProgress.StepsAreToldOnce`: the mobile engine under any crash schedule.

## How the model reads the system

- A store transaction is one atomic step on the rows of one run. Its clock reading is an arbitrary
  parameter, so a reading taken before the transaction opened, or by a slow clock, is covered.
- A worker is one execution or one denial, under a lease token that no earlier execution used. Between
  two steps of a worker anything else may happen, including its crash; a heartbeat is a renewal step.
- Payloads are typed; one that lacks a field or carries a wrong type is the event body `Unreadable`,
  which the gate refuses. SHA-256 over canonical JSON is an injective constructor of `Digest`.
  Well-known error codes are constructors of `Code`. Tool outputs and arguments are typed values.
- The key the runtime derives for a write without one is a constructor of its own, so it never equals
  a key that a scenario spells out. A fresh random token is a number not used before; the desktop
  worker draws its claim tokens and attempt spans from the event counter, which never repeats.
- In `Protocol` handlers are arbitrary: any output, failure or cancellation, in any order. In
  `GatewayHandlers` one call has any handlers; it may time out, raise or be cancelled. In
  `Desktop` the handlers are the incident backend's, the policy is the scripted one, and the worker's
  clock stands still inside its own lease.
- Every induction is written out. Lemmas on which Dafny would try one of its own carry
  `{:induction false}`: its automatic hypothesis for a sequence is not limited to sequences of that
  element type, and false statements can pass with it.
- Source code that changes rows in place is a class with methods (`Store.RunStore`, `DesktopWorker`,
  `MobileEngine.MobileApp`, `Incident.IncidentBackend`), each proved equal to a function on rows; the
  lemmas are about those functions.

Points where the code does something its names do not suggest, kept as they are: renewing a lease
looks only at the owner, so an expired lease that nobody took is extended; only owned saves are
fenced, so a worker that lost its lease may still append attempt events; and the gate forces
`run.failed` after `approval.denied` only if the denial carries a reason.

## Model

| member | source | states |
|---|---|---|
| Store.RunStore.SaveRun | src/agent_reliability_lab/storage/store.py:201-240 | inserts at version 1, or compare-and-swaps on the expected version, or changes nothing |
| Store.RunStore.AppendEvent | src/agent_reliability_lab/storage/store.py:523-561 | stores the event under the next number of its trace, outside any lease |
| Store.RunStore.SaveRunOwned | src/agent_reliability_lab/storage/store.py:242-402 | the loop that numbers and inserts the events leaves exactly the rows of the fenced save, or none of them |
| Store.RunStore.ClaimRunExecution | src/agent_reliability_lab/storage/store.py:437-475 | takes, keeps or is refused the lease as the claim function says |
| Store.RunStore.RenewRunExecution | src/agent_reliability_lab/storage/store.py:477-502 | extends the owner's lease or reports lost ownership |
| Store.RunStore.ReleaseRunExecution | src/agent_reliability_lab/storage/store.py:504-521 | drops the owner's lease or reports that it is not the owner |
| Store.RunStore.RecordApproval | src/agent_reliability_lab/storage/store.py:864-1029 | records the first decision of a pending step with its audit event, accepts an exact repeat, refuses the rest |
| Store.RunStore.ClaimToolExecution | src/agent_reliability_lab/storage/store.py:624-757 | grants, reclaims, settles or refuses a tool claim, branch by branch |
| Store.RunStore.CompleteToolResult | src/agent_reliability_lab/storage/store.py:759-797 | completes only the caller's own running claim |
| Store.RunStore.FailToolExecution | src/agent_reliability_lab/storage/store.py:799-828 | fails only the caller's own running claim, with its disposition |
| Store.RunStore.ListEventsPage | src/agent_reliability_lab/storage/store.py:572-592 | the events after the cursor up to the limit, and whether more exist; bad limits are errors |
| Claims.ClaimsAreSettledOnce | src/agent_reliability_lab/storage/store.py:624-828 | under any operations the request of a claim never changes and completed or finally failed claims stay as they are |
| Claims.OneCompletionByTheLatestGrantee | src/agent_reliability_lab/storage/store.py:624-828 | at most one completion commits, by the latest grantee; without reclaiming a key is granted at most once |
| Gateway.Stabilise | src/agent_reliability_lab/tools/gateway.py:179-200 | every write gets a key, a given key is kept, and reads are left alone |
| GatewayHandlers.CallTool | src/agent_reliability_lab/tools/gateway.py:98-172 | preflight, claim, attempts and settling in place equal the call function under any handlers; a cancelled call gives its claim back |
| GatewayHandlers.PersistClaimResult | src/agent_reliability_lab/tools/gateway.py:402-448 | the claim is completed or failed; a completion that cannot be stored becomes a failure, a failure that cannot be stored is an error and changes nothing |
| GatewayHandlers.Attempts | src/agent_reliability_lab/tools/gateway.py:236-380 | the retry loop over the store, with answers, timeouts, raised errors, crashes and cancellations of handlers and waits, leaves the rows and result of the recursive loop |
| GatewayHandlers.AttemptOnce | src/agent_reliability_lab/tools/gateway.py:247-340 | one attempt: its injected fault, its handler, its output check and its closing event, every branch |
| GatewayHandlers.AttemptsAreChained | src/agent_reliability_lab/tools/gateway.py:245-379 | whatever the handlers do, the closings of a call are numbered on within the mode's limit, all but the last transient failures, the last as the result says; a retryable failure has used up the limit |
| GatewayHandlers.BackendCall | src/agent_reliability_lab/tools/gateway.py:98-172 | with the incident backend's handlers the call is the one the desktop worker is built on |
| GatewayOutcomes.FailedWritesStayUnknown | src/agent_reliability_lab/tools/gateway.py:402-448 | a keyed write that failed after an attempt is never attempted again: after any use of the claim, at any time and under any token, the same request is answered as indeterminate without an attempt |
| GatewayOutcomes.FailedReadsMayReturn | src/agent_reliability_lab/tools/gateway.py:402-448 | a keyed read that failed for a passing reason is granted to the next caller; a final failure answers for good |
| GatewayOutcomes.FailureLeavesRow | src/agent_reliability_lab/tools/gateway.py:98-172 | a call that made an attempt and failed, or was cancelled, held the claim and left it retryable, indeterminate or terminal as its tool and result say |
| GatewayOutcomes.GivenBackIsGrantedAgain | src/agent_reliability_lab/storage/store.py:723-757 | a claim failed as retryable is granted to whoever asks next with a fresh lease and nothing of the old row, and to nobody who may not reclaim |
| GatewayOutcomes.CancelledCallsCanBeRepeated | src/agent_reliability_lab/tools/gateway.py:150-172 | a cancelled call, repeated uninterrupted and without faults, succeeds with the backend's answer at its first attempt |
| GatewayOutcomes.UsedKeysAnswer | src/agent_reliability_lab/tools/gateway.py:114-146 | what each state of a used key answers: conflict, in progress, the stored output if it still fits its tool, indeterminate or terminal; always without an attempt and with the rows unchanged |
| GatewayOutcomes.LostResultsAreNoSuccess | src/agent_reliability_lab/tools/gateway.py:402-448 | a success whose claim was lost is reported as indeterminate for a write and as repeatable for a read |
| GatewayOutcomes.HandlersAreAnswered | src/agent_reliability_lab/tools/gateway.py:247-340 | each behaviour of a handler has its own answer |
| GatewayOutcomes.SecondTriesDecide | src/agent_reliability_lab/tools/gateway.py:341-380 | a resilient call repeats exactly a first attempt that failed for a passing reason, and the second decides |
| GatewayOutcomes.AttemptsAreToldWhole | src/agent_reliability_lab/tools/gateway.py:247-340 | an attempt adds its start, its injected fault, its rejected output and its one closing to the trace, in one new span, with the codes listed for each behaviour of its handler |
| GatewayOutcomes.CancellationsAreTold | src/agent_reliability_lab/tools/gateway.py:300-380 | a cancelled call ends its trace with the cancelled closing or with the cut-short wait, any other call with the closing of its last attempt |
| GatewayOutcomes.PreflightReportsTheFirst | src/agent_reliability_lab/tools/gateway.py:202-224 | preflight reports the first fault of tool, input and plan, and a stable action never lacks its key |
| GatewayOutcomes.ConsentReportsTheRow | src/agent_reliability_lab/tools/gateway.py:225-233 | consent is missing, for another action, refused or given, in that order |
| GatewayOutcomes.DerivedKeysAreApart | src/agent_reliability_lab/tools/gateway.py:186-200 | derived keys are equal only for one step, tool and request |
| GatewayOutcomes.FirstRuleDecides | src/agent_reliability_lab/tools/faults.py:62-95 | of the rules for one attempt of a tool the first decides, and no rule for another tool or attempt ever does |
| Incident.OnePreparationPerToken | src/agent_reliability_lab/tools/incident.py:232-243 | as many rollback preparations as distinct tokens, each answered as its first call was |
| Incident.IncidentBackend.PrepareRollback | src/agent_reliability_lab/tools/incident.py:204-243 | a known token is answered from memory and counts nothing; a new one counts once |
| Retries.Spend | src/agent_reliability_lab/tools/gateway.py:245-380 | the loop's attempts, handler time and waits are those of the trials, at most 300 and 75 seconds |
| Retries.SpendBounds | src/agent_reliability_lab/tools/contracts.py:44-92 | n attempts handle for at most n limits, 300 seconds at most, and wait initial_delay * (2^(n-1) - 1), 75 seconds at most |
| Retries.BoundsAreTight | src/agent_reliability_lab/tools/contracts.py:11-15 | a valid tool and five slow transient trials reach both bounds: five attempts, 300 seconds handling, 75 waiting |
| ProtocolCore.SavesAreFenced | src/agent_reliability_lab/storage/store.py:242-521 | in every interleaving the version counts the committed saves and each token's saves are consecutive |
| ProtocolCore.LostWorkerNeverCommits | src/agent_reliability_lab/storage/store.py:242-521 | a worker whose lease was dropped or taken never commits again |
| ProtocolProgress.ProgressIsExactlyOnce | src/agent_reliability_lab/runtime/orchestrator.py:43-268 | in every reachable state checkpoints are steps 0,1,... once each, as many as the run completed, and one terminal event exists exactly when the run is terminal |
| ProtocolProgress.TerminalIsFinal | src/agent_reliability_lab/runtime/service.py:96-280 | nothing changes a terminal run row, even when resume, approve and deny race past their checks |
| ProtocolCursor.EndsMoveTheCursor | src/agent_reliability_lab/runtime/orchestrator.py:234-268 | in every interleaving a run ends with one save of one worker and with that worker's reason as its result: its own finish or fail, its failed call, its recorded failure, the denial or the exhausted budget; the cursor is one past the checkpoints exactly if it ended by its own action, and nothing stays pending |
| ProtocolCursor.AdvancesStoreTheAnswer | src/agent_reliability_lab/runtime/orchestrator.py:202-231 | in every interleaving the cursor of a run that goes on moves only by the save of a worker whose call answered: one step, the answer under that step, every other answer as it was, nothing pending, and a checkpoint that tells attempts, output, caching and the new context |
| ProtocolCursor.FailuresHaveTheirCause | src/agent_reliability_lab/runtime/orchestrator.py:94-193 | in every interleaving a worker stands before a failure only after a policy that raised, a preflight failure just told to the trace, or the decision row of its step, and the code says which |
| ProtocolCursor.PausesAreRemembered | src/agent_reliability_lab/runtime/orchestrator.py:160-183 | in every reachable state a run is flagged for approval exactly while it waits, with a gated call, its key and its own fingerprint pending; before its start and after its end nothing is pending |
| ProtocolCursor.ReservationsPassTheCursor | src/agent_reliability_lab/runtime/orchestrator.py:66-84 | the policy may be asked exactly if neither steps taken nor calls started have used up the budget, and the reservation passes both, also on a row whose count is behind its cursor |
| ProtocolProgress.PolicyCallsStayInBudget | src/agent_reliability_lab/runtime/orchestrator.py:66-99 | over a run's life the policy is invoked at most budget times; the cursor never passes the reservations, strictly while an action is pending |
| ProtocolProgress.TracesOnlyGrow | src/agent_reliability_lab/storage/store.py:370-399 | every later trace extends the earlier one and is numbered 1 to its counter |
| ProtocolProgress.StatusFollowsTheTable | src/agent_reliability_lab/domain/runs.py:23-31 | however workers interleave, the stored status only takes allowed transitions |
| ProtocolAnnounced.StartsMatchTheTrace | src/agent_reliability_lab/runtime/orchestrator.py:160-193 | a gated attempt in a reachable trace starts after its call was announced at its step and after the one decision of that step, which allows it and carries the fingerprint of exactly that call |
| ProtocolConsent.StartsMatchTheDecision | src/agent_reliability_lab/tools/gateway.py:225-233 | a worker about to attempt a gated action holds an approval of exactly that action |
| ProtocolConsent.DenialIsFinal | src/agent_reliability_lab/runtime/service.py:111-161 | once a denial is recorded no gated attempt of its step is or will be in the trace and the run never passes the step, also after a crash between decision and denial |
| ProtocolClaims.SuccessesAgree | src/agent_reliability_lab/tools/gateway.py:112-172 | all successes reported under one key, at any moments and by any workers, carry the same output for the same request |
| Timestamps.TextOrderIsTimeOrder | src/agent_reliability_lab/storage/store.py:250-259 | text order of isoformat timestamps is time order although a zero fraction is omitted |
| Timestamps.ExpiryIsReadOffTheText | src/agent_reliability_lab/storage/store.py:1207-1214 | comparing the text column means live and expired |
| Locks.OneInsidePerRun | src/agent_reliability_lab/api/services.py:114-137 | under every interleaving one thread per run is inside, users of a run share one entry that counts them, and an unused table is empty |
| Paging.ValidateTracePage | web/src/api.ts:170-197 | accepts exactly pages that continue the cursor without a gap |
| Paging.PagesAreStretches | src/agent_reliability_lab/api/services.py:162-174 | a served page is the next stretch of the trace, is accepted, and says exactly whether events remain |
| Paging.GetTrace | web/src/api.ts:133-168 | while events are appended the loop rejects no page, ends within 100 pages, and returns the whole trace its last page saw or, past 10000 events, the size error |
| Gate.TraceClaims | src/agent_reliability_lab/evaluation/gate.py:356-813 | the loop over the items computes the fold of the automaton and its closing checks |
| Gate.RefusalIsFinal | src/agent_reliability_lab/evaluation/gate.py:433-744 | no extension of a refused prefix is accepted |
| GateSoundness.GateAgreesWithRunner | src/agent_reliability_lab/evaluation/runner.py:579-672 | on every accepted trace the runner's independent filters succeed and equal the gate's claims |
| GateOrder.AttemptsNeverOverlap | src/agent_reliability_lab/evaluation/gate.py:490-549 | at every prefix of an accepted trace at most one attempt is open and the closed ones are in start order |
| GateRetries.RetriesAreExplained | src/agent_reliability_lab/evaluation/gate.py:816-856 | attempts of a call are 1..k within the mode's limit, and each retried one failed transiently for exactly one fault |
| GateOutputs.AcceptedOutputsAreTheSuccesses | src/agent_reliability_lab/evaluation/gate.py:533-548 | accepted outputs are the successes in order, one per step, each the fixture's |
| GateOutputs.CheckpointFollowsSuccess | src/agent_reliability_lab/evaluation/gate.py:576-613 | a checkpoint directly follows a success and records its output and the context rebuilt from all so far |
| GateOutputs.SuccessIsCheckpointedAtOnce | src/agent_reliability_lab/evaluation/gate.py:433-436 | the event after a success exists and is its checkpoint |
| GateApproval.GatedCallsAreApproved | src/agent_reliability_lab/evaluation/gate.py:859-924 | a gated call that was started went through wait, approval, resume and second announcement in that order, bound to the frozen digest, with one write |
| GateApproval.EndsOnce | src/agent_reliability_lab/evaluation/gate.py:720-766 | an accepted trace ends with its only terminal event, which carries the claimed status and result |
| GateEnds.ResultIsExplained | src/agent_reliability_lab/evaluation/gate.py:720-766 | an accepted trace that announces a finish or fail ends right after it, as that action says: status, outcome, summary, references, or code and explanation; one whose preflight failed ends right after it with that code; any other failed, and so did its last attempt |
| GateEnds.EndsAsAnnounced | src/agent_reliability_lab/evaluation/gate.py:726-747 | the announced end is the frozen action of its step and decides status and result |
| GateEnds.EndsAfterPreflight | src/agent_reliability_lab/evaluation/gate.py:615-646 | a failed preflight is the last event but one and its code is the result |
| GateEnds.DenialsAreRefused | src/agent_reliability_lab/evaluation/gate.py:859-924 | no accepted trace records a decision against or a denial, whatever follows it |
| GateFrame.AnnouncementsAreFrozen | src/agent_reliability_lab/evaluation/gate.py:450-491 | every announcement repeats the frozen payload of its step, steps never go back and none is skipped |
| GateFrame.AnnouncementsAreCounted | src/agent_reliability_lab/evaluation/gate.py:776-790 | an announced step is announced once, or twice exactly if it is a gated call that was started |
| GateFrame.EventsAreInPlace | src/agent_reliability_lab/evaluation/gate.py:493-574 | every event of a call lies between that call's announcement and the next announcement or checkpoint, every event of an attempt between its start and closing and in its span, and every event has the status of its kind |
| GateFrame.VerdictsNameTheFrozenAction | src/agent_reliability_lab/evaluation/gate.py:615-685 | a preflight failure or a decision carries the step, tool and fingerprint of the frozen call under way, and a preflight failure one of four codes |
| GateFrame.FailuresAreExplained | src/agent_reliability_lab/evaluation/gate.py:816-856 | no attempt is cancelled; an invalid output has exactly one rejection and is final; any other failure has exactly one kind of fault that explains it |
| GateFrame.ApprovalsOnlyWhereNeeded | src/agent_reliability_lab/evaluation/gate.py:859-924 | an approval is reconstructed exactly if a gated call was started; otherwise there is no wait, decision or resume |
| GateFrame.CaseIsWhole | src/agent_reliability_lab/evaluation/gate.py:357-401 | digest, order, parents and identities pin the one trace of a case, and every frozen entry's fields are those of its payload |
| DesktopWorker.Execute | src/agent_reliability_lab/runtime/orchestrator.py:43-232 | the orchestrator's loop over the store leaves the rows of the recursive loop specification |
| DesktopWorker.CarryOut | src/agent_reliability_lab/runtime/orchestrator.py:134-231 | one tool action from stabilising to its save, every branch |
| DesktopWorker.TerminalFailure | src/agent_reliability_lab/runtime/orchestrator.py:234-268 | the failed run and its event are saved together |
| DesktopWorker.RunOwned | src/agent_reliability_lab/runtime/service.py:169-199 | lease, execution and release leave the rows of the owned execution |
| DesktopWorker.ApproveOn | src/agent_reliability_lab/runtime/service.py:111-161 | an answer is recorded first and then resumes or denies |
| DesktopWorker.DenyOn | src/agent_reliability_lab/runtime/service.py:224-280 | a denial fails the run in one save with both events |
| DesktopWorker.RunCaseOn | src/agent_reliability_lab/evaluation/runner.py:333-409 | the evaluation's start and single approval leave the rows of the case specification |
| Desktop.LoopGrows | src/agent_reliability_lab/runtime/orchestrator.py:64-232 | however a run ends, its trace extends what was there, numbered without a gap |
| DesktopTrace.CaseFaithful | src/agent_reliability_lab/runtime/orchestrator.py:202-231 | the last checkpoint digests the saved context, the last event is the stop the row records, and an approval is in the trace only if the case asked for it |
| DesktopTrace.DenialsAreTold | src/agent_reliability_lab/runtime/service.py:224-280 | a refusal leaves decision, denial and failure as the last three events, the decision row, and a failed run with the given reason and nothing pending |
| DesktopModes.ModesAgreeUnlessRetried | src/agent_reliability_lab/tools/gateway.py:245-365 | if the fragile case does not fail, or no transient fault is planned, the resilient case leaves the same rows and trace event by event |
| DesktopProtocol.CallsAreInterleavings | src/agent_reliability_lab/tools/gateway.py:98-172 | a call under any handlers is a sequence of steps that the many-worker protocol allows, and leaves the worker with its result or cancelled with its claim given back |
| DesktopProtocol.TheWorkerIsAnInterleaving | src/agent_reliability_lab/runtime/orchestrator.py:43-232 | from claiming the lease to releasing it, each branch of the worker is a sequence of store transactions and reads that the many-worker protocol allows, so the rows a run leaves after any list of answers, allowing or denying, are reachable there |
| DesktopProtocol.CaseIsARun | src/agent_reliability_lab/evaluation/runner.py:333-409 | the graded case is the run with the suite's one approval, or without any |
| DesktopProtocol.GradedRunsAreSafe | src/agent_reliability_lab/evaluation/runner.py:333-409 | a graded run, and any run of one worker, has checkpoints 0,1,... once each, one end event exactly when it ended, and before every gated attempt the announcement of its call and the one decision of its step, which allows exactly that call |
| Agreement.AcceptedExactlyWhenGradeable | src/agent_reliability_lab/evaluation/gate.py:356-813 | for every scenario, mode and budget the gate accepts the worker's trace if and only if the scenario is gradeable |
| Agreement.CatalogueScenariosAreAccepted | src/agent_reliability_lab/evaluation/runner.py:333-409 | catalogue calls, keys exactly on writes, at most one approved write that succeeds, an end within the budget: always accepted |
| Agreement.GradedWith | src/agent_reliability_lab/evaluation/gate.py:576-613 | and then the accepted outputs are the backend's answers to every action before the first that is not a succeeding call |
| AgreementCached.CachedReadIsRefused | src/agent_reliability_lab/evaluation/gate.py:576-579 | for any keyed read made twice: the run succeeds with its result and both outputs in its context, its second checkpoint is the cached one, no attempt belongs to that step, and the gate refuses the trace |
| AgreementClaims.ClaimsAreTheRunners | src/agent_reliability_lab/evaluation/runner.py:442-533 | on acceptance status, result, tools, attempts, faults, rejections and approval equal the runner's, and the accepted outputs do exactly if every result the run began with lies below the first action that is not a succeeding call |
| AgreementClaims.FreshContextsAgree | src/agent_reliability_lab/evaluation/runner.py:675-704 | a run that begins without results is read back exactly as the gate accepts it |
| AgreementClaims.OldResultSurvives | src/agent_reliability_lab/evaluation/runner.py:675-704 | a failing read over an initial result of its step: the gate accepts no output, the runner reports the old one |
| AgreementModes.ModesAreGradedAlike | src/agent_reliability_lab/evaluation/gate.py:185-204 | with no transient fault declared both modes of a scenario are accepted or both refused, with equal items, write counters and claims |
| AgreementClaims.ContextRebuilt | src/agent_reliability_lab/evaluation/gate.py:593-611 | the context the runtime saved is the one the gate rebuilds from the accepted outputs |
| AgreementClaims.OutputsAgree | src/agent_reliability_lab/evaluation/runner.py:675-704 | reading outputs back from the context by step gives the accepted list iff no initial result survives |
| Grader.LcsLength | src/agent_reliability_lab/evaluation/graders.py:110-120 | the two-row loop returns the greatest length of a common subsequence |
| Grader.FullMarksMeanEqual | src/agent_reliability_lab/evaluation/graders.py:20-27 | the match count is at most either length, and reaches the longer one exactly for equal sequences |
| Grader.UnnecessaryIsDifference | distribution/mobile_app.py:902-902 | the desktop's excess per name summed is the mobile report's multiset difference |
| Grader.MatchedAndUnnecessaryFit | src/agent_reliability_lab/evaluation/graders.py:35-41 | matched and unnecessary calls together never exceed the calls made |
| Report.AggregateCases | src/agent_reliability_lab/evaluation/graders.py:54-107 | the pass over the cases computes the exact totals, rates, percentiles and sums |
| ReportMetrics.MetricsAreRates | src/agent_reliability_lab/evaluation/graders.py:54-107 | counts are numbers of cases, each counter is the sum of its own field, each rate times its denominator is its numerator, and recovery is missing iff no fault was verified |
| ReportMetrics.SpendingAddsUp | src/agent_reliability_lab/evaluation/graders.py:98-107 | tokens and costs are sums, and the two latencies are the measured ones of nearest rank 50 and 95 |
| ReportMetrics.TalliesCount | src/agent_reliability_lab/evaluation/gate.py:277-332 | each counter of a case in terms of its claims: matched and unnecessary calls, retries beyond the first attempt of each call, transient faults verified and recovered, outputs accepted and rejected |
| ReportMetrics.IntactCasesMean | src/agent_reliability_lab/evaluation/gate.py:234-341 | an intact case has the gate's claims, is correct exactly if their outcome is the expected one, had exactly its declared faults, each failing one attempt, and accepted no invalid output |
| ReportMetrics.IntactRates | src/agent_reliability_lab/evaluation/graders.py:54-107 | on intact cases every rate lies between 0 and 1, and the invalid rate is 0 |
| ReportMetrics.AcceptedAreValid | src/agent_reliability_lab/evaluation/gate.py:1006-1018 | whatever outputs the gate accepts, their tools' output models do |
| ReportMetrics.VerdictsAreThresholds | src/agent_reliability_lab/evaluation/gate.py:75-111 | each failure of the gate stands for one comparison of counters |
| ReportMetrics.PassingMeans | src/agent_reliability_lab/evaluation/gate.py:51-111 | a report passes exactly if it and its baseline are intact and comparable, four fifths of the resilient cases are correct, three quarters of at least one verified fault were recovered, and correctness fell by at most a twentieth |
| ReportMetrics.ComparedOnlyWithinOneSuite | src/agent_reliability_lab/evaluation/gate.py:51-77 | a report is incomparable with an intact baseline exactly if their manifests or configurations differ |
| ReportMetrics.LastEntryIsUsed | src/agent_reliability_lab/evaluation/gate.py:146-148 | where a scenario id stands twice, cases are held against its last manifest entry |
| ReportMetrics.EveryEntryIsRunOnce | src/agent_reliability_lab/evaluation/gate.py:117-183 | an intact report has in both modes exactly one case for each manifest entry and no other |
| ReportMetrics.ComparisonsMean | src/agent_reliability_lab/evaluation/runner.py:254-301 | the comparison is what the resilient mode has more in each rate and counter, and names exactly the scenarios it alone got right after a recovery |
| ReportMetrics.UnretriedCasesAgree | src/agent_reliability_lab/evaluation/gate.py:185-204 | without a declared transient fault a case has the same claims, verdict and share in the metrics in both modes |
| ReportMetrics.ModesAreApart | src/agent_reliability_lab/evaluation/gate.py:150-167 | the modes share no run, trace or event |
| Percentile.NearestRankIsMet | src/agent_reliability_lab/evaluation/graders.py:44-51 | the percentile is the one measured value with fewer than the rank below it and at least that many not above it, in any order of the values |
| ReportDetermined.ScoreIsDetermined | src/agent_reliability_lab/evaluation/gate.py:234-341 | an intact case has no free field that its metrics read |
| ReportDetermined.GradingHasNoFreeChoice | src/agent_reliability_lab/evaluation/gate.py:117-214 | intact reports with one manifest and the same trace per case have equal metrics in both modes, whatever the order of cases |
| ReportDetermined.VerdictHasNoFreeChoice | src/agent_reliability_lab/evaluation/gate.py:51-111 | the gate's thresholds and baseline comparison then give the same verdict |
| MobileEngine.MobileApp.Event | distribution/mobile_app.py:390-409 | an event gets one more than the greatest number so far |
| MobileEngine.MobileApp.TryOnce | distribution/mobile_app.py:571-687 | validation, approval, one attempt, its fault or its delivery, every branch |
| MobileEngine.MobileApp.Transact | distribution/mobile_app.py:520-553 | one transaction commits the next record whole or leaves the rows as they were |
| MobileEngine.MobileApp.AdvanceRun | distribution/mobile_app.py:518-556 | the loop of at most 64 transactions, each committed on its own |
| MobileEngine.MobileApp.ApproveRun | distribution/mobile_app.py:689-746 | a decision commits in its own transaction before the run advances; conflicts change nothing |
| MobileEngine.MobileApp.StartRun | distribution/mobile_app.py:487-510 | a new run is created with its first event and advanced |
| MobileSafety.TransactionSafe | distribution/mobile_app.py:518-687 | every transaction of a safe unstopped run commits, stays safe and comes closer to a stop |
| MobileSafety.CrashesLoseNothing | distribution/mobile_app.py:518-687 | under any crash schedule events are 1..n, attempts open and close once each, effects are the approved write steps below the cursor, and the conflict branch is unreachable |
| MobileTrace.TracesAreTrue | distribution/mobile_app.py:571-687 | under any crash schedule every stored event is true: a delivered output is the backend's answer to the action of its step and, for a write, the stored effect; a failure is the planned fault; a checkpoint follows its delivery; the last event tells the result, and a failure names the exhausted scenario, the fail action, the rejected input, the failed attempt or the denial that it comes from |
| MobileTrace.ForeignRowsAreNotUsed | distribution/mobile_app.py:583-687 | even in records no run reaches, a call decided otherwise fails unattempted, a write whose effect row is another action's is rolled back, and one whose effect row is its own delivers what is stored |
| MobileProgress.StepsAreToldOnce | distribution/mobile_app.py:518-556 | under any crash schedule steps 0,1,... are announced in order and once each, checkpoints are 1,2,... up to the cursor, and the cursor is at the last announced step or just past it |
| MobileProgress.RunsBeginWhereQueued | distribution/mobile_app.py:487-530 | under any crash schedule a beginning is told right after the creation and after each decision to go on, and nowhere else |
| MobileProgress.PassesAreCounted | distribution/mobile_app.py:518-556 | the loop returns the run exactly if it stops after fewer than 64 transactions, and reports the exhausted budget exactly if all 64 passes committed one, also if the last of them stopped the run |
| MobileTrace.DecisionsAreTaken | distribution/mobile_app.py:689-746 | which decisions are taken, and what an approval and a denial leave in the row |
| MobileSafety.EnoughPasses | distribution/mobile_app.py:518-556 | given more passes than the run's distance the loop returns stopped; otherwise it made that much progress |
| MobileSafety.ResumingTerminates | distribution/mobile_app.py:372-378 | repeated resumes reach a terminal or waiting run from any reachable rows, one resume for up to fifteen actions |
| EngineCalls.CallsAgreeUnlessGivenUp | distribution/mobile_app.py:654-654 | both engines make the same attempts of a call with the same verdict exactly unless the mode is resilient and both attempts of the desktop meet a transient fault |
| Engines.EnginesAgreeExactly | distribution/mobile_app.py:518-687 | for comparable scenarios, both modes and any answers, the engines agree on status, result or code, waiting step, every attempt with its closing and every delivered output if and only if no reached call reuses a key or is given up by the desktop alone; and the walk says where they stand |
| Engines.EnginesAgree | src/agent_reliability_lab/evaluation/runner.py:554-554 | scenarios whose calls share no key, without faults at second attempts, and all such fragile runs: the engines agree on all of this under any answers |
| Engines.MobileRunIsAdvance | distribution/mobile_app.py:518-746 | after any answers the compared mobile run is what the app's decision and bounded loop leave whenever its calls return, and they return for up to fifteen actions |
| Engines.SecondFaultSeparates | distribution/mobile_app.py:654-654 | with a second planned fault the desktop fails and the mobile engine succeeds on its third attempt |
| EngineKeys.RepeatedReadSeparates | src/agent_reliability_lab/tools/gateway.py:114-172 | the same keyed read twice and no fault: both engines succeed, but the desktop answers the second read from its claim and never tries it, where the mobile engine does |
| EngineKeys.ConflictingReadSeparates | src/agent_reliability_lab/tools/gateway.py:124-126 | another request under a used key: the desktop fails with the idempotency conflict and the mobile engine succeeds |
| EnginesApart.ApproveElsewhere | src/agent_reliability_lab/runtime/orchestrator.py:43-232 | once the desktop has left a step behind or failed, no later action or answer adds an attempt of that step |
| StoreLaws.LeaseIsTakenOnlyAfterExpiry | src/agent_reliability_lab/storage/store.py:437-521 | a lease changes hands exactly when expired, and its former holder can then neither save, renew nor release under any clock |
| StoreLaws.RenewAndRelease | src/agent_reliability_lab/storage/store.py:477-521 | renewal needs only ownership and moves the expiry; a released run goes to whoever asks next |
| StoreLaws.OwnLeaseIsKept | src/agent_reliability_lab/storage/store.py:437-475 | the holder, or anyone if there is no holder, gets the lease at any time |
| StoreLaws.SavesAreCompareAndSwap | src/agent_reliability_lab/storage/store.py:242-402 | a save succeeds iff its token owns a live lease and its version is current; it bumps the version by one, appends its events numbered on, and no second save of that version succeeds |
| StoreLaws.FirstDecisionStands | src/agent_reliability_lab/storage/store.py:906-1029 | the first decision of a step stays, a repeat is a no-op, any other conflicts, and row and audit event appear together |
| StoreLaws.OnlyPendingStepsAreDecided | src/agent_reliability_lab/storage/store.py:906-1029 | a first decision for a paused run is recorded exactly for the step and fingerprint it waits with |
| StoreLaws.CompletedClaimAnswers | src/agent_reliability_lab/storage/store.py:624-828 | a completed claim answers the same request with its output and any other with a conflict, and is never completed or failed again |
| StoreLaws.ExpiredClaim | src/agent_reliability_lab/storage/store.py:680-757 | a live claim is refused; an expired one is handed over if reclaiming is allowed and is otherwise indeterminate for good |
| StoreLaws.GrantsAreLeased | src/agent_reliability_lab/storage/store.py:624-757 | a granted claim is its holder's for its request until the lease given to it runs out; from then on it goes to whoever may reclaim |

## Left out

- SQL, sessions and connection handling: each transaction is one atomic step on typed rows.
- Hashing, JSON text, secret sanitising and payload sizes: digests are injective and payloads pass unchanged.
- Wall-clock waits, heartbeat scheduling, task cancellation order and the approval polling loop: a heartbeat is a renewal step, a cancelled handler is a step, and waiting for another worker's result is not modelled.
- HTTP routing, request validation, schemas, CLI, settings, the model-backed policy, the React views, the Android shell, packaging and license scripts: input, output and transport.
- The fault kind `transient_failure`: neither a scenario nor fault evidence can carry it.
- Floating-point rounding: rates, percentages and costs are exact.
- Git provenance, YAML loading and files that change during an evaluation.
- ProtocolProgress.PolicyCallsStayInBudget: assumes one configured budget for all workers of a run, as the service passes one.
- Gate.TraceClaims: payload fields the automaton never reads (durations, retry delays, the source of a rejection) are not in the typed payloads.
- The uncrashed worker of `DesktopWorker` is never cancelled; `GatewayHandlers.CallTool` is the whole call.
- AgreementClaims.ClaimsAreTheRunners: the runner also raises when declared and injected faults differ or when an approval did not write exactly once; those refusals are not part of the claims compared.
- The digest of a manifest ignores the order of entries with equal paths.
- ReportDetermined.GradingHasNoFreeChoice: says nothing of latencies, tokens and costs, which are measured and estimated per run, nor of the comparison record, whose scenario lookup depends on case order if a manifest repeats a scenario id under two versions.
- Engines.EnginesAgreeExactly: comparable means catalogue tools, known fault targets, and an end within the budget and within 100 actions; it compares attempts and ends, not the checkpoints' digests, which the mobile engine does not write.
- The mobile engine's scenario-compatibility check: an app keeps one scenario for the life of a run.
- Evaluation reports of the mobile engine beyond the tool-sequence score and the unnecessary calls.
