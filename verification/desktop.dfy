/** One worker that is neither cancelled nor overtaken: `DurableOrchestrator.execute`, the
    service methods around it, and the runner's case (runtime/orchestrator.py,
    runtime/service.py, evaluation/runner.py). */
module Desktop {
  import opened Domain
  import opened Rows
  import opened Store
  import opened Gateway
  import opened Protocol

  /** What a worker is given: the scripted actions, the fault plan, the policy budget, and
      its clock, which stays inside its own lease. */
  datatype Job = Job(
    actions: seq<Action>, faults: seq<FaultRule>, budget: nat, now: int, leaseSeconds: nat, claimSeconds: nat)

  // ---------------------------------------------------------------- one save

  function Save(t: Tables, run: Run, notes: seq<Note>): (t': Tables)
    ensures t'.run == run.(version := t.run.version + 1) && t'.lease == t.lease && t'.approvals == t.approvals
  {
    var start := t.(run := run.(version := t.run.version + 1));
    AppendAllKeeps(start, notes);
    AppendAll(start, notes)
  }

  function Terminate(t: Tables, code: Code, detail: FailureDetail, advance: bool): (t': Tables)
    ensures t'.run.status.Failed? && t'.lease == t.lease && t'.approvals == t.approvals
  {
    Save(t, Ended(t.run, code, detail, advance), [Note(0, Error, RunFailed(Failure(code, detail)))])
  }

  function Succeed(t: Tables, outcome: Code, summary: string, refs: seq<string>): (t': Tables)
    ensures t'.run.status.Succeeded? && t'.lease == t.lease && t'.approvals == t.approvals
  {
    var result := Outcome(outcome, summary, refs);
    Save(t, t.run.(status := Status.Succeeded, step := t.run.step + 1, pendingAction := None, pendingDigest := None,
                   result := Some(result)), [Note(0, Fine, RunSucceeded(result))])
  }

  function Pause(t: Tables, action: Action): (t': Tables)
    requires action.CallTool?
    ensures t'.run.status.WaitingApproval? && t'.lease == t.lease && t'.approvals == t.approvals
  {
    Save(t, t.run.(status := Status.WaitingApproval, pendingApproval := true, pendingAction := Some(action),
                   pendingDigest := Some(OfAction(action))),
         [Note(0, Fine, WaitingFor(t.run.step, action.tool, OfAction(action)))])
  }

  function Checkpoint(t: Tables, output: Output, attempts: nat, cached: bool): (t': Tables)
    ensures t'.run.status == t.run.status && t'.run.step == t.run.step + 1 && t'.run.pendingAction.None?
    ensures t'.lease == t.lease && t'.approvals == t.approvals
  {
    var run := CheckpointRun(t.run, output);
    Save(t, run, [Note(0, Fine,
        Checkpointed(t.run.step, attempts, run.step, cached, OfOutput(output), OfContext(run.context)))])
  }

  // ---------------------------------------------------------------- one pass of the loop

  lemma {:induction false} AttemptsKeep(t: Tables, action: Action, faults: seq<FaultRule>, n: nat)
    requires action.CallTool? && Registered(action.tool) && 1 <= n <= Limit(t.run.mode)
    ensures var t' := AttemptsFrom(t, action, faults, n).0;
            t' == t.(counter := t'.counter, events := t'.events)
    decreases Limit(t.run.mode) - n
  {
    OneAttemptKeepsRun(t, action, faults, n);
    var fault := FaultFor(faults, action.tool, n);
    if fault.Some? && Transient(fault.value) && n < Limit(t.run.mode) {
      AttemptsKeep(OneAttempt(t, action, faults, n), action, faults, n + 1);
    }
  }

  lemma CallKeeps(t: Tables, action: Action, faults: seq<FaultRule>, token: Token, now: int, seconds: nat)
    requires action.CallTool?
    ensures var t' := Call(t, action, faults, token, now, seconds).0;
            t'.run == t.run && t'.lease == t.lease && t'.approvals == t.approvals
  {
    hide AttemptsFrom, Unclaimed;
    if PreflightCode(faults, action).None? {
      AttemptsKeep(t, action, faults, 1);
      if action.key.Some? {
        AttemptsKeep(ClaimTool(t, action.key.value, token, OfRequest(action.tool, action.args), true, now, seconds).0,
            action, faults, 1);
      }
    }
  }

  /** The call of a stable action and the save that follows it. */
  function Perform(job: Job, t: Tables, action: Action): (t': Tables)
    requires action.CallTool? && t.run.status.Running?
    ensures t'.run.status.Running? ==> t'.run.step == t.run.step + 1 && t'.run.pendingAction.None?
    ensures t'.lease == t.lease && t'.approvals == t.approvals
  {
    CallKeeps(t, action, job.faults, t.counter, job.now, job.claimSeconds);
    var (called, result) := Call(t, action, job.faults, t.counter, job.now, job.claimSeconds);
    match result
    case CallFailed(code, _, _) => Terminate(called, code, Bare, false)
    case CallOk(output, attempts, cached) => Checkpoint(called, output, attempts, cached)
  }

  /** A tool action after `stabilize_action`: preflight, approval, call. */
  function CarryCall(job: Job, t: Tables, action: Action): (t': Tables)
    requires action.CallTool? && t.run.status.Running?
    ensures t'.run.status.Running? ==> t'.run.step == t.run.step + 1 && t'.run.pendingAction.None?
    ensures t'.lease == t.lease && t'.approvals == t.approvals
  {
    var step := t.run.step;
    var failure := PreflightCode(job.faults, action);
    if failure.Some? then
      Terminate(Append(t, Note(0, Error, PreflightFailed(step, action.tool, OfAction(action), failure.value))),
          failure.value, Bare, false)
    else if RequiresApproval(action.tool) && step !in t.approvals then Pause(t, action)
    else if RequiresApproval(action.tool) && t.approvals[step].digest != OfAction(action)
        then Terminate(t, ApprovalMismatch, Bare, false)
    else if RequiresApproval(action.tool) && !t.approvals[step].allow then Terminate(t, ApprovalDeniedCode, Bare, false)
    else Perform(job, t, action)
  }

  /** Announce an action and carry it out. */
  function Carry(job: Job, t: Tables, action: Action): (t': Tables)
    requires t.run.status.Running?
    ensures t'.run.status.Running? ==> t'.run.step == t.run.step + 1 && t'.run.pendingAction.None?
    ensures t'.lease == t.lease && t'.approvals == t.approvals
  {
    var announced := Append(t, Note(0, Fine, PolicyAction(t.run.step, action)));
    match action
    case Finish(summary, refs, outcome) => Succeed(announced, outcome, summary, refs)
    case Fail(code, explanation) => Terminate(announced, code, Explained(explanation), true)
    case CallTool(_, _, _) => CarryCall(job, announced, Stabilise(t.run.step, action))
  }

  function Reserve(t: Tables): (t': Tables)
    ensures t'.run.status == t.run.status && t'.run.step == t.run.step && t'.lease == t.lease
    ensures t'.approvals == t.approvals
  {
    Save(t, t.run.(policyCalls := Used(t.run) + 1), [])
  }

  function Used(run: Run): nat {
    if run.step > run.policyCalls then run.step else run.policyCalls
  }

  /** One iteration of `while run.status is RUNNING`, with the scripted policy. */
  function Pass(job: Job, t: Tables): (t': Tables)
    requires t.run.status.Running?
    ensures t'.run.status.Running? ==>
              && t'.run.step == t.run.step + 1 && t'.run.pendingAction.None?
              && (t.run.pendingAction.None? ==> t.run.step < |job.actions|)
    ensures t'.lease == t.lease && t'.approvals == t.approvals
  {
    if t.run.pendingAction.Some? then Carry(job, t, t.run.pendingAction.value)
    else if Used(t.run) >= job.budget then Terminate(t, ActionBudgetExhausted, Bare, false)
    else if t.run.step >= |job.actions|
        then Terminate(Reserve(t), PolicyError, Explained("PolicyExhaustedError"), false)
    else Carry(job, Reserve(t), job.actions[t.run.step])
  }

  function Remaining(job: Job, run: Run): nat {
    (if run.step < |job.actions| then |job.actions| - run.step else 0) + (if run.pendingAction.Some? then 1 else 0)
  }

  /** The loop: passes until the run is no longer running. */
  function Loop(job: Job, t: Tables): (t': Tables)
    ensures !t'.run.status.Running? && t'.lease == t.lease && t'.approvals == t.approvals
    decreases if t.run.status.Running? then 1 else 0, Remaining(job, t.run)
  {
    if t.run.status.Running? then Loop(job, Pass(job, t)) else t
  }

  // ---------------------------------------------------------------- executions and cases

  function Enter(t: Tables): (t': Tables)
    ensures t'.lease == t.lease && t'.approvals == t.approvals
  {
    if t.run.status.Queued? || t.run.status.WaitingApproval? then
      Save(t, t.run.(status := Status.Running, pendingApproval := false), [Note(0, Fine, RunRunning(t.run.status))])
    else if t.run.status.Running? then Append(t, Note(0, Fine, RunRunning(Status.Running)))
    else t
  }

  /** `_execute_owned`: claim the lease, execute, release it. */
  function ExecuteOwned(job: Job, t: Tables, token: Token): Tables {
    Loop(job, Enter(t.(lease := Some(Lease(token, job.now + job.leaseSeconds))))).(lease := None)
  }

  /** The frozen suite's approval of the pending action. */
  function SuiteApproval(digest: Digest): ApprovalRow {
    ApprovalRow(digest, REVIEWER, true, Some("frozen suite approval"))
  }

  /** `_run_case` up to the first stop, under the first owner token. */
  function FirstStop(scenario: Scenario, mode: Mode, job: Job): Tables {
    ExecuteOwned(job, Fresh(NewRun(mode, scenario.context)), 0)
  }

  /** The runner's decision, made once, at the first stop. */
  function Decide(scenario: Scenario, job: Job, t: Tables): Tables {
    if !t.run.status.WaitingApproval? || !scenario.approvalSupplied || t.run.pendingDigest.None? then t
    else
      match Rows.Record(t, t.run.step, SuiteApproval(t.run.pendingDigest.value), true)
      case Err(_) => t
      case Ok(decided) => ExecuteOwned(job, decided, 1)
  }

  function RunCase(scenario: Scenario, mode: Mode, job: Job): Tables {
    Decide(scenario, job, FirstStop(scenario, mode, job))
  }

  /** How often the backend's `prepare_rollback` ran: an injected fault never reaches it. */
  function Writes(events: seq<Event>): nat {
    if events == [] then 0
    else
      var rest, body := Writes(events[..|events| - 1]), events[|events| - 1].note.body;
      if body.AttemptClosed? && body.closing.ClosedOk? && IsWrite(body.id.tool) then rest + 1 else rest
  }

  /** A reviewer's answer to whatever the run waits for. */
  datatype Answer = Answer(actor: string, allow: bool, reason: Option<string>)

  /** `_deny`: one save with both events, under a lease of its own. */
  function Deny(t: Tables, digest: Digest, answer: Answer): (t': Tables)
    ensures t'.run.status.Failed?
  {
    Save(t, Ended(t.run, ApprovalDeniedCode, Reasoned(answer.reason), false),
         [Note(0, Error, ApprovalDenied(t.run.step, digest, answer.actor, answer.reason)),
          Note(0, Error, RunFailed(Failure(ApprovalDeniedCode, Reasoned(answer.reason))))]).(lease := None)
  }

  /** `approve`, for the action the run waits for and with nobody else at work. */
  function Approve(job: Job, t: Tables, answer: Answer, token: Token): Tables {
    if !t.run.status.WaitingApproval? || t.run.pendingDigest.None? then t
    else
      var digest := t.run.pendingDigest.value;
      match Rows.Record(t, t.run.step, ApprovalRow(digest, answer.actor, answer.allow, answer.reason), true)
      case Err(_) => t
      case Ok(decided) => if answer.allow then ExecuteOwned(job, decided, token) else Deny(decided, digest, answer)
  }

  // ---------------------------------------------------------------- traces only grow

  ghost predicate Grows(t: Tables, t': Tables) {
    && |t.events| <= |t'.events| && t'.events[..|t.events|] == t.events && t'.counter >= t.counter
    && (Contiguous(t) ==> Contiguous(t'))
  }

  lemma GrowsOn(t: Tables, u: Tables, v: Tables)
    requires Grows(t, u) && Grows(u, v)
    ensures Grows(t, v)
  {
    assert v.events[..|t.events|] == u.events[..|t.events|];
  }

  lemma SaveGrows(t: Tables, run: Run, notes: seq<Note>)
    ensures Grows(t, Save(t, run, notes))
  {
    AppendAllKeeps(t.(run := run.(version := t.run.version + 1)), notes);
  }

  lemma AppendGrows(t: Tables, note: Note)
    ensures Grows(t, Append(t, note))
  {
  }

  lemma {:induction false} AttemptsGrow(t: Tables, action: Action, faults: seq<FaultRule>, n: nat)
    requires action.CallTool? && Registered(action.tool) && 1 <= n <= Limit(t.run.mode)
    ensures Grows(t, AttemptsFrom(t, action, faults, n).0)
    decreases Limit(t.run.mode) - n
  {
    var fault := FaultFor(faults, action.tool, n);
    var notes := AttemptNotes(AttemptId(t.run.step, action.tool, n), t.counter + 1, fault,
        BackendOutput(action.tool, action.args));
    AppendAllKeeps(t, notes);
    var t1 := OneAttempt(t, action, faults, n);
    assert Grows(t, t1);
    hide Grows, OneAttempt;
    if fault.Some? && Transient(fault.value) && n < Limit(t.run.mode) {
      AttemptsGrow(t1, action, faults, n + 1);
      GrowsOn(t, t1, AttemptsFrom(t1, action, faults, n + 1).0);
    }
  }

  lemma CallGrows(t: Tables, action: Action, faults: seq<FaultRule>, token: Token, now: int, seconds: nat)
    requires action.CallTool?
    ensures Grows(t, Call(t, action, faults, token, now, seconds).0)
  {
    hide AttemptsFrom, Unclaimed;
    if PreflightCode(faults, action).None? {
      AttemptsGrow(t, action, faults, 1);
      if action.key.Some? {
        AttemptsGrow(ClaimTool(t, action.key.value, token, OfRequest(action.tool, action.args), true, now, seconds).0,
            action, faults, 1);
      }
    }
  }

  lemma TerminateGrows(t: Tables, code: Code, detail: FailureDetail, advance: bool)
    ensures Grows(t, Terminate(t, code, detail, advance))
  {
    SaveGrows(t, Ended(t.run, code, detail, advance), [Note(0, Error, RunFailed(Failure(code, detail)))]);
  }

  lemma CheckpointGrows(t: Tables, output: Output, attempts: nat, cached: bool)
    ensures Grows(t, Checkpoint(t, output, attempts, cached))
  {
    var run := CheckpointRun(t.run, output);
    SaveGrows(t, run, [Note(0, Fine,
        Checkpointed(t.run.step, attempts, run.step, cached, OfOutput(output), OfContext(run.context)))]);
  }

  lemma PauseGrows(t: Tables, action: Action)
    requires action.CallTool?
    ensures Grows(t, Pause(t, action))
  {
    SaveGrows(t, t.run.(status := Status.WaitingApproval, pendingApproval := true, pendingAction := Some(action),
                        pendingDigest := Some(OfAction(action))),
              [Note(0, Fine, WaitingFor(t.run.step, action.tool, OfAction(action)))]);
  }

  lemma SucceedGrows(t: Tables, outcome: Code, summary: string, refs: seq<string>)
    ensures Grows(t, Succeed(t, outcome, summary, refs))
  {
    var result := Outcome(outcome, summary, refs);
    SaveGrows(t, t.run.(status := Status.Succeeded, step := t.run.step + 1, pendingAction := None,
        pendingDigest := None,
                        result := Some(result)), [Note(0, Fine, RunSucceeded(result))]);
  }

  lemma PerformGrows(job: Job, t: Tables, action: Action)
    requires action.CallTool? && t.run.status.Running?
    ensures Grows(t, Perform(job, t, action))
  {
    CallGrows(t, action, job.faults, t.counter, job.now, job.claimSeconds);
    var (called, result) := Call(t, action, job.faults, t.counter, job.now, job.claimSeconds);
    hide Call, Grows, Terminate, Checkpoint;
    match result
    case CallFailed(code, _, _) =>
      TerminateGrows(called, code, Bare, false);
      GrowsOn(t, called, Terminate(called, code, Bare, false));
    case CallOk(output, attempts, cached) =>
      CheckpointGrows(called, output, attempts, cached);
      GrowsOn(t, called, Checkpoint(called, output, attempts, cached));
  }

  lemma CarryCallGrows(job: Job, t: Tables, action: Action)
    requires action.CallTool? && t.run.status.Running?
    ensures Grows(t, CarryCall(job, t, action))
  {
    hide Grows, Terminate, Pause, Perform;
    var failure := PreflightCode(job.faults, action);
    if failure.Some? {
      var note := Note(0, Error, PreflightFailed(t.run.step, action.tool, OfAction(action), failure.value));
      AppendGrows(t, note);
      TerminateGrows(Append(t, note), failure.value, Bare, false);
      GrowsOn(t, Append(t, note), Terminate(Append(t, note), failure.value, Bare, false));
    } else {
      PauseGrows(t, action);
      TerminateGrows(t, ApprovalMismatch, Bare, false);
      TerminateGrows(t, ApprovalDeniedCode, Bare, false);
      PerformGrows(job, t, action);
    }
  }

  lemma CarryGrows(job: Job, t: Tables, action: Action)
    requires t.run.status.Running?
    ensures Grows(t, Carry(job, t, action))
  {
    var note := Note(0, Fine, PolicyAction(t.run.step, action));
    AppendGrows(t, note);
    var announced := Append(t, note);
    hide Grows, Terminate, Succeed, CarryCall;
    match action
    case Finish(summary, refs, outcome) => SucceedGrows(announced, outcome, summary, refs);
    case Fail(code, explanation) => TerminateGrows(announced, code, Explained(explanation), true);
    case CallTool(_, _, _) => CarryCallGrows(job, announced, Stabilise(t.run.step, action));
    GrowsOn(t, announced, Carry(job, t, action));
  }

  lemma ReserveGrows(t: Tables)
    ensures Grows(t, Reserve(t))
  {
    SaveGrows(t, t.run.(policyCalls := Used(t.run) + 1), []);
  }

  lemma PassGrows(job: Job, t: Tables)
    requires t.run.status.Running?
    ensures Grows(t, Pass(job, t))
  {
    ReserveGrows(t);
    hide Grows, Terminate, Carry, Reserve;
    if t.run.pendingAction.Some? {
      CarryGrows(job, t, t.run.pendingAction.value);
    } else if Used(t.run) >= job.budget {
      TerminateGrows(t, ActionBudgetExhausted, Bare, false);
    } else if t.run.step >= |job.actions| {
      TerminateGrows(Reserve(t), PolicyError, Explained("PolicyExhaustedError"), false);
      GrowsOn(t, Reserve(t), Pass(job, t));
    } else {
      CarryGrows(job, Reserve(t), job.actions[t.run.step]);
      GrowsOn(t, Reserve(t), Pass(job, t));
    }
  }

  /** However a run ends, its trace extends what was there, numbered without a gap. */
  lemma {:induction false} LoopGrows(job: Job, t: Tables)
    ensures Grows(t, Loop(job, t))
    decreases if t.run.status.Running? then 1 else 0, Remaining(job, t.run)
  {
    if t.run.status.Running? {
      hide Grows, Pass;
      PassGrows(job, t);
      LoopGrows(job, Pass(job, t));
      GrowsOn(t, Pass(job, t), Loop(job, t));
    }
  }
}

/** The same as the source runs it: methods over the store, in place. */
module DesktopWorker {
  import opened Domain
  import opened Rows
  import opened Store
  import opened Gateway
  import Handlers = GatewayHandlers
  import opened Protocol
  import opened Desktop

  ghost predicate Holding(store: RunStore, id: RunId, token: Token, job: Job)
    reads store
  {
    && id in store.rows && Owns(store.rows[id].lease, token, job.now)
    && store.leaseSeconds == job.leaseSeconds && store.claimSeconds == job.claimSeconds
  }

  /** Nobody holds the run at this moment: no lease, or one that has run out. */
  predicate Unheld(t: Tables, now: int) {
    t.lease.None? || t.lease.value.expires <= now
  }

  /** `call`, answered by the incident backend. */
  method CallTool(store: RunStore, id: RunId, action: Action, job: Job) returns (result: CallResult)
    requires id in store.rows && action.CallTool? && store.claimSeconds == job.claimSeconds
    modifies store
    ensures var t := old(store.rows)[id];
            var (t', expected) := Call(t, action, job.faults, t.counter, job.now, job.claimSeconds);
            store.rows == old(store.rows)[id := t'] && result == expected
  {
    hide Call, Handlers.CallWith;
    Handlers.BackendCall(store.rows[id], action, job.faults, store.rows[id].counter, job.now, job.claimSeconds);
    var answered := Handlers.CallTool(store, id, action, job.faults, Handlers.BackendMoments(action),
        store.rows[id].counter, job.now);
    result := answered.value;
  }

  /** `_save` and `_save_with_event`, for the lease holder. */
  method SaveHeld(store: RunStore, id: RunId, token: Token, job: Job, run: Run, notes: seq<Note>) returns (saved: Run)
    requires Holding(store, id, token, job)
    modifies store
    ensures store.rows == old(store.rows)[id := Save(old(store.rows)[id], run, notes)]
    ensures Holding(store, id, token, job) && saved == store.rows[id].run
  {
    var written := store.SaveRunOwned(id, run, notes, token, store.rows[id].run.version, job.now);
    saved := written.value;
  }

  /** `_terminal_failure`. */
  method TerminalFailure(store: RunStore, id: RunId, token: Token, job: Job, run: Run, code: Code,
      detail: FailureDetail, advance: bool)
    returns (saved: Run)
    requires Holding(store, id, token, job) && run == store.rows[id].run
    modifies store
    ensures store.rows == old(store.rows)[id := Terminate(old(store.rows)[id], code, detail, advance)]
    ensures Holding(store, id, token, job) && saved == store.rows[id].run
  {
    saved := SaveHeld(store, id, token, job, Ended(run, code, detail, advance),
        [Note(0, Error, RunFailed(Failure(code, detail)))]);
  }

  /** The body of the loop for one tool action, from `stabilize_action` to the checkpoint. */
  method CarryOut(store: RunStore, id: RunId, token: Token, job: Job, held: Run, chosen: Action) returns (run: Run)
    requires Holding(store, id, token, job) && held == store.rows[id].run && held.status.Running? && chosen.CallTool?
    modifies store
    ensures store.rows == old(store.rows)[id := CarryCall(job, old(store.rows)[id], Stabilise(held.step, chosen))]
    ensures Holding(store, id, token, job) && run == store.rows[id].run
  {
    hide Call, Save, Terminate;
    var action := Stabilise(held.step, chosen);
    var digest := OfAction(action);
    var failure := PreflightCode(job.faults, action);
    if failure.Some? {
      var event := store.AppendEvent(id,
          Note(0, Error, PreflightFailed(held.step, action.tool, digest, failure.value)));
      run := TerminalFailure(store, id, token, job, held, failure.value, Bare, false);
      return;
    }
    if RequiresApproval(action.tool) {
      var approvals := store.rows[id].approvals;
      if held.step !in approvals {
        run := SaveHeld(store, id, token, job,
          held.(status := Status.WaitingApproval, pendingApproval := true, pendingAction := Some(action),
              pendingDigest := Some(digest)),
          [Note(0, Fine, WaitingFor(held.step, action.tool, digest))]);
        return;
      }
      if approvals[held.step].digest != digest {
        run := TerminalFailure(store, id, token, job, held, ApprovalMismatch, Bare, false);
        return;
      }
      if !approvals[held.step].allow {
        run := TerminalFailure(store, id, token, job, held, ApprovalDeniedCode, Bare, false);
        return;
      }
    }
    run := CallAndSave(store, id, token, job, held, action);
  }

  method CallAndSave(store: RunStore, id: RunId, token: Token, job: Job, held: Run, action: Action) returns (run: Run)
    requires Holding(store, id, token, job) && held == store.rows[id].run && held.status.Running? && action.CallTool?
    modifies store
    ensures store.rows == old(store.rows)[id := Perform(job, old(store.rows)[id], action)]
    ensures Holding(store, id, token, job) && run == store.rows[id].run
  {
    hide Call, Save, Terminate;
    CallKeeps(store.rows[id], action, job.faults, store.rows[id].counter, job.now, job.claimSeconds);
    var result := CallTool(store, id, action, job);
    match result
    case CallFailed(code, _, _) =>
      run := TerminalFailure(store, id, token, job, held, code, Bare, false);
    case CallOk(output, attempts, cached) =>
      var next := CheckpointRun(held, output);
      run := SaveHeld(store, id, token, job, next,
        [Note(0, Fine, Checkpointed(held.step, attempts, next.step, cached, OfOutput(output),
            OfContext(next.context)))]);
  }

  /** `execute`: the loop of the orchestrator, with the scripted policy. */
  method Execute(store: RunStore, id: RunId, token: Token, job: Job)
    requires Holding(store, id, token, job)
    modifies store
    ensures store.rows == old(store.rows)[id := Loop(job, Enter(old(store.rows)[id]))]
    ensures Holding(store, id, token, job)
  {
    hide Save, Terminate, CarryCall, Used;
    var run := store.rows[id].run;
    if run.status.Queued? || run.status.WaitingApproval? {
      run := SaveHeld(store, id, token, job, run.(status := Status.Running, pendingApproval := false),
                      [Note(0, Fine, RunRunning(run.status))]);
    } else if run.status.Running? {
      var event := store.AppendEvent(id, Note(0, Fine, RunRunning(Status.Running)));
    }
    ghost var entered := store.rows[id];
    while run.status.Running?
      invariant Holding(store, id, token, job) && run == store.rows[id].run
      invariant store.rows == old(store.rows)[id := store.rows[id]]
      invariant Loop(job, store.rows[id]) == Loop(job, entered)
      decreases if run.status.Running? then 1 else 0, Remaining(job, run)
    {
      run := OnePass(store, id, token, job, run);
    }
  }

  method OnePass(store: RunStore, id: RunId, token: Token, job: Job, held: Run) returns (run: Run)
    requires Holding(store, id, token, job) && held == store.rows[id].run && held.status.Running?
    modifies store
    ensures store.rows == old(store.rows)[id := Pass(job, old(store.rows)[id])]
    ensures Holding(store, id, token, job) && run == store.rows[id].run
  {
    hide Save, Terminate, CarryCall;
    run := held;
    var action := Fail(PolicyError, "");
    if run.pendingAction.Some? {
      action := run.pendingAction.value;
    } else {
      var used := if run.step > run.policyCalls then run.step else run.policyCalls;
      if used >= job.budget {
        run := TerminalFailure(store, id, token, job, run, ActionBudgetExhausted, Bare, false);
        return;
      }
      run := SaveHeld(store, id, token, job, run.(policyCalls := used + 1), []);
      if run.step >= |job.actions| {
        run := TerminalFailure(store, id, token, job, run, PolicyError, Explained("PolicyExhaustedError"), false);
        return;
      }
      action := job.actions[run.step];
    }
    run := AnnounceAndCarry(store, id, token, job, run, action);
  }

  method AnnounceAndCarry(store: RunStore, id: RunId, token: Token, job: Job, held: Run, action: Action)
      returns (run: Run)
    requires Holding(store, id, token, job) && held == store.rows[id].run && held.status.Running?
    modifies store
    ensures store.rows == old(store.rows)[id := Carry(job, old(store.rows)[id], action)]
    ensures Holding(store, id, token, job) && run == store.rows[id].run
  {
    hide Save, Terminate, CarryCall;
    var event := store.AppendEvent(id, Note(0, Fine, PolicyAction(held.step, action)));
    match action
    case Finish(summary, refs, outcome) =>
      var result := Outcome(outcome, summary, refs);
      run := SaveHeld(store, id, token, job,
        held.(status := Status.Succeeded, step := held.step + 1, pendingAction := None, pendingDigest := None,
            result := Some(result)),
        [Note(0, Fine, RunSucceeded(result))]);
    case Fail(code, explanation) =>
      run := TerminalFailure(store, id, token, job, held, code, Explained(explanation), true);
    case CallTool(_, _, _) =>
      run := CarryOut(store, id, token, job, held, action);
  }

  /** `_execute_owned`, for a run nobody holds. */
  method RunOwned(store: RunStore, id: RunId, token: Token, job: Job)
    requires id in store.rows && Unheld(store.rows[id], job.now) && 0 < job.leaseSeconds
    requires store.leaseSeconds == job.leaseSeconds && store.claimSeconds == job.claimSeconds
    modifies store
    ensures store.rows == old(store.rows)[id := ExecuteOwned(job, old(store.rows)[id], token)]
  {
    hide Loop, Enter;
    var claimed := store.ClaimRunExecution(id, token, job.now);
    Execute(store, id, token, job);
    var released := store.ReleaseRunExecution(id, token);
  }

  /** `approve`, and `_deny` when the answer is no. */
  method ApproveOn(store: RunStore, id: RunId, job: Job, answer: Answer, token: Token)
    requires id in store.rows && Unheld(store.rows[id], job.now) && 0 < job.leaseSeconds
    requires store.leaseSeconds == job.leaseSeconds && store.claimSeconds == job.claimSeconds
    modifies store
    ensures store.rows == old(store.rows)[id := Approve(job, old(store.rows)[id], answer, token)]
  {
    hide Loop, Enter, ExecuteOwned, Save;
    var run := store.rows[id].run;
    if !run.status.WaitingApproval? || run.pendingDigest.None? {
      return;
    }
    var digest := run.pendingDigest.value;
    var recorded := store.RecordApproval(id, run.step, ApprovalRow(digest, answer.actor, answer.allow, answer.reason),
        true);
    if recorded.Err? {
      return;
    }
    if answer.allow {
      RunOwned(store, id, token, job);
    } else {
      DenyOn(store, id, job, digest, answer, token);
    }
  }

  method DenyOn(store: RunStore, id: RunId, job: Job, digest: Digest, answer: Answer, token: Token)
    requires id in store.rows && Unheld(store.rows[id], job.now) && store.rows[id].run.status.WaitingApproval?
    requires 0 < job.leaseSeconds
    requires store.leaseSeconds == job.leaseSeconds && store.claimSeconds == job.claimSeconds
    modifies store
    ensures store.rows == old(store.rows)[id := Deny(old(store.rows)[id], digest, answer)]
  {
    ghost var t := store.rows[id];
    var claimed := store.ClaimRunExecution(id, token, job.now);
    var run := claimed.value;
    var saved := SaveHeld(store, id, token, job, Ended(run, ApprovalDeniedCode, Reasoned(answer.reason), false),
      [Note(0, Error, ApprovalDenied(run.step, digest, answer.actor, answer.reason)),
       Note(0, Error, RunFailed(Failure(ApprovalDeniedCode, Reasoned(answer.reason))))]);
    var released := store.ReleaseRunExecution(id, token);
    LeaseAside(t, Some(Lease(token, job.now + job.leaseSeconds)),
        Ended(run, ApprovalDeniedCode, Reasoned(answer.reason), false),
      [Note(0, Error, ApprovalDenied(run.step, digest, answer.actor, answer.reason)),
       Note(0, Error, RunFailed(Failure(ApprovalDeniedCode, Reasoned(answer.reason))))]);
  }

  /** A save under a lease leaves the same rows as one beside it. */
  lemma LeaseAside(t: Tables, lease: Option<Lease>, run: Run, notes: seq<Note>)
    ensures Save(t.(lease := lease), run, notes).(lease := None) == Save(t, run, notes).(lease := None)
  {
    SaveBesideLease(t.(run := run.(version := t.run.version + 1)), lease, notes);
  }

  lemma {:induction false} SaveBesideLease(t: Tables, lease: Option<Lease>, notes: seq<Note>)
    ensures AppendAll(t.(lease := lease), notes) == AppendAll(t, notes).(lease := lease)
  {
    if notes != [] {
      SaveBesideLease(t, lease, notes[..|notes| - 1]);
    }
  }

  /** `_run_case`: start, and once approve what the run waits for. */
  method RunCaseOn(store: RunStore, id: RunId, scenario: Scenario, mode: Mode, job: Job)
    requires id !in store.rows && 0 < job.leaseSeconds
    requires store.leaseSeconds == job.leaseSeconds && store.claimSeconds == job.claimSeconds
    modifies store
    ensures store.rows == old(store.rows)[id := RunCase(scenario, mode, job)]
  {
    hide Loop, Enter;
    var saved := store.SaveRun(id, NewRun(mode, scenario.context), None);
    RunOwned(store, id, 0, job);
    var run := store.rows[id].run;
    if run.status.WaitingApproval? && scenario.approvalSupplied && run.pendingDigest.Some? {
      var recorded := store.RecordApproval(id, run.step, SuiteApproval(run.pendingDigest.value), true);
      if recorded.Ok? {
        RunOwned(store, id, 1, job);
      }
    }
  }
}
