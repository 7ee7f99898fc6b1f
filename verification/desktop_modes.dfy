/** Fragile and resilient runs of one scenario differ only where a transient fault is retried. */
module DesktopModes {
  import opened Domain
  import opened Rows
  import opened Gateway
  import opened Protocol
  import opened Desktop

  function InMode(t: Tables, mode: Mode): Tables {
    t.(run := t.run.(mode := mode))
  }

  predicate NoTransient(faults: seq<FaultRule>) {
    forall i :: 0 <= i < |faults| ==> !Transient(faults[i].kind)
  }

  /** No retry could have made a difference: the fragile run did not fail, or nothing that
      can be retried is planned. */
  predicate Spared(faults: seq<FaultRule>, t: Tables) {
    !t.run.status.Failed? || NoTransient(faults)
  }

  lemma {:induction false} FaultIsPlanned(faults: seq<FaultRule>, tool: Tool, attempt: nat)
    requires NoTransient(faults) && FaultFor(faults, tool, attempt).Some?
    ensures !Transient(FaultFor(faults, tool, attempt).value)
  {
    if !(faults[0].tool == tool && faults[0].attempt == attempt) {
      FaultIsPlanned(faults[1..], tool, attempt);
    }
  }

  lemma {:induction false} AppendAllElsewhere(t: Tables, run: Run, notes: seq<Note>)
    ensures AppendAll(t.(run := run), notes) == AppendAll(t, notes).(run := run)
  {
    if notes != [] {
      AppendAllElsewhere(t, run, notes[..|notes| - 1]);
    }
  }

  lemma SaveInMode(t: Tables, mode: Mode, run: Run, notes: seq<Note>)
    ensures Save(InMode(t, mode), run.(mode := mode), notes) == InMode(Save(t, run, notes), mode)
  {
    var start := t.(run := run.(version := t.run.version + 1));
    AppendAllElsewhere(start, start.run.(mode := mode), notes);
  }

  lemma TerminateInMode(t: Tables, mode: Mode, code: Code, detail: FailureDetail, advance: bool)
    ensures Terminate(InMode(t, mode), code, detail, advance) == InMode(Terminate(t, code, detail, advance), mode)
  {
    SaveInMode(t, mode, Ended(t.run, code, detail, advance), [Note(0, Error, RunFailed(Failure(code, detail)))]);
    hide Save;
  }

  lemma OneAttemptInMode(t: Tables, mode: Mode, action: Action, faults: seq<FaultRule>, n: nat)
    requires action.CallTool?
    ensures OneAttempt(InMode(t, mode), action, faults, n) == InMode(OneAttempt(t, action, faults, n), mode)
  {
    var notes := AttemptNotes(AttemptId(t.run.step, action.tool, n), t.counter + 1, FaultFor(faults, action.tool, n),
                              BackendOutput(action.tool, action.args));
    AppendAllElsewhere(t, t.run.(mode := mode), notes);
    OneAttemptKeepsRun(t, action, faults, n);
    hide AttemptNotes, BackendOutput, FaultFor;
  }

  /** The retry loop of a fragile run that is not cut short by a transient fault is the
      resilient one's. */
  lemma {:induction false} AttemptsInMode(t: Tables, action: Action, faults: seq<FaultRule>)
    requires t.run.mode.Fragile? && action.CallTool? && Registered(action.tool)
    requires var result := AttemptsFrom(t, action, faults, 1).1; result.CallOk? || !result.retryable
    ensures var (u, result) := AttemptsFrom(t, action, faults, 1);
            AttemptsFrom(InMode(t, Resilient), action, faults, 1) == (InMode(u, Resilient), result)
  {
    OneAttemptInMode(t, Resilient, action, faults, 1);
    hide OneAttempt, BackendOutput, FaultFor;
  }

  lemma SettleInMode(t: Tables, mode: Mode, action: Action, result: CallResult, token: Token)
    requires action.CallTool? && action.key.Some?
    ensures var (u, settled) := SettleCall(t, action, result, token);
            SettleCall(InMode(t, mode), action, result, token) == (InMode(u, mode), settled)
  {
  }

  lemma CallInMode(t: Tables, action: Action, faults: seq<FaultRule>, token: Token, now: int, seconds: nat)
    requires t.run.mode.Fragile? && action.CallTool?
    requires var result := Call(t, action, faults, token, now, seconds).1; result.CallOk? || NoTransient(faults)
    ensures var (u, result) := Call(t, action, faults, token, now, seconds);
            Call(InMode(t, Resilient), action, faults, token, now, seconds) == (InMode(u, Resilient), result)
  {
    if PreflightCode(faults, action).None? && ConsentCode(t.approvals, t.run.step, action).None? {
      if action.key.None? {
        NotRetryable(t, action, faults);
        hide AttemptsFrom, ConsentCode, PreflightCode;
        AttemptsInMode(t, action, faults);
      } else {
        var (t0, answer) := ClaimTool(t, action.key.value, token, OfRequest(action.tool, action.args), true, now,
            seconds);
        assert ClaimTool(InMode(t, Resilient), action.key.value, token, OfRequest(action.tool, action.args), true, now,
            seconds)
               == (InMode(t0, Resilient), answer);
        if Granted(answer, token) {
          NotRetryable(t0, action, faults);
          hide AttemptsFrom, ConsentCode, PreflightCode, ClaimTool, SettleCall, Granted;
          var (tried, result) := AttemptsFrom(t0, action, faults, 1);
          if SettleCall(tried, action, result, token).1.CallOk? {
            SettledOk(tried, action, result, token);
          }
          AttemptsInMode(t0, action, faults);
          SettleInMode(tried, Resilient, action, result, token);
        }
      }
    }
  }

  lemma SettledOk(t: Tables, action: Action, result: CallResult, token: Token)
    requires action.CallTool? && action.key.Some? && SettleCall(t, action, result, token).1.CallOk?
    ensures result.CallOk?
  {
  }

  lemma {:induction false} NotRetryable(t: Tables, action: Action, faults: seq<FaultRule>)
    requires t.run.mode.Fragile? && action.CallTool? && Registered(action.tool)
    ensures NoTransient(faults) ==> var result := AttemptsFrom(t, action, faults, 1).1;
            result.CallOk? || !result.retryable
  {
    if NoTransient(faults) && FaultFor(faults, action.tool, 1).Some? {
      FaultIsPlanned(faults, action.tool, 1);
    }
    hide OneAttempt, BackendOutput, FaultFor;
  }

  lemma PerformInMode(job: Job, t: Tables, action: Action)
    requires t.run.mode.Fragile? && t.run.status.Running? && action.CallTool?
    requires Spared(job.faults, Perform(job, t, action))
    ensures Perform(job, InMode(t, Resilient), action) == InMode(Perform(job, t, action), Resilient)
  {
    var (called, result) := Call(t, action, job.faults, t.counter, job.now, job.claimSeconds);
    hide Call, Save, NoTransient;
    CallInMode(t, action, job.faults, t.counter, job.now, job.claimSeconds);
    match result
    case CallFailed(code, _, _) => TerminateInMode(called, Resilient, code, Bare, false);
    case CallOk(output, attempts, cached) =>
      var run := CheckpointRun(called.run, output);
      SaveInMode(called, Resilient, run,
        [Note(0, Fine, Checkpointed(called.run.step, attempts, run.step, cached, OfOutput(output),
            OfContext(run.context)))]);
  }

  lemma CarryCallInMode(job: Job, t: Tables, action: Action)
    requires t.run.mode.Fragile? && t.run.status.Running? && action.CallTool?
    requires Spared(job.faults, CarryCall(job, t, action))
    ensures CarryCall(job, InMode(t, Resilient), action) == InMode(CarryCall(job, t, action), Resilient)
  {
    hide Save, Terminate, Perform, NoTransient;
    var failure := PreflightCode(job.faults, action);
    if failure.Some? {
      var note := Note(0, Error, PreflightFailed(t.run.step, action.tool, OfAction(action), failure.value));
      TerminateInMode(Append(t, note), Resilient, failure.value, Bare, false);
    } else {
      TerminateInMode(t, Resilient, ApprovalMismatch, Bare, false);
      TerminateInMode(t, Resilient, ApprovalDeniedCode, Bare, false);
      SaveInMode(t, Resilient,
          t.run.(status := Status.WaitingApproval, pendingApproval := true, pendingAction := Some(action),
                                      pendingDigest := Some(OfAction(action))),
                 [Note(0, Fine, WaitingFor(t.run.step, action.tool, OfAction(action)))]);
      hide PreflightCode;
      if CarryCall(job, t, action) == Perform(job, t, action) {
        PerformInMode(job, t, action);
      }
    }
  }

  lemma CarryInMode(job: Job, t: Tables, action: Action)
    requires t.run.mode.Fragile? && t.run.status.Running? && Spared(job.faults, Carry(job, t, action))
    ensures Carry(job, InMode(t, Resilient), action) == InMode(Carry(job, t, action), Resilient)
  {
    hide Save, Terminate, CarryCall, NoTransient, Stabilise;
    var announced := Append(t, Note(0, Fine, PolicyAction(t.run.step, action)));
    match action
    case Finish(summary, refs, outcome) =>
      var result := Outcome(outcome, summary, refs);
      SaveInMode(announced, Resilient,
          announced.run.(status := Status.Succeeded, step := t.run.step + 1, pendingAction := None,
                                                      pendingDigest := None, result := Some(result)),
                                                          [Note(0, Fine, RunSucceeded(result))]);
    case Fail(code, explanation) => TerminateInMode(announced, Resilient, code, Explained(explanation), true);
    case CallTool(_, _, _) => CarryCallInMode(job, announced, Stabilise(t.run.step, action));
  }

  lemma ReserveInMode(t: Tables, mode: Mode)
    ensures Reserve(InMode(t, mode)) == InMode(Reserve(t), mode) && Reserve(t).run.mode == t.run.mode
  {
    SaveInMode(t, mode, t.run.(policyCalls := Used(t.run) + 1), []);
  }

  lemma PassInMode(job: Job, t: Tables)
    requires t.run.mode.Fragile? && t.run.status.Running? && Spared(job.faults, Pass(job, t))
    ensures Pass(job, InMode(t, Resilient)) == InMode(Pass(job, t), Resilient)
  {
    ReserveInMode(t, Resilient);
    hide Terminate, Carry, Reserve, NoTransient;
    if t.run.pendingAction.Some? {
      CarryInMode(job, t, t.run.pendingAction.value);
    } else if Used(t.run) >= job.budget {
      TerminateInMode(t, Resilient, ActionBudgetExhausted, Bare, false);
    } else if t.run.step >= |job.actions| {
      TerminateInMode(Reserve(t), Resilient, PolicyError, Explained("PolicyExhaustedError"), false);
    } else {
      CarryInMode(job, Reserve(t), job.actions[t.run.step]);
    }
  }

  /** A pass never leaves the mode. */
  lemma PassKeepsMode(job: Job, t: Tables)
    requires t.run.status.Running?
    ensures Pass(job, t).run.mode == t.run.mode
  {
    hide Save;
    forall u: Tables, action: Action | action.CallTool? && u.run.status.Running?
      ensures Perform(job, u, action).run.mode == u.run.mode
    {
      CallKeeps(u, action, job.faults, u.counter, job.now, job.claimSeconds);
      hide Call;
    }
    hide Perform;
  }

  lemma {:induction false} LoopInMode(job: Job, t: Tables)
    requires t.run.mode.Fragile? && Spared(job.faults, Loop(job, t))
    ensures Loop(job, InMode(t, Resilient)) == InMode(Loop(job, t), Resilient)
    ensures Loop(job, t).run.mode.Fragile?
    decreases if t.run.status.Running? then 1 else 0, Remaining(job, t.run)
  {
    if t.run.status.Running? {
      PassKeepsMode(job, t);
      hide Pass, NoTransient;
      var u := Pass(job, t);
      assert u.run.status.Failed? ==> Loop(job, u) == u;
      PassInMode(job, t);
      LoopInMode(job, u);
    }
  }

  lemma ExecuteInMode(job: Job, t: Tables, token: Token)
    requires t.run.mode.Fragile? && Spared(job.faults, ExecuteOwned(job, t, token))
    ensures ExecuteOwned(job, InMode(t, Resilient), token) == InMode(ExecuteOwned(job, t, token), Resilient)
    ensures ExecuteOwned(job, t, token).run.mode.Fragile?
  {
    var leased := t.(lease := Some(Lease(token, job.now + job.leaseSeconds)));
    EnterInMode(leased);
    hide Loop, Enter, NoTransient;
    LoopInMode(job, Enter(leased));
  }

  lemma EnterInMode(t: Tables)
    ensures Enter(InMode(t, Resilient)) == InMode(Enter(t), Resilient) && Enter(t).run.mode == t.run.mode
  {
    SaveInMode(t, Resilient, t.run.(status := Status.Running, pendingApproval := false),
        [Note(0, Fine, RunRunning(t.run.status))]);
    hide Save;
  }

  /** If the fragile case does not fail, or the scenario plans no transient fault, then the
      resilient case leaves the same rows and the same trace, event by event, mode aside: the
      same attempts, outputs, checkpoints, approval and result. */
  lemma ModesAgreeUnlessRetried(s: Scenario, job: Job)
    requires job.faults == s.faults
    requires !RunCase(s, Fragile, job).run.status.Failed? || NoTransient(s.faults)
    ensures RunCase(s, Resilient, job) == InMode(RunCase(s, Fragile, job), Resilient)
  {
    var begun := Fresh(NewRun(Fragile, s.context));
    assert Fresh(NewRun(Resilient, s.context)) == InMode(begun, Resilient);
    var first := ExecuteOwned(job, begun, 0);
    assert first.run.status.Failed? ==> RunCase(s, Fragile, job) == first;
    hide ExecuteOwned, NoTransient;
    ExecuteInMode(job, begun, 0);
    if first.run.status.WaitingApproval? && s.approvalSupplied && first.run.pendingDigest.Some? {
      var digest := first.run.pendingDigest.value;
      var recorded := Rows.Record(first, first.run.step, SuiteApproval(digest), true);
      RecordInMode(first, SuiteApproval(digest));
      if recorded.Ok? {
        ExecuteInMode(job, recorded.value, 1);
      }
    }
  }

  lemma RecordInMode(t: Tables, row: ApprovalRow)
    ensures match Rows.Record(t, t.run.step, row, true)
            case Ok(u) => Rows.Record(InMode(t, Resilient), t.run.step, row, true) == Ok(InMode(u, Resilient))
                && u.run.mode == t.run.mode
            case Err(e) => Rows.Record(InMode(t, Resilient), t.run.step, row, true) == Err(e)
  {
  }
}
