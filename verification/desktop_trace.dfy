/** What the trace of one uncrashed worker says about its run row: the last checkpoint holds
    the digest of the context, and the last event is the stop the row records. */
module DesktopTrace {
  import opened Domain
  import opened Rows
  import opened Gateway
  import opened Protocol
  import opened Desktop

  /** The context digest of the last checkpoint, or the digest the run began with. */
  function LastContext(initial: Digest, events: seq<Event>): Digest {
    if events == [] then initial
    else
      var body := events[|events| - 1].note.body;
      if body.Checkpointed? then body.contextDigest else LastContext(initial, events[..|events| - 1])
  }

  /** The event with which a save stops the run. */
  predicate Closing(run: Run, body: Body) {
    match run.status
    case Succeeded => run.result.Some? && body == RunSucceeded(run.result.value)
    case Failed => run.result.Some? && body == RunFailed(run.result.value)
    case WaitingApproval => body.WaitingFor?
    case _ => true
  }

  predicate Faithful(initial: Digest, t: Tables) {
    && LastContext(initial, t.events) == OfContext(t.run.context)
    && (!t.run.status.Queued? && !t.run.status.Running? ==>
        t.events != [] && Closing(t.run, t.events[|t.events| - 1].note.body))
    && (t.approvals == map[] ==> forall i :: 0 <= i < |t.events| ==> !t.events[i].note.body.ApprovalRecorded?)
  }

  lemma AppendFaithful(initial: Digest, t: Tables, note: Note)
    requires Faithful(initial, t) && t.run.status.Running?
    requires !note.body.Checkpointed? && !note.body.ApprovalRecorded?
    ensures Faithful(initial, Append(t, note))
  {
    assert Append(t, note).events[..|t.events|] == t.events;
  }

  lemma SaveFaithful(initial: Digest, t: Tables, run: Run, note: Note)
    requires Faithful(initial, t) && Closing(run, note.body) && !note.body.ApprovalRecorded?
    requires if note.body.Checkpointed? then note.body.contextDigest == OfContext(run.context)
             else run.context == t.run.context
    ensures Faithful(initial, Save(t, run, [note]))
  {
    var start := t.(run := run.(version := t.run.version + 1));
    AppendOne(start, note);
    assert Append(start, note).events[..|t.events|] == t.events;
  }

  lemma ReserveFaithful(initial: Digest, t: Tables)
    requires Faithful(initial, t) && t.run.status.Running?
    ensures Faithful(initial, Reserve(t))
  {
  }

  lemma OneAttemptFaithful(initial: Digest, t: Tables, action: Action, faults: seq<FaultRule>, n: nat)
    requires Faithful(initial, t) && t.run.status.Running? && action.CallTool?
    ensures Faithful(initial, OneAttempt(t, action, faults, n))
  {
    OneAttemptByEvents(t, action, faults, n);
    hide Faithful, BackendOutput;
    var id, span, fault := AttemptId(t.run.step, action.tool, n), t.counter + 1, FaultFor(faults, action.tool, n);
    var t1 := Append(t, Started(id, span));
    AppendFaithful(initial, t, Started(id, span));
    match fault {
      case None => AppendFaithful(initial, t1, SucceededNote(id, span, BackendOutput(action.tool, action.args)));
      case Some(kind) =>
        var t2 := Append(t1, Note(span, Error, FaultInjected(id, kind)));
        AppendFaithful(initial, t1, Note(span, Error, FaultInjected(id, kind)));
        AppendFaithful(initial, t2, FailedNote(id, span, FaultCode(kind), true));
        AppendFaithful(initial, t2, Note(span, Error, OutputRejected(id)));
        AppendFaithful(initial, Append(t2, Note(span, Error, OutputRejected(id))),
            FailedNote(id, span, InvalidOutput, false));
    }
  }

  lemma {:induction false} AttemptsFaithful(initial: Digest, t: Tables, action: Action, faults: seq<FaultRule>, n: nat)
    requires Faithful(initial, t) && t.run.status.Running?
    requires action.CallTool? && Registered(action.tool) && 1 <= n <= Limit(t.run.mode)
    ensures Faithful(initial, AttemptsFrom(t, action, faults, n).0)
    decreases Limit(t.run.mode) - n
  {
    OneAttemptFaithful(initial, t, action, faults, n);
    OneAttemptKeepsRun(t, action, faults, n);
    hide Faithful, OneAttempt;
    var fault := FaultFor(faults, action.tool, n);
    if fault.Some? && Transient(fault.value) && n < Limit(t.run.mode) {
      AttemptsFaithful(initial, OneAttempt(t, action, faults, n), action, faults, n + 1);
    }
  }

  /** Claim rows do not matter. */
  lemma SameRows(initial: Digest, t: Tables, t': Tables)
    requires Faithful(initial, t) && t'.run == t.run && t'.events == t.events && t'.approvals == t.approvals
    ensures Faithful(initial, t')
  {
  }

  lemma CallFaithful(initial: Digest, t: Tables, action: Action, faults: seq<FaultRule>, token: Token, now: int,
      seconds: nat)
    requires Faithful(initial, t) && t.run.status.Running? && action.CallTool?
    ensures Faithful(initial, Call(t, action, faults, token, now, seconds).0)
  {
    hide Faithful, AttemptsFrom, Unclaimed;
    if PreflightCode(faults, action).None? {
      AttemptsFaithful(initial, t, action, faults, 1);
      if action.key.Some? {
        var t0 := ClaimTool(t, action.key.value, token, OfRequest(action.tool, action.args), true, now, seconds).0;
        SameRows(initial, t, t0);
        AttemptsFaithful(initial, t0, action, faults, 1);
        AttemptsKeep(t0, action, faults, 1);
        var tried := AttemptsFrom(t0, action, faults, 1).0;
        SameRows(initial, tried, SettleCall(tried, action, AttemptsFrom(t0, action, faults, 1).1, token).0);
      }
    }
  }

  lemma TerminateFaithful(initial: Digest, t: Tables, code: Code, detail: FailureDetail, advance: bool)
    requires Faithful(initial, t)
    ensures Faithful(initial, Terminate(t, code, detail, advance))
  {
    SaveFaithful(initial, t, Ended(t.run, code, detail, advance), Note(0, Error, RunFailed(Failure(code, detail))));
  }

  lemma CheckpointFaithful(initial: Digest, t: Tables, output: Output, attempts: nat, cached: bool)
    requires Faithful(initial, t) && t.run.status.Running?
    ensures Faithful(initial, Checkpoint(t, output, attempts, cached))
  {
    var run := CheckpointRun(t.run, output);
    SaveFaithful(initial, t, run,
        Note(0, Fine, Checkpointed(t.run.step, attempts, run.step, cached, OfOutput(output), OfContext(run.context))));
  }

  lemma PauseFaithful(initial: Digest, t: Tables, action: Action)
    requires Faithful(initial, t) && action.CallTool?
    ensures Faithful(initial, Pause(t, action))
  {
    SaveFaithful(initial, t,
        t.run.(status := Status.WaitingApproval, pendingApproval := true, pendingAction := Some(action),
                                    pendingDigest := Some(OfAction(action))),
                 Note(0, Fine, WaitingFor(t.run.step, action.tool, OfAction(action))));
  }

  lemma SucceedFaithful(initial: Digest, t: Tables, outcome: Code, summary: string, refs: seq<string>)
    requires Faithful(initial, t)
    ensures Faithful(initial, Succeed(t, outcome, summary, refs))
  {
    var result := Outcome(outcome, summary, refs);
    SaveFaithful(initial, t,
        t.run.(status := Status.Succeeded, step := t.run.step + 1, pendingAction := None, pendingDigest := None,
                                    result := Some(result)), Note(0, Fine, RunSucceeded(result)));
  }

  lemma PerformFaithful(initial: Digest, job: Job, t: Tables, action: Action)
    requires Faithful(initial, t) && t.run.status.Running? && action.CallTool?
    ensures Faithful(initial, Perform(job, t, action))
  {
    CallFaithful(initial, t, action, job.faults, t.counter, job.now, job.claimSeconds);
    CallKeeps(t, action, job.faults, t.counter, job.now, job.claimSeconds);
    var (called, result) := Call(t, action, job.faults, t.counter, job.now, job.claimSeconds);
    hide Call, Faithful, Terminate, Checkpoint;
    match result
    case CallFailed(code, _, _) => TerminateFaithful(initial, called, code, Bare, false);
    case CallOk(output, attempts, cached) => CheckpointFaithful(initial, called, output, attempts, cached);
  }

  lemma CarryFaithful(initial: Digest, job: Job, t: Tables, action: Action)
    requires Faithful(initial, t) && t.run.status.Running?
    ensures Faithful(initial, Carry(job, t, action))
  {
    var note := Note(0, Fine, PolicyAction(t.run.step, action));
    AppendFaithful(initial, t, note);
    var announced := Append(t, note);
    hide Faithful, Terminate, Succeed, CarryCall;
    match action
    case Finish(summary, refs, outcome) => SucceedFaithful(initial, announced, outcome, summary, refs);
    case Fail(code, explanation) => TerminateFaithful(initial, announced, code, Explained(explanation), true);
    case CallTool(_, _, _) => CarryCallFaithful(initial, job, announced, Stabilise(t.run.step, action));
  }

  lemma CarryCallFaithful(initial: Digest, job: Job, t: Tables, action: Action)
    requires Faithful(initial, t) && t.run.status.Running? && action.CallTool?
    ensures Faithful(initial, CarryCall(job, t, action))
  {
    hide Faithful, Terminate, Pause, Perform;
    var failure := PreflightCode(job.faults, action);
    if failure.Some? {
      var note := Note(0, Error, PreflightFailed(t.run.step, action.tool, OfAction(action), failure.value));
      AppendFaithful(initial, t, note);
      TerminateFaithful(initial, Append(t, note), failure.value, Bare, false);
    } else {
      PauseFaithful(initial, t, action);
      TerminateFaithful(initial, t, ApprovalMismatch, Bare, false);
      TerminateFaithful(initial, t, ApprovalDeniedCode, Bare, false);
      PerformFaithful(initial, job, t, action);
    }
  }

  lemma PassFaithful(initial: Digest, job: Job, t: Tables)
    requires Faithful(initial, t) && t.run.status.Running?
    ensures Faithful(initial, Pass(job, t))
  {
    ReserveFaithful(initial, t);
    hide Faithful, Terminate, Carry, Reserve;
    if t.run.pendingAction.Some? {
      CarryFaithful(initial, job, t, t.run.pendingAction.value);
    } else if Used(t.run) >= job.budget {
      TerminateFaithful(initial, t, ActionBudgetExhausted, Bare, false);
    } else if t.run.step >= |job.actions| {
      TerminateFaithful(initial, Reserve(t), PolicyError, Explained("PolicyExhaustedError"), false);
    } else {
      CarryFaithful(initial, job, Reserve(t), job.actions[t.run.step]);
    }
  }

  lemma {:induction false} LoopFaithful(initial: Digest, job: Job, t: Tables)
    requires Faithful(initial, t)
    ensures Faithful(initial, Loop(job, t))
    decreases if t.run.status.Running? then 1 else 0, Remaining(job, t.run)
  {
    if t.run.status.Running? {
      hide Faithful, Pass;
      PassFaithful(initial, job, t);
      LoopFaithful(initial, job, Pass(job, t));
    }
  }

  lemma EnterFaithful(initial: Digest, t: Tables)
    requires Faithful(initial, t)
    ensures Faithful(initial, Enter(t))
  {
    if t.run.status.Queued? || t.run.status.WaitingApproval? {
      SaveFaithful(initial, t, t.run.(status := Status.Running, pendingApproval := false),
          Note(0, Fine, RunRunning(t.run.status)));
    } else if t.run.status.Running? {
      AppendFaithful(initial, t, Note(0, Fine, RunRunning(Status.Running)));
    }
  }

  lemma {:induction false} ExecuteView(job: Job, t: Tables, token: Token)
    ensures ExecuteOwned(job, t, token)
            == Loop(job, Enter(t.(lease := Some(Lease(token, job.now + job.leaseSeconds))))).(lease := None)
  {
    hide Loop, Enter;
  }

  lemma ExecuteFaithful(initial: Digest, job: Job, t: Tables, token: Token)
    requires Faithful(initial, t)
    ensures Faithful(initial, ExecuteOwned(job, t, token))
  {
    var leased := t.(lease := Some(Lease(token, job.now + job.leaseSeconds)));
    ExecuteView(job, t, token);
    hide *;
    SameRows(initial, t, leased);
    EnterFaithful(initial, leased);
    LoopFaithful(initial, job, Enter(leased));
    SameRows(initial, Loop(job, Enter(leased)), ExecuteOwned(job, t, token));
  }

  lemma FirstStopFaithful(scenario: Scenario, mode: Mode, job: Job)
    ensures Faithful(OfContext(scenario.context), FirstStop(scenario, mode, job))
  {
    ExecuteFaithful(OfContext(scenario.context), job, Fresh(NewRun(mode, scenario.context)), 0);
    hide ExecuteOwned;
  }

  /** The row and the trace of a whole case agree, and the suite's approval is in the trace
      only if the case stopped to wait and the scenario supplies it. */
  lemma CaseFaithful(scenario: Scenario, mode: Mode, job: Job)
    ensures var first, t := FirstStop(scenario, mode, job), RunCase(scenario, mode, job);
            && Faithful(OfContext(scenario.context), t)
            && (!first.run.status.WaitingApproval? || !scenario.approvalSupplied ==> t == first)
  {
    FirstStopFaithful(scenario, mode, job);
    var initial, first := OfContext(scenario.context), FirstStop(scenario, mode, job);
    hide ExecuteOwned, Loop;
    if first.run.status.WaitingApproval? && scenario.approvalSupplied && first.run.pendingDigest.Some? {
      var recorded := Rows.Record(first, first.run.step, SuiteApproval(first.run.pendingDigest.value), true);
      if recorded.Ok? {
        DecidedFaithful(initial, job, first, first.run.pendingDigest.value, recorded.value);
      }
    }
  }

  /** After the decision the run no longer ends with its pause; resuming repairs that. */
  lemma {:induction false} ResumedFaithful(initial: Digest, t: Tables)
    requires t.run.status.WaitingApproval? && t.approvals != map[]
    requires LastContext(initial, t.events) == OfContext(t.run.context)
    ensures Faithful(initial, Enter(t))
  {
    var start := t.(run := t.run.(status := Status.Running, pendingApproval := false, version := t.run.version + 1));
    var note := Note(0, Fine, RunRunning(Status.WaitingApproval));
    AppendOne(start, note);
    assert Append(start, note).events[..|t.events|] == t.events;
  }

  lemma DecidedFaithful(initial: Digest, job: Job, first: Tables, digest: Digest, decided: Tables)
    requires Faithful(initial, first) && first.run.status.WaitingApproval?
    requires Rows.Record(first, first.run.step, SuiteApproval(digest), true) == Ok(decided)
    ensures Faithful(initial, ExecuteOwned(job, decided, 1))
  {
    var leased := decided.(lease := Some(Lease(1, job.now + job.leaseSeconds)));
    if decided == first {
      ExecuteFaithful(initial, job, first, 1);
    } else {
      assert decided.events[..|first.events|] == first.events;
      assert first.run.step in decided.approvals;
      assert LastContext(initial, leased.events) == OfContext(leased.run.context);
      ExecuteView(job, decided, 1);
      hide *;
      ResumedFaithful(initial, leased);
      LoopFaithful(initial, job, Enter(leased));
      SameRows(initial, Loop(job, Enter(leased)), ExecuteOwned(job, decided, 1));
    }
  }

  // ---------------------------------------------------------------- denials

  /** The last three events are the decision, the denial and the failure, for this step and answer. */
  predicate TellsDenial(events: seq<Event>, more: seq<Event>, step: nat, digest: Digest, answer: Answer) {
    && |more| == |events| + 3 && more[..|events|] == events
    && more[|events|].note.body == ApprovalRecorded(step, digest, answer.actor, false)
    && more[|events| + 1].note.body == ApprovalDenied(step, digest, answer.actor, answer.reason)
    && more[|events| + 2].note.body == RunFailed(Failure(ApprovalDeniedCode, Reasoned(answer.reason)))
  }

  /** A reviewer who says no to what the run waits for is recorded, told to the trace, and fails the run
      with the given reason at the step it waited at; nothing is pending any more. */
  lemma DenialsAreTold(job: Job, t: Tables, answer: Answer, token: Token)
    requires t.run.status.WaitingApproval? && t.run.pendingApproval && t.run.pendingDigest.Some? && !answer.allow
    requires t.run.step !in t.approvals
    ensures var u, digest := Approve(job, t, answer, token), t.run.pendingDigest.value;
            && TellsDenial(t.events, u.events, t.run.step, digest, answer)
            && u.approvals == t.approvals[t.run.step := ApprovalRow(digest, answer.actor, false, answer.reason)]
            && u.run == t.run.(status := Status.Failed, pendingApproval := false, pendingAction := None,
                pendingDigest := None,
                               result := Some(Failure(ApprovalDeniedCode, Reasoned(answer.reason))),
                               version := t.run.version + 1)
            && u.lease.None? && u.claims == t.claims
  {
    var digest, step := t.run.pendingDigest.value, t.run.step;
    var row := ApprovalRow(digest, answer.actor, false, answer.reason);
    var note := Note(t.counter + 1, Fine, ApprovalRecorded(step, digest, answer.actor, false));
    var decided := Append(t.(approvals := t.approvals[step := row]), note);
    assert Rows.Record(t, step, row, true) == Ok(decided);
    var run := Ended(decided.run, ApprovalDeniedCode, Reasoned(answer.reason), false);
    var denied := Note(0, Error, ApprovalDenied(step, digest, answer.actor, answer.reason));
    var failed := Note(0, Error, RunFailed(Failure(ApprovalDeniedCode, Reasoned(answer.reason))));
    AppendAllKeeps(decided.(run := run.(version := decided.run.version + 1)), [denied, failed]);
    hide AppendAll;
  }
}
