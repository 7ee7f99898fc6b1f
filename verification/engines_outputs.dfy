/** What the engines deliver: in both, the output of every succeeded attempt is the backend's answer
    to the action that the scenario has at its step, whatever happened before and after. */
module EnginesOutputs {
  import opened Domain
  import opened Evidence
  import opened Rows
  import opened EngineCalls
  import W = Gateway
  import P = Protocol
  import D = Desktop
  import GO = GateOutputs
  import M = Mobile
  import MS = MobileSafety
  import MT = MobileTrace

  /** The scenario's own answer to an attempt. */
  predicate Answered(actions: seq<Action>, id: AttemptId, output: Output) {
    && id.step < |actions| && actions[id.step].CallTool? && actions[id.step].tool == id.tool
    && output == BackendOutput(id.tool, actions[id.step].args)
  }

  /** The outputs that the given attempts should have delivered. */
  function OutputsOf(actions: seq<Action>, attempts: seq<Attempt>): seq<Accepted> {
    if attempts == [] then []
    else
      var rest, a := OutputsOf(actions, attempts[..|attempts| - 1]), attempts[|attempts| - 1];
      if a.closing.ClosedOk? && a.id.step < |actions| && actions[a.id.step].CallTool?
      then rest + [Accepted(a.id.step, a.id.tool, BackendOutput(a.id.tool, actions[a.id.step].args))] else rest
  }

  // ---------------------------------------------------------------- the desktop

  predicate Honest(actions: seq<Action>, body: Body) {
    body.AttemptClosed? && body.closing.ClosedOk? ==> body.output.Some? && Answered(actions, body.id, body.output.value)
  }

  predicate AllHonest(actions: seq<Action>, events: seq<Event>) {
    forall i :: 0 <= i < |events| ==> Honest(actions, events[i].note.body)
  }

  /** A pending action is the stable form of the scenario's own. */
  predicate PendingIs(actions: seq<Action>, run: Run) {
    run.pendingAction.Some? ==>
      run.step < |actions| && actions[run.step].CallTool?
          && run.pendingAction == Some(W.Stabilise(run.step, actions[run.step]))
  }

  predicate Faithful(job: D.Job, t: Tables) {
    AllHonest(job.actions, t.events) && PendingIs(job.actions, t.run)
  }

  lemma AppendHonest(job: D.Job, t: Tables, note: Note)
    requires AllHonest(job.actions, t.events) && Honest(job.actions, note.body)
    ensures AllHonest(job.actions, Append(t, note).events)
  {
  }

  lemma SaveHonest(job: D.Job, t: Tables, run: Run, note: Note)
    requires AllHonest(job.actions, t.events) && !note.body.AttemptClosed?
    ensures AllHonest(job.actions, D.Save(t, run, [note]).events)
  {
    AppendOne(t.(run := run.(version := t.run.version + 1)), note);
  }

  lemma OneAttemptHonest(job: D.Job, t: Tables, action: Action, n: nat)
    requires AllHonest(job.actions, t.events) && action.CallTool? && t.run.step < |job.actions|
    requires job.actions[t.run.step].CallTool? && job.actions[t.run.step].tool == action.tool
    requires job.actions[t.run.step].args == action.args
    ensures AllHonest(job.actions, W.OneAttempt(t, action, job.faults, n).events)
  {
    W.OneAttemptByEvents(t, action, job.faults, n);
    hide AllHonest, Append, BackendOutput, W.OneAttempt;
    var id, span, fault := AttemptId(t.run.step, action.tool, n), t.counter + 1, FaultFor(job.faults, action.tool, n);
    var t1 := Append(t, Started(id, span));
    AppendHonest(job, t, Started(id, span));
    match fault {
      case None => AppendHonest(job, t1, SucceededNote(id, span, BackendOutput(action.tool, action.args)));
      case Some(kind) =>
        var t2 := Append(t1, Note(span, Error, FaultInjected(id, kind)));
        AppendHonest(job, t1, Note(span, Error, FaultInjected(id, kind)));
        if Transient(kind) {
          AppendHonest(job, t2, FailedNote(id, span, FaultCode(kind), true));
        } else {
          AppendHonest(job, t2, Note(span, Error, OutputRejected(id)));
          AppendHonest(job, Append(t2, Note(span, Error, OutputRejected(id))),
              FailedNote(id, span, InvalidOutput, false));
        }
    }
  }

  lemma {:induction false} AttemptsHonest(job: D.Job, t: Tables, action: Action, n: nat)
    requires AllHonest(job.actions, t.events) && action.CallTool? && t.run.step < |job.actions|
    requires job.actions[t.run.step].CallTool? && job.actions[t.run.step].tool == action.tool
    requires job.actions[t.run.step].args == action.args
    requires Registered(action.tool) && 1 <= n <= W.Limit(t.run.mode)
    ensures AllHonest(job.actions, W.AttemptsFrom(t, action, job.faults, n).0.events)
    decreases W.Limit(t.run.mode) - n
  {
    OneAttemptHonest(job, t, action, n);
    W.OneAttemptKeepsRun(t, action, job.faults, n);
    hide W.OneAttempt, AllHonest, BackendOutput;
    var fault := FaultFor(job.faults, action.tool, n);
    if fault.Some? && Transient(fault.value) && n < W.Limit(t.run.mode) {
      AttemptsHonest(job, W.OneAttempt(t, action, job.faults, n), action, n + 1);
    }
  }

  lemma CallHonest(job: D.Job, t: Tables, action: Action)
    requires AllHonest(job.actions, t.events) && action.CallTool? && t.run.step < |job.actions|
    requires job.actions[t.run.step].CallTool? && job.actions[t.run.step].tool == action.tool
    requires job.actions[t.run.step].args == action.args
    ensures AllHonest(job.actions, W.Call(t, action, job.faults, t.counter, job.now, job.claimSeconds).0.events)
  {
    hide W.AttemptsFrom, AllHonest, W.Unclaimed, W.ConsentCode;
    if W.PreflightCode(job.faults, action).None? {
      AttemptsHonest(job, t, action, 1);
      if action.key.Some? {
        var request := OfRequest(action.tool, action.args);
        AttemptsHonest(job, ClaimTool(t, action.key.value, t.counter, request, true, job.now, job.claimSeconds).0,
            action, 1);
      }
    }
  }

  lemma TerminateFaithful(job: D.Job, t: Tables, code: Code, detail: FailureDetail, advance: bool)
    requires AllHonest(job.actions, t.events)
    ensures Faithful(job, D.Terminate(t, code, detail, advance))
  {
    hide AllHonest, D.Save;
    SaveHonest(job, t, P.Ended(t.run, code, detail, advance), Note(0, Error, RunFailed(Failure(code, detail))));
  }

  lemma CheckpointFaithful(job: D.Job, t: Tables, output: Output, attempts: nat, cached: bool)
    requires AllHonest(job.actions, t.events)
    ensures Faithful(job, D.Checkpoint(t, output, attempts, cached))
  {
    hide AllHonest, D.Save;
    var run := P.CheckpointRun(t.run, output);
    SaveHonest(job, t, run,
        Note(0, Fine, Checkpointed(t.run.step, attempts, run.step, cached, OfOutput(output), OfContext(run.context))));
  }

  /** The call is the scenario's own at the run's step. */
  predicate Own(job: D.Job, run: Run, action: Action) {
    && run.step < |job.actions| && job.actions[run.step].CallTool?
    && action == W.Stabilise(run.step, job.actions[run.step])
  }

  lemma PerformFaithful(job: D.Job, t: Tables, action: Action)
    requires AllHonest(job.actions, t.events) && Own(job, t.run, action) && t.run.status.Running?
    ensures Faithful(job, D.Perform(job, t, action))
  {
    CallHonest(job, t, action);
    D.CallKeeps(t, action, job.faults, t.counter, job.now, job.claimSeconds);
    var (called, result) := W.Call(t, action, job.faults, t.counter, job.now, job.claimSeconds);
    hide W.Call, AllHonest, D.Terminate, D.Checkpoint, W.Stabilise, Faithful;
    match result
    case CallFailed(code, _, _) => TerminateFaithful(job, called, code, Bare, false);
    case CallOk(output, attempts, cached) => CheckpointFaithful(job, called, output, attempts, cached);
  }

  lemma PauseFaithful(job: D.Job, t: Tables, action: Action)
    requires AllHonest(job.actions, t.events) && Own(job, t.run, action)
    ensures Faithful(job, D.Pause(t, action))
  {
    hide AllHonest, W.Stabilise, D.Save;
    SaveHonest(job, t, t.run.(status := Status.WaitingApproval, pendingApproval := true, pendingAction := Some(action),
                              pendingDigest := Some(OfAction(action))),
               Note(0, Fine, WaitingFor(t.run.step, action.tool, OfAction(action))));
  }

  lemma CarryCallFaithful(job: D.Job, t: Tables, action: Action)
    requires AllHonest(job.actions, t.events) && Own(job, t.run, action) && t.run.status.Running?
    ensures Faithful(job, D.CarryCall(job, t, action))
  {
    hide AllHonest, W.Stabilise, D.Perform, D.Pause, D.Terminate, Faithful, W.PreflightCode;
    var failure := W.PreflightCode(job.faults, action);
    if failure.Some? {
      var note := Note(0, Error, PreflightFailed(t.run.step, action.tool, OfAction(action), failure.value));
      AppendHonest(job, t, note);
      TerminateFaithful(job, Append(t, note), failure.value, Bare, false);
    } else {
      PauseFaithful(job, t, action);
      TerminateFaithful(job, t, ApprovalMismatch, Bare, false);
      TerminateFaithful(job, t, ApprovalDeniedCode, Bare, false);
      PerformFaithful(job, t, action);
    }
  }

  lemma CarryFaithful(job: D.Job, t: Tables, action: Action)
    requires AllHonest(job.actions, t.events) && t.run.status.Running?
    requires action.CallTool? ==> Own(job, t.run, W.Stabilise(t.run.step, action))
    ensures Faithful(job, D.Carry(job, t, action))
  {
    hide AllHonest, W.Stabilise, D.CarryCall, D.Terminate, D.Save;
    var note := Note(0, Fine, PolicyAction(t.run.step, action));
    AppendHonest(job, t, note);
    var told := Append(t, note);
    match action
    case Finish(summary, refs, outcome) =>
      var result := Outcome(outcome, summary, refs);
      SaveHonest(job, told, told.run.(status := Status.Succeeded, step := told.run.step + 1, pendingAction := None,
                                      pendingDigest := None, result := Some(result)),
                                          Note(0, Fine, RunSucceeded(result)));
    case Fail(code, explanation) => TerminateFaithful(job, told, code, Explained(explanation), true);
    case CallTool(_, _, _) => CarryCallFaithful(job, told, W.Stabilise(t.run.step, action));
  }

  lemma PassFaithful(job: D.Job, t: Tables)
    requires Faithful(job, t) && t.run.status.Running?
    ensures Faithful(job, D.Pass(job, t))
  {
    var held := D.Reserve(t);
    assert held.events == t.events && held.run.step == t.run.step;
    hide AllHonest, D.Carry, D.Terminate, D.Reserve;
    if t.run.pendingAction.Some? {
      StableTwice(t.run.step, job.actions[t.run.step]);
      CarryFaithful(job, t, t.run.pendingAction.value);
    } else if D.Used(t.run) >= job.budget {
      TerminateFaithful(job, t, ActionBudgetExhausted, Bare, false);
    } else if t.run.step >= |job.actions| {
      TerminateFaithful(job, held, PolicyError, Explained("PolicyExhaustedError"), false);
    } else {
      CarryFaithful(job, held, job.actions[t.run.step]);
    }
  }

  lemma StableTwice(step: nat, action: Action)
    requires action.CallTool?
    ensures W.Stabilise(step, W.Stabilise(step, action)) == W.Stabilise(step, action)
  {
  }

  lemma {:induction false} LoopFaithful(job: D.Job, t: Tables)
    requires Faithful(job, t)
    ensures Faithful(job, D.Loop(job, t))
    decreases if t.run.status.Running? then 1 else 0, D.Remaining(job, t.run)
  {
    hide Faithful, D.Pass;
    if t.run.status.Running? {
      PassFaithful(job, t);
      LoopFaithful(job, D.Pass(job, t));
    }
  }

  lemma ExecuteFaithful(job: D.Job, t: Tables, token: Token)
    requires Faithful(job, t)
    ensures Faithful(job, D.ExecuteOwned(job, t, token))
  {
    var leased := t.(lease := Some(Lease(token, job.now + job.leaseSeconds)));
    EnterFaithful(job, leased);
    LoopFaithful(job, D.Enter(leased));
    hide AllHonest, D.Loop, D.Enter, PendingIs;
  }

  lemma EnterFaithful(job: D.Job, t: Tables)
    requires Faithful(job, t)
    ensures Faithful(job, D.Enter(t))
  {
    hide AllHonest, D.Save, W.Stabilise;
    var status := t.run.status;
    if status.Queued? || status.WaitingApproval? {
      SaveHonest(job, t, t.run.(status := Status.Running, pendingApproval := false), Note(0, Fine, RunRunning(status)));
    } else if status.Running? {
      AppendHonest(job, t, Note(0, Fine, RunRunning(Status.Running)));
    }
  }

  lemma DenyFaithful(job: D.Job, t: Tables, digest: Digest, answer: D.Answer)
    requires Faithful(job, t)
    ensures Faithful(job, D.Deny(t, digest, answer))
  {
    var run := P.Ended(t.run, ApprovalDeniedCode, Reasoned(answer.reason), false);
    var denied := Note(0, Error, ApprovalDenied(t.run.step, digest, answer.actor, answer.reason));
    var failed := Note(0, Error, RunFailed(Failure(ApprovalDeniedCode, Reasoned(answer.reason))));
    var start := t.(run := run.(version := t.run.version + 1));
    AppendTwo(start, denied, failed);
    hide AllHonest, AppendAll;
    AppendHonest(job, start, denied);
    AppendHonest(job, Append(start, denied), failed);
  }

  lemma ApproveFaithful(job: D.Job, t: Tables, answer: D.Answer, token: Token)
    requires Faithful(job, t)
    ensures Faithful(job, D.Approve(job, t, answer, token))
  {
    hide AllHonest, D.ExecuteOwned, D.Deny, W.Stabilise;
    if t.run.status.WaitingApproval? && t.run.pendingDigest.Some? {
      var digest := t.run.pendingDigest.value;
      var row := ApprovalRow(digest, answer.actor, answer.allow, answer.reason);
      var recorded := Rows.Record(t, t.run.step, row, true);
      if recorded.Ok? {
        RecordFaithful(job, t, row, recorded.value);
        ExecuteFaithful(job, recorded.value, token);
        DenyFaithful(job, recorded.value, digest, answer);
      }
    }
  }

  lemma RecordFaithful(job: D.Job, t: Tables, row: ApprovalRow, u: Tables)
    requires Faithful(job, t) && Rows.Record(t, t.run.step, row, true) == Ok(u)
    ensures Faithful(job, u)
  {
    hide AllHonest, W.Stabilise;
    if u != t {
      var decided := t.(approvals := t.approvals[t.run.step := row]);
      AppendHonest(job, decided,
          Note(t.counter + 1, Fine, ApprovalRecorded(t.run.step, row.digest, row.actor, row.allow)));
    }
  }

  /** The accepted successes of such a trace are the backend's answers to its succeeded attempts. */
  lemma {:induction false} HonestOutputs(actions: seq<Action>, events: seq<Event>)
    requires AllHonest(actions, events)
    ensures GO.SuccessEvidence(events) == OutputsOf(actions, AttemptEvidence(events))
  {
    if events != [] {
      var before, body := events[..|events| - 1], events[|events| - 1].note.body;
      HonestOutputs(actions, before);
      assert Honest(actions, body);
      if body.AttemptClosed? {
        assert (AttemptEvidence(before) + [ClosingOf(body)])[..|AttemptEvidence(before)|] == AttemptEvidence(before);
      }
      hide BackendOutput;
    }
  }

  // ---------------------------------------------------------------- the mobile engine

  /** The outputs that the mobile trace reports. */
  function MobileOutputs(trace: seq<M.Entry>): seq<Accepted> {
    if trace == [] then []
    else
      var rest, fact := MobileOutputs(trace[..|trace| - 1]), trace[|trace| - 1].fact;
      if fact.Delivered? then rest + [Accepted(fact.id.step, fact.id.tool, fact.output)] else rest
  }

  predicate AllDelivered(actions: seq<Action>, trace: seq<M.Entry>) {
    forall i :: 0 <= i < |trace| && trace[i].fact.Delivered? ==>
        Answered(actions, trace[i].fact.id, trace[i].fact.output)
  }

  lemma TrueDelivers(s: Scenario, m: M.Record)
    requires MT.TraceTrue(s, m)
    ensures AllDelivered(s.actions, m.trace)
  {
    hide BackendOutput, FaultFor;
    forall i | 0 <= i < |m.trace| && m.trace[i].fact.Delivered?
      ensures Answered(s.actions, m.trace[i].fact.id, m.trace[i].fact.output)
    {
      assert MT.EntryFits(s, m, i);
    }
  }

  lemma {:induction false} DeliveredOutputs(actions: seq<Action>, trace: seq<M.Entry>)
    requires AllDelivered(actions, trace)
    ensures MobileOutputs(trace) == OutputsOf(actions, MobileAttempts(trace))
  {
    if trace != [] {
      var before, fact := trace[..|trace| - 1], trace[|trace| - 1].fact;
      DeliveredOutputs(actions, before);
      if fact.Delivered? || fact.Erred? {
        var attempts := MobileAttempts(trace);
        assert attempts[..|attempts| - 1] == MobileAttempts(before);
      }
      hide BackendOutput;
    }
  }

  lemma {:induction false} SettleTells(s: Scenario, m: M.Record)
    requires MS.Safe(s, m) && MT.TraceTrue(s, m)
    ensures MT.TraceTrue(s, Settle(s, m))
    decreases MS.Measure(s, m)
  {
    hide MS.Safe, M.Transaction, MS.Measure, MT.TraceTrue;
    if !M.Stopped(m.run) {
      MS.TransactionSafe(s, m);
      MT.TransactionTells(s, m);
      SettleTells(s, M.Transaction(s, m).value);
    }
  }
}
