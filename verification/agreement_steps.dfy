/** The loop head of the runtime as the gate sees it, and what a whole call does to both. */
module AgreementSteps {
  import opened Domain
  import opened Evidence
  import opened Gate
  import opened AgreementLedger
  import opened AgreementCalls
  import opened Rows
  import P = Protocol
  import W = Gateway
  import D = Desktop

  predicate Gated(action: Action) {
    action.CallTool? && RequiresApproval(action.tool)
  }

  /** No attempt is open, every call lies below the step, and none of them failed. */
  predicate Rested(l: Ledger, step: nat) {
    && l.started == {} && AttemptSemantics(l) && AllBelow(l, step)
    && (l.attempts != [] ==> l.attempts[|l.attempts| - 1].closing.ClosedOk?)
  }

  lemma RestedMayTry(l: Ledger, call: Call)
    requires Rested(l, call.step)
    ensures Trying(l, call, 1)
  {
    hide AttemptSemantics;
  }

  // ---------------------------------------------------------------- the saves that end a pass

  lemma SaveOne(t: Tables, run: Run, note: Note)
    ensures D.Save(t, run, [note]) == Append(t.(run := run.(version := t.run.version + 1)), note)
  {
    AppendOne(t.(run := run.(version := t.run.version + 1)), note);
  }

  /** A save with one event, as the gate sees it. */
  lemma SaveSeen(w: World, t: Tables, g: State, run: Run, note: Note)
    requires See(w, t.events) == Live(g)
    ensures See(w, D.Save(t, run, [note]).events) == React(w, g, Event(t.counter + 1, note))
  {
    SaveOne(t, run, note);
    hide *;
    Extend(w, t.(run := run.(version := t.run.version + 1)), note, g);
  }

  lemma SaveRefused(w: World, t: Tables, run: Run, note: Note)
    requires See(w, t.events).Refused?
    ensures See(w, D.Save(t, run, [note]).events).Refused?
  {
    SaveOne(t, run, note);
    assert Append(t, note).events[..|t.events|] == t.events;
    hide PlanOf;
  }

  /** A failure that no attempt, preflight or denial explains is refused. */
  lemma UnexplainedFailure(w: World, t: Tables, g: State, code: Code, detail: FailureDetail)
    requires See(w, t.events) == Live(g) && Free(g) && Rested(g.ledger, t.run.step)
    ensures See(w, D.Terminate(t, code, detail, false).events).Refused?
  {
    hide See, AttemptSemantics, AllBelow, PlanOf;
    SaveSeen(w, t, g, P.Ended(t.run, code, detail, false), Note(0, Error, RunFailed(Failure(code, detail))));
  }

  lemma UnexplainedCheckpoint(w: World, t: Tables, g: State, output: Output, attempts: nat, cached: bool)
    requires See(w, t.events) == Live(g) && Free(g)
    ensures See(w, D.Checkpoint(t, output, attempts, cached).events).Refused?
  {
    hide See, PlanOf;
    var run := P.CheckpointRun(t.run, output);
    SaveSeen(w, t, g, run, Note(0, Fine,
        Checkpointed(t.run.step, attempts, run.step, cached, OfOutput(output), OfContext(run.context))));
  }

  function FailedState(g: State, code: Code): State {
    g.(ending := Ending(None, None, Some((Failed, Failure(code, Bare)))))
  }

  lemma FailureAfterAttempts(w: World, t: Tables, g: State, code: Code)
    requires See(w, t.events) == Live(g) && Free(g) && g.ledger.started == {}
    requires g.ledger.attempts != [] && g.ledger.attempts[|g.ledger.attempts| - 1].closing.ClosedError?
    ensures See(w, D.Terminate(t, code, Bare, false).events) == Live(FailedState(g, code))
  {
    hide See, PlanOf;
    SaveSeen(w, t, g, P.Ended(t.run, code, Bare, false), Note(0, Error, RunFailed(Failure(code, Bare))));
  }

  /** The gate after the checkpoint of a success. */
  function Delivered(g: State, id: AttemptId, output: Output): State {
    g.(delivery := Delivery(None, g.delivery.accepted + [Accepted(id.step, id.tool, output)],
        g.delivery.outputs[id.step := output]),
       cursor := g.cursor.(active := None))
  }

  lemma CheckpointSeen(w: World, t: Tables, g: State, id: AttemptId, output: Output)
    requires See(w, t.events) == Live(g.(delivery := g.delivery.(pending := Some(Success(id, output))))) && Free(g)
    requires id.step == t.run.step && t.run.context == w.scenario.context.(results := g.delivery.outputs)
    ensures See(w, D.Checkpoint(t, output, id.attempt, false).events) == Live(Delivered(g, id, output))
  {
    hide See, PlanOf;
    var run := P.CheckpointRun(t.run, output);
    var g1 := g.(delivery := g.delivery.(pending := Some(Success(id, output))));
    SaveSeen(w, t, g1, run,
        Note(0, Fine, Checkpointed(t.run.step, id.attempt, run.step, false, OfOutput(output), OfContext(run.context))));
  }

  // ---------------------------------------------------------------- a whole call and its save

  /** The tables may call the stable action now. */
  predicate MayCall(w: World, t: Tables, action: Action) {
    && action.CallTool? && t.run.status.Running? && AllCompleted(t.claims)
    && W.PreflightCode(w.scenario.faults, action).None?
    && W.ConsentCode(t.approvals, t.run.step, action).None?
    && w.job.faults == w.scenario.faults
  }

  lemma UsedKeyRefused(w: World, t: Tables, g: State, action: Action)
    requires MayCall(w, t, action) && !Unused(t, action)
    requires InCall(w, t, g, Call(t.run.step, action.tool)) && Rested(g.ledger, t.run.step)
    ensures See(w, D.Perform(w.job, t, action).events).Refused?
  {
    UsedCall(t, action, w.job.faults, t.counter, w.job.now, w.job.claimSeconds);
    var (called, result) := W.Call(t, action, w.job.faults, t.counter, w.job.now, w.job.claimSeconds);
    hide W.Call, See, Free, Rested, D.Terminate, D.Checkpoint;
    match result
    case CallFailed(code, _, _) => UnexplainedFailure(w, t, g, code, Bare);
    case CallOk(output, attempts, cached) => UnexplainedCheckpoint(w, t, g, output, attempts, cached);
  }

  /** The call and its retries, from the state before its claim. */
  lemma CallSeen(w: World, t: Tables, g: State, action: Action) returns (g': State)
    requires MayCall(w, t, action) && Unused(t, action)
    requires InCall(w, t, g, Call(t.run.step, action.tool)) && Rested(g.ledger, t.run.step)
    ensures var (t', result) := W.Call(t, action, w.job.faults, t.counter, w.job.now, w.job.claimSeconds);
            && LoopSeen(w, t, g, Call(t.run.step, action.tool), t', result, g')
            && result.CallOk? == Succeeds(w.scenario.faults, action.tool, w.mode)
            && (result.CallOk? ==>
              && result.output == BackendOutput(action.tool, action.args)
              && AllCompleted(t'.claims)
              && t'.claims.Keys == t.claims.Keys + (if action.key.Some? then {action.key.value} else {}))
  {
    var call := Call(t.run.step, action.tool);
    RestedMayTry(g.ledger, call);
    var t0 := NewCall(t, action, w.job.faults, t.counter, w.job.now, w.job.claimSeconds);
    hide W.Call, See, Trying, Free, LoopSeen, Rested, Succeeds, BackendOutput, Expected, W.AttemptsFrom, AllCompleted;
    LoopResult(t0, action, w.scenario.faults);
    g' := AttemptsSeen(w, t0, g, action, 1);
    var (tried, result) := W.AttemptsFrom(t0, action, w.scenario.faults, 1);
    SameTrace(w, t0, t, g, call, tried, W.Call(t, action, w.job.faults, t.counter, w.job.now, w.job.claimSeconds).0,
        result, g');
  }

  /** Only the events and the counter before the call matter to `LoopSeen`. */
  lemma SameTrace(w: World, t: Tables, s: Tables, g: State, call: Call, t': Tables, s': Tables, result: W.CallResult,
      g': State)
    requires LoopSeen(w, t, g, call, t', result, g') && s.counter == t.counter && s'.events == t'.events
    ensures LoopSeen(w, s, g, call, s', result, g')
  {
    hide See, Expected, Called;
  }

  /** The call failed, and its failure is explained by its attempts. */
  ghost predicate Fell(w: World, t: Tables, g: State, u: Tables, g': State) {
    && u.run.status.Failed? && u.run.result.Some? && u.run.result.value.Failure?
    && See(w, u.events) == Live(g') && g'.ending.final == Some((Failed, u.run.result.value))
    && g' == FailedState(g.(ledger := g'.ledger), u.run.result.value.code)
    && g'.ledger.started == {} && AttemptSemantics(g'.ledger) && AllBelow(g'.ledger, t.run.step + 1)
    && Executed(g'.ledger, t.run.step) && StartsKept(g.ledger, g'.ledger, t.run.step, t.counter)
  }

  /** The call succeeded and its output is checkpointed. */
  ghost predicate Passed(w: World, t: Tables, g: State, action: Action, u: Tables, g': State)
    requires action.CallTool?
  {
    var output := BackendOutput(action.tool, action.args);
    && See(w, u.events) == Live(g')
    && g' == g.(ledger := g'.ledger, delivery := g'.delivery, cursor := g.cursor.(active := None))
    && g'.delivery == Delivery(None, g.delivery.accepted + [Accepted(t.run.step, action.tool, output)],
        g.delivery.outputs[t.run.step := output])
    && Rested(g'.ledger, t.run.step + 1) && Executed(g'.ledger, t.run.step)
    && StartsKept(g.ledger, g'.ledger, t.run.step, t.counter)
    && u.run == P.CheckpointRun(t.run, output).(version := u.run.version)
    && u.approvals == t.approvals && AllCompleted(u.claims)
    && u.claims.Keys == t.claims.Keys + (if action.key.Some? then {action.key.value} else {})
  }

  lemma PerformFails(w: World, t: Tables, g: State, action: Action) returns (g': State)
    requires MayCall(w, t, action) && Unused(t, action) && !Succeeds(w.scenario.faults, action.tool, w.mode)
    requires InCall(w, t, g, Call(t.run.step, action.tool)) && Rested(g.ledger, t.run.step)
    ensures Fell(w, t, g, D.Perform(w.job, t, action), g')
  {
    assert action.CallTool? && t.run.status.Running? && w.job.faults == w.scenario.faults;
    hide W.Call, See, Expected, Rested, MayCall, AttemptSemantics, AllBelow, StartsKept, Executed;
    var g1 := CallSeen(w, t, g, action);
    var (t', result) := W.Call(t, action, w.job.faults, t.counter, w.job.now, w.job.claimSeconds);
    FailureAfterAttempts(w, t', g1, result.code);
    g' := FailedState(g1, result.code);
  }

  /** The checkpoint of a success that the gate expects. */
  lemma CheckpointPasses(w: World, t: Tables, g: State, action: Action, t': Tables, attempts: nat, g1: State)
      returns (g': State)
    requires action.CallTool? && Free(g) && t.run.context == w.scenario.context.(results := g.delivery.outputs)
    requires t'.run == t.run && t'.approvals == t.approvals && AllCompleted(t'.claims)
    requires t'.claims.Keys == t.claims.Keys + (if action.key.Some? then {action.key.value} else {})
    requires Called(g.ledger, g1.ledger, Call(t.run.step, action.tool), t.counter, true)
    requires See(w, t'.events) == Live(g1)
    requires var id := AttemptId(t.run.step, action.tool, attempts);
             g1 == g.(ledger := g1.ledger,
                 delivery := g.delivery.(pending := Some(Success(id, BackendOutput(action.tool, action.args)))))
    ensures Passed(w, t, g, action, D.Checkpoint(t', BackendOutput(action.tool, action.args), attempts, false), g')
  {
    hide See, AttemptSemantics, AllBelow, StartsKept, Executed, BackendOutput, AllCompleted, D.Checkpoint;
    var id, output := AttemptId(t.run.step, action.tool, attempts), BackendOutput(action.tool, action.args);
    CheckpointRows(t', output, attempts, false);
    CheckpointSeen(w, t', g.(ledger := g1.ledger), id, output);
    g' := Delivered(g.(ledger := g1.ledger), id, output);
  }

  lemma PerformSucceeds(w: World, t: Tables, g: State, action: Action) returns (g': State)
    requires MayCall(w, t, action) && Unused(t, action) && Succeeds(w.scenario.faults, action.tool, w.mode)
    requires InCall(w, t, g, Call(t.run.step, action.tool)) && Rested(g.ledger, t.run.step)
    requires t.run.context == w.scenario.context.(results := g.delivery.outputs)
    ensures var u := D.Perform(w.job, t, action);
            if Expected(w, t.run.step, BackendOutput(action.tool, action.args)) then Passed(w, t, g, action, u, g')
            else See(w, u.events).Refused?
  {
    assert action.CallTool? && t.run.status.Running? && w.job.faults == w.scenario.faults;
    hide W.Call, See, Expected, MayCall, Rested, Passed, Called, Free, BackendOutput, AllCompleted, D.Checkpoint;
    var g1 := CallSeen(w, t, g, action);
    D.CallKeeps(t, action, w.job.faults, t.counter, w.job.now, w.job.claimSeconds);
    var (t', result) := W.Call(t, action, w.job.faults, t.counter, w.job.now, w.job.claimSeconds);
    var output := BackendOutput(action.tool, action.args);
    assert D.Perform(w.job, t, action) == D.Checkpoint(t', output, result.attempts, false);
    g' := g;
    if Expected(w, t.run.step, output) {
      g' := CheckpointPasses(w, t, g, action, t', result.attempts, g1);
    } else {
      CheckpointRefused(w, t', output, result.attempts, false);
    }
  }

  lemma CheckpointRefused(w: World, t: Tables, output: Output, attempts: nat, cached: bool)
    requires See(w, t.events).Refused?
    ensures See(w, D.Checkpoint(t, output, attempts, cached).events).Refused?
  {
    hide See, D.Save;
    var run := P.CheckpointRun(t.run, output);
    SaveRefused(w, t, run, Note(0, Fine,
        Checkpointed(t.run.step, attempts, run.step, cached, OfOutput(output), OfContext(run.context))));
  }

  lemma CheckpointRows(t: Tables, output: Output, attempts: nat, cached: bool)
    ensures var u := D.Checkpoint(t, output, attempts, cached);
            u.run == P.CheckpointRun(t.run, output).(version := t.run.version + 1) && u.claims == t.claims
                && u.approvals == t.approvals
  {
    var run := P.CheckpointRun(t.run, output);
    SaveOne(t, run, Note(0, Fine,
        Checkpointed(t.run.step, attempts, run.step, cached, OfOutput(output), OfContext(run.context))));
  }
}
