/** What every crash schedule of the mobile engine keeps, and why it stops. */
module MobileSafety {
  import opened Domain
  import opened Mobile

  // ---------------------------------------------------------------- the trace

  function OpenedIds(trace: seq<Entry>): seq<AttemptId> {
    if trace == [] then []
    else
      var rest, fact := OpenedIds(trace[..|trace| - 1]), trace[|trace| - 1].fact;
      if fact.Opened? then rest + [fact.id] else rest
  }

  /** The attempts closed by a failure or a success, in order. */
  function ClosedIds(trace: seq<Entry>): seq<AttemptId> {
    if trace == [] then []
    else
      var rest, fact := ClosedIds(trace[..|trace| - 1]), trace[|trace| - 1].fact;
      if fact.Erred? || fact.Delivered? then rest + [fact.id] else rest
  }

  predicate Numbered(trace: seq<Entry>) {
    forall i :: 0 <= i < |trace| ==> trace[i].sequence == i + 1
  }

  lemma {:induction false} MaxIsLast(trace: seq<Entry>)
    requires Numbered(trace)
    ensures MaxSequence(trace) == |trace|
  {
    if trace != [] {
      MaxIsLast(trace[..|trace| - 1]);
    }
  }

  lemma TellView(m: Record, fact: Fact)
    ensures var m' := Tell(m, fact);
            && (Numbered(m.trace) ==> Numbered(m'.trace))
            && OpenedIds(m'.trace) == OpenedIds(m.trace) + (if fact.Opened? then [fact.id] else [])
            && ClosedIds(m'.trace) == ClosedIds(m.trace) + (if fact.Erred? || fact.Delivered? then [fact.id] else [])
            && m' == m.(trace := m'.trace)
  {
    if Numbered(m.trace) {
      MaxIsLast(m.trace);
    }
    assert Tell(m, fact).trace[..|m.trace|] == m.trace;
  }

  /** `m'` has the trace of `m` and more, in which exactly the attempts `ids` are new, each
      opened and closed. */
  predicate Adds(m: Record, m': Record, ids: seq<AttemptId>) {
    && (Numbered(m.trace) ==> Numbered(m'.trace))
    && OpenedIds(m'.trace) == OpenedIds(m.trace) + ids
    && ClosedIds(m'.trace) == ClosedIds(m.trace) + ids
  }

  // ---------------------------------------------------------------- what one transaction does

  datatype Outcome = Ends | Parks | Retries | Passes

  function WriteStep(s: Scenario, k: nat): bool {
    k < |s.actions| && s.actions[k].CallTool? && IsWrite(s.actions[k].tool)
  }

  function Stored(action: Action): Effect
    requires action.CallTool?
  {
    Effect(OfAction(action), BackendOutput(action.tool, action.args))
  }

  /** The new rows, by outcome; an attempt is in the trace exactly if the call got that far. */
  predicate Did(s: Scenario, m: Record, m': Record, o: Outcome, attempted: bool) {
    var step := m.run.step;
    && (attempted ==> step < |s.actions| && s.actions[step].CallTool? && (RequiresApproval(s.actions[step].tool) ==>
          step in m.decisions && m.decisions[step].allow && m.decisions[step].digest == OfAction(s.actions[step])))
    && Adds(m, m', if attempted then [AttemptId(step, s.actions[step].tool, m.run.nextAttempt)] else [])
    && m'.decisions == m.decisions && m'.run.mode == m.run.mode
    && m'.run.announced == (if step < |s.actions| then step else m.run.announced)
    && match o
       case Ends => Terminal(m'.run.status) && m'.run.step == step && m'.run.nextAttempt == m.run.nextAttempt
           && m'.effects == m.effects && m'.run.result.Some?
                    && (m'.run.status.Failed? ==> m'.run.pending.None?)
                    && (m'.run.status.Succeeded? ==> m'.run.pending == m.run.pending)
       case Parks =>
         && m'.run.status.WaitingApproval? && m'.run.step == step && m'.run.nextAttempt == m.run.nextAttempt
         && m'.effects == m.effects && !attempted && WriteStep(s, step) && step !in m.decisions
         && m'.run.pending == Some(Pending(step, OfAction(s.actions[step]), s.actions[step].tool, s.actions[step].args))
       case Retries =>
         && m'.run.status.Running? && m'.run.step == step && m'.run.nextAttempt == m.run.nextAttempt + 1
         && m.run.nextAttempt < ATTEMPT_LIMIT && m'.effects == m.effects && attempted && m'.run.pending == m.run.pending
       case Passes =>
         && m'.run.status.Running? && m'.run.step == step + 1 && m'.run.nextAttempt == 1 && attempted
         && m'.run.pending.None?
         && m'.effects == (if WriteStep(s, step) && step !in m.effects then m.effects[step := Stored(s.actions[step])]
             else m.effects)
  }

  function AfterFault(run: Progress, id: AttemptId, kind: FaultKind): Progress {
    if Transient(kind) && run.mode.Resilient? && id.attempt < ATTEMPT_LIMIT
        then run.(nextAttempt := run.nextAttempt + 1)
    else run.(status := Status.Failed, pending := None, result := Some(Lost(FaultCode(kind), None)))
  }

  lemma FaultView(m: Record, id: AttemptId, kind: FaultKind)
    ensures var m' := Fault(m, id, kind);
            && m' == m.(run := AfterFault(m.run, id, kind), trace := m'.trace)
            && (Numbered(m.trace) ==> Numbered(m'.trace))
            && OpenedIds(m'.trace) == OpenedIds(m.trace) && ClosedIds(m'.trace) == ClosedIds(m.trace) + [id]
  {
    hide Tell, Break, Numbered, OpenedIds, ClosedIds;
    var m1 := Tell(m, Injected(id, kind));
    TellView(m, Injected(id, kind));
    var m2 := if Transient(kind) then m1 else Tell(m1, Invalid(id));
    TellView(m1, Invalid(id));
    var m3 := Tell(m2, Erred(id, FaultCode(kind), Transient(kind)));
    TellView(m2, Erred(id, FaultCode(kind), Transient(kind)));
    BreakView(m3, FaultCode(kind), None);
  }

  /** The call of the cursor has passed its checks. */
  predicate Checked(s: Scenario, m: Record, action: Action) {
    && m.run.status.Running? && m.run.step < |s.actions| && s.actions[m.run.step] == action && action.CallTool?
    && m.run.announced == m.run.step
    && (RequiresApproval(action.tool) ==>
      m.run.step in m.decisions && m.decisions[m.run.step].allow && m.decisions[m.run.step].digest == OfAction(action))
  }

  /** A whole failed attempt: opened, closed, and the run as the fault leaves it. */
  lemma FaultAdds(m: Record, id: AttemptId, kind: FaultKind)
    ensures var m' := Fault(Tell(m, Opened(id)), id, kind);
            Adds(m, m', [id]) && m' == m.(run := AfterFault(m.run, id, kind), trace := m'.trace)
  {
    hide Tell, Fault, Numbered, OpenedIds, ClosedIds, AfterFault;
    TellView(m, Opened(id));
    FaultView(Tell(m, Opened(id)), id, kind);
  }

  lemma FaultDid(s: Scenario, m: Record, action: Action, kind: FaultKind) returns (o: Outcome)
    requires Checked(s, m, action)
    ensures var id := AttemptId(m.run.step, action.tool, m.run.nextAttempt);
            Did(s, m, Fault(Tell(m, Opened(id)), id, kind), o, true)
  {
    var id := AttemptId(m.run.step, action.tool, m.run.nextAttempt);
    FaultAdds(m, id, kind);
    o := if Transient(kind) && m.run.mode.Resilient? && id.attempt < ATTEMPT_LIMIT then Retries else Ends;
    hide Tell, Fault, Adds, FaultCode, BackendOutput;
  }

  lemma BreakView(m: Record, code: Code, reason: Option<string>)
    ensures var m' := Break(m, code, reason);
            && m' == m.(run := m.run.(status := Status.Failed, pending := None, result := Some(Lost(code, reason))),
                trace := m'.trace)
            && (Numbered(m.trace) ==> Numbered(m'.trace))
            && OpenedIds(m'.trace) == OpenedIds(m.trace) && ClosedIds(m'.trace) == ClosedIds(m.trace)
  {
    hide Tell;
    TellView(m.(run := m.run.(status := Status.Failed, pending := None, result := Some(Lost(code, reason)))),
        Closed(Lost(code, reason)));
  }

  lemma DeliverView(m: Record, action: Action, id: AttemptId, output: Output)
    requires action.CallTool? && (id.step in m.effects ==> m.effects[id.step].digest == OfAction(action))
    ensures Deliver(m, action, id, output).Some?
    ensures var m' := Deliver(m, action, id, output).value;
            && m'.run == m.run.(step := id.step + 1, nextAttempt := 1, pending := None) && m'.decisions == m.decisions
            && m'.effects == (if IsWrite(action.tool) && id.step !in m.effects
                              then m.effects[id.step := Effect(OfAction(action), output)] else m.effects)
            && (Numbered(m.trace) ==> Numbered(m'.trace))
            && OpenedIds(m'.trace) == OpenedIds(m.trace) && ClosedIds(m'.trace) == ClosedIds(m.trace) + [id]
  {
    hide Tell, Numbered, OpenedIds, ClosedIds;
    var done := Deliver(m, action, id, output).value;
    var raw := if IsWrite(action.tool) && id.step in m.effects then m.effects[id.step].output else output;
    var m1 := m.(effects := if IsWrite(action.tool) && id.step !in m.effects
                            then m.effects[id.step := Effect(OfAction(action), output)] else m.effects);
    TellView(m1, Delivered(id, raw));
    var m2 := Tell(m1, Delivered(id, raw));
    TellView(m2.(run := m2.run.(step := id.step + 1, nextAttempt := 1, pending := None)), Saved(id.step + 1));
  }

  lemma DeliverDid(s: Scenario, m: Record, action: Action)
    requires Checked(s, m, action)
    requires m.run.step in m.effects ==> m.effects[m.run.step].digest == OfAction(action)
    ensures var id := AttemptId(m.run.step, action.tool, m.run.nextAttempt);
            var done := Deliver(Tell(m, Opened(id)), action, id, BackendOutput(action.tool, action.args));
            done.Some? && Did(s, m, done.value, Passes, true)
  {
    var id := AttemptId(m.run.step, action.tool, m.run.nextAttempt);
    hide Tell, Deliver, Numbered, OpenedIds, ClosedIds, BackendOutput;
    TellView(m, Opened(id));
    DeliverView(Tell(m, Opened(id)), action, id, BackendOutput(action.tool, action.args));
  }

  lemma AttemptDid(s: Scenario, m: Record, action: Action) returns (o: Outcome, attempted: bool)
    requires m.run.status.Running? && m.run.step < |s.actions| && s.actions[m.run.step] == action && action.CallTool?
    requires m.run.announced == m.run.step
    requires m.run.step in m.effects ==> m.effects[m.run.step].digest == OfAction(action)
    ensures var m' := Attempt(s, m, action); m'.Some? && Did(s, m, m'.value, o, attempted)
  {
    var step, id := m.run.step, AttemptId(m.run.step, action.tool, m.run.nextAttempt);
    hide Tell, Numbered, OpenedIds, ClosedIds, BackendOutput, Deliver, Fault, Break;
    if !ValidInput(action.tool, action.args) {
      TellView(m, PreflightRejected(step, action.tool));
      BreakView(Tell(m, PreflightRejected(step, action.tool)), InvalidInput, None);
      o, attempted := Ends, false;
    } else if RequiresApproval(action.tool) && step !in m.decisions {
      TellView(m.(run := m.run.(status := Status.WaitingApproval,
          pending := Some(Pending(step, OfAction(action), action.tool, action.args)))),
               Awaiting(step, action.tool));
      o, attempted := Parks, false;
    } else if RequiresApproval(action.tool)
        && (m.decisions[step].digest != OfAction(action) || !m.decisions[step].allow) {
      BreakView(m, ApprovalMismatch, None);
      o, attempted := Ends, false;
    } else {
      hide Did;
      attempted := true;
      var fault := FaultFor(s.faults, action.tool, id.attempt);
      if fault.Some? {
        o := FaultDid(s, m, action, fault.value);
      } else {
        DeliverDid(s, m, action);
        o := Passes;
      }
    }
  }

  /** `Begin` and `Announce` touch only the status, the announced step and the trace. */
  lemma PrologueView(s: Scenario, m: Record)
    requires !Stopped(m.run)
    ensures var begun := Begin(m);
            && Adds(m, begun, []) && begun == m.(run := m.run.(status := Status.Running), trace := begun.trace)
            && (m.run.step < |s.actions| ==>
              var announced := Announce(begun, s.actions[m.run.step]);
              && Adds(m, announced, [])
              && announced == m.(run := m.run.(status := Status.Running, announced := m.run.step),
                  trace := announced.trace))
  {
    hide Tell, Numbered, OpenedIds, ClosedIds;
    TellView(m.(run := m.run.(status := Status.Running)), Begun);
    var begun := Begin(m);
    if m.run.step < |s.actions| {
      TellView(begun.(run := begun.run.(announced := m.run.step)), Announced(m.run.step, s.actions[m.run.step]));
    }
  }

  lemma DidFrom(s: Scenario, m: Record, m2: Record, m': Record, o: Outcome, attempted: bool)
    requires Did(s, m2, m', o, attempted) && Adds(m, m2, [])
    requires m2 == m.(run := m.run.(status := Status.Running, announced := m2.run.announced), trace := m2.trace)
    requires m.run.step < |s.actions| ==> m2.run.announced == m.run.step
    requires m.run.step >= |s.actions| ==> m2.run.announced == m.run.announced
    ensures Did(s, m, m', o, attempted)
  {
    hide Numbered, OpenedIds, ClosedIds, BackendOutput;
  }

  lemma EndDid(s: Scenario, m: Record, run: Progress, fact: Fact)
    requires fact.Closed? && (m.run.step < |s.actions| ==> m.run.announced == m.run.step)
    requires run == m.run.(status := run.status, pending := run.pending, result := run.result) && Terminal(run.status)
    requires run.result.Some?
    requires (run.status.Failed? ==> run.pending.None?) && (run.status.Succeeded? ==> run.pending == m.run.pending)
    ensures Did(s, m, Tell(m.(run := run), fact), Ends, false)
  {
    hide Tell, Numbered, OpenedIds, ClosedIds;
    TellView(m.(run := run), fact);
  }

  /** A transaction of a run that is not stopped commits, with one of the four outcomes. */
  lemma TransactionDid(s: Scenario, m: Record) returns (o: Outcome, attempted: bool)
    requires !Stopped(m.run)
    requires m.run.step in m.effects ==>
             WriteStep(s, m.run.step) && m.effects[m.run.step].digest == OfAction(s.actions[m.run.step])
    ensures Transaction(s, m).Some? && Did(s, m, Transaction(s, m).value, o, attempted)
  {
    PrologueView(s, m);
    o, attempted := Ends, false;
    hide Tell, Numbered, OpenedIds, ClosedIds, Attempt, Did, Begin, Announce, Adds;
    var begun := Begin(m);
    if m.run.step >= |s.actions| {
      var lost := Some(Lost(ScenarioExhausted, None));
      EndDid(s, begun, begun.run.(status := Status.Failed, pending := None, result := lost), Closed(lost.value));
      DidFrom(s, m, begun, Transaction(s, m).value, o, attempted);
    } else {
      var announced := Announce(begun, s.actions[m.run.step]);
      match s.actions[m.run.step] {
        case Finish(summary, refs, outcome) =>
          var won := Some(Won(outcome, summary, refs));
          EndDid(s, announced, announced.run.(status := Status.Succeeded, result := won), Closed(won.value));
        case Fail(code, _) =>
          var lost := Some(Lost(code, None));
          EndDid(s, announced, announced.run.(status := Status.Failed, pending := None, result := lost),
              Closed(lost.value));
        case CallTool(_, _, _) =>
          o, attempted := AttemptDid(s, announced, s.actions[m.run.step]);
      }
      DidFrom(s, m, announced, Transaction(s, m).value, o, attempted);
    }
  }

  // ---------------------------------------------------------------- the invariant

  predicate Earlier(s: Scenario, id: AttemptId, step: nat, attempt: nat) {
    id.step < step || (id.step == step && step < |s.actions| && s.actions[step].CallTool?
                       && id.tool == s.actions[step].tool && 1 <= id.attempt < attempt)
  }

  predicate AttemptsSafe(s: Scenario, m: Record) {
    var ids := OpenedIds(m.trace);
    && ids == ClosedIds(m.trace)
    && (forall i, j :: 0 <= i < j < |ids| ==> ids[i] != ids[j])
    && (!Terminal(m.run.status) ==> forall i :: 0 <= i < |ids| ==> Earlier(s, ids[i], m.run.step, m.run.nextAttempt))
    && (forall i :: 0 <= i < |ids| && RequiresApproval(ids[i].tool) ==>
          ids[i].step in m.decisions && m.decisions[ids[i].step].allow)
  }

  predicate DecisionsSafe(s: Scenario, m: Record) {
    forall k :: k in m.decisions ==>
      && k <= m.run.step && WriteStep(s, k) && m.decisions[k].digest == OfAction(s.actions[k])
      && (!m.decisions[k].allow ==> m.run.status.Failed? && k == m.run.step)
  }

  ghost predicate EffectsSafe(s: Scenario, m: Record) {
    && (forall k: nat :: k in m.effects <==> k < m.run.step && WriteStep(s, k))
    && (forall k :: k in m.effects ==> m.effects[k] == Stored(s.actions[k]) && k in m.decisions && m.decisions[k].allow)
  }

  predicate RunSafe(s: Scenario, m: Record) {
    var run := m.run;
    && run.step <= |s.actions| && 1 <= run.nextAttempt
    && (!Terminal(run.status) ==> run.nextAttempt <= ATTEMPT_LIMIT)
    && (run.pending.Some? <==> run.status.WaitingApproval?)
    && (run.status.WaitingApproval? ==>
      && WriteStep(s, run.step) && run.step !in m.decisions
      && run.pending == Some(Pending(run.step, OfAction(s.actions[run.step]), s.actions[run.step].tool,
          s.actions[run.step].args)))
  }

  ghost predicate Safe(s: Scenario, m: Record) {
    Numbered(m.trace) && AttemptsSafe(s, m) && DecisionsSafe(s, m) && EffectsSafe(s, m) && RunSafe(s, m)
  }

  lemma NewIsSafe(s: Scenario, mode: Mode)
    ensures Safe(s, NewRecord(mode))
  {
    TellView(Record(Progress(mode, Queued, 0, 1, -1, None, None), [], map[], map[]), Created(mode));
  }

  lemma AttemptsKept(s: Scenario, m: Record, m': Record, o: Outcome, attempted: bool)
    requires AttemptsSafe(s, m) && !Stopped(m.run) && 1 <= m.run.nextAttempt && Did(s, m, m', o, attempted)
    ensures AttemptsSafe(s, m')
  {
    hide Numbered, OpenedIds, ClosedIds, BackendOutput;
    var ids, ids' := OpenedIds(m.trace), OpenedIds(m'.trace);
    if attempted {
      var id := AttemptId(m.run.step, s.actions[m.run.step].tool, m.run.nextAttempt);
      assert ids' == ids + [id];
      forall i | 0 <= i < |ids|
        ensures ids[i] != id
      {
        assert Earlier(s, ids[i], m.run.step, m.run.nextAttempt);
      }
    } else {
      assert ids' == ids;
    }
  }

  lemma RowsKept(s: Scenario, m: Record, m': Record, o: Outcome, attempted: bool)
    requires DecisionsSafe(s, m) && EffectsSafe(s, m) && RunSafe(s, m) && !Stopped(m.run) && Did(s, m, m', o, attempted)
    ensures DecisionsSafe(s, m') && EffectsSafe(s, m') && RunSafe(s, m')
  {
    hide Numbered, OpenedIds, ClosedIds, BackendOutput, Adds;
  }

  /** How far a run is from its next stop. */
  function Measure(s: Scenario, m: Record): nat {
    if Stopped(m.run) then 0
    else (if m.run.step < |s.actions| then 4 * (|s.actions| - m.run.step) else 0)
         + (if m.run.nextAttempt < 4 then 4 - m.run.nextAttempt else 0)
  }

  /** Every transaction of a safe, unstopped run commits, keeps it safe, and comes closer to a
      stop: the conflict that would roll it back is unreachable. */
  lemma TransactionSafe(s: Scenario, m: Record)
    requires Safe(s, m) && !Stopped(m.run)
    ensures Transaction(s, m).Some?
    ensures Safe(s, Transaction(s, m).value) && Measure(s, Transaction(s, m).value) < Measure(s, m)
  {
    var o, attempted := TransactionDid(s, m);
    var m' := Transaction(s, m).value;
    assert Numbered(m'.trace) by { assert Adds(m, m', OpenedIds(m'.trace)[|OpenedIds(m.trace)|..]); }
    hide Transaction, Numbered, AttemptsSafe;
    RowsKept(s, m, m', o, attempted);
    AttemptsKept(s, m, m', o, attempted);
    hide DecisionsSafe, EffectsSafe, Adds;
  }

  /** A new decision: one row, its events, and a run queued again or failed. */
  predicate Decides(m: Record, d: Decision, m': Record) {
    && m.run.status.WaitingApproval? && m.run.pending.Some? && m.run.pending.value.step == d.step
    && m.run.pending.value.digest == d.digest
    && m'.decisions == m.decisions[d.step := d] && m'.effects == m.effects && Adds(m, m', [])
    && m'.run == if d.allow then m.run.(pending := None, status := Queued)
                 else m.run.(pending := None, status := Status.Failed,
                     result := Some(Lost(ApprovalDeniedCode, d.reason)))
  }

  lemma DecideView(m: Record, d: Decision, m': Record)
    requires Decide(m, d) == Ok(m') && m' != m
    ensures Decides(m, d, m')
  {
    hide Tell, Numbered, OpenedIds, ClosedIds, Break;
    var m1 := m.(decisions := m.decisions[d.step := d]);
    TellView(m1, Recorded(d));
    var m2 := Tell(m1, Recorded(d));
    var m3 := m2.(run := m2.run.(pending := None));
    TellView(m3, Denied(d));
    BreakView(Tell(m3, Denied(d)), ApprovalDeniedCode, d.reason);
  }

  lemma DecideKeepsAttempts(s: Scenario, m: Record, d: Decision, m': Record)
    requires AttemptsSafe(s, m) && RunSafe(s, m) && Decides(m, d, m')
    ensures AttemptsSafe(s, m')
  {
    hide Numbered, OpenedIds, ClosedIds;
    assert OpenedIds(m'.trace) == OpenedIds(m.trace) && ClosedIds(m'.trace) == ClosedIds(m.trace);
  }

  lemma DecideKeepsRows(s: Scenario, m: Record, d: Decision, m': Record)
    requires DecisionsSafe(s, m) && EffectsSafe(s, m) && RunSafe(s, m) && Decides(m, d, m')
    ensures DecisionsSafe(s, m') && EffectsSafe(s, m') && RunSafe(s, m')
  {
    hide Adds, BackendOutput;
  }

  lemma DecideSafe(s: Scenario, m: Record, d: Decision, m': Record)
    requires Safe(s, m) && Decide(m, d) == Ok(m')
    ensures Safe(s, m')
  {
    if m' != m {
      DecideView(m, d, m');
      hide Decide, Numbered, OpenedIds, ClosedIds, AttemptsSafe, DecisionsSafe, EffectsSafe, RunSafe;
      DecideKeepsAttempts(s, m, d, m');
      DecideKeepsRows(s, m, d, m');
    }
  }

  // ---------------------------------------------------------------- lives under any crash schedule

  /** What can happen to the stored rows: a transaction of `_advance`, a decision, or a process
      that dies at any point inside either and leaves the rows as they were. */
  datatype Op = Resume | Answer(decision: Decision) | Crash

  function After(s: Scenario, m: Record, op: Op): Record {
    match op
    case Resume =>
      if Stopped(m.run) then m else (match Transaction(s, m) case None => m case Some(m') => m')
    case Answer(d) => (match Decide(m, d) case Err(_) => m case Ok(m') => m')
    case Crash => m
  }

  function Life(s: Scenario, mode: Mode, ops: seq<Op>): Record {
    if ops == [] then NewRecord(mode) else After(s, Life(s, mode, ops[..|ops| - 1]), ops[|ops| - 1])
  }

  lemma {:induction false} LifeIsSafe(s: Scenario, mode: Mode, ops: seq<Op>)
    ensures Safe(s, Life(s, mode, ops))
  {
    hide Transaction, Decide, Safe;
    if ops == [] {
      NewIsSafe(s, mode);
    } else {
      var m, op := Life(s, mode, ops[..|ops| - 1]), ops[|ops| - 1];
      LifeIsSafe(s, mode, ops[..|ops| - 1]);
      match op {
        case Resume => if !Stopped(m.run) { TransactionSafe(s, m); }
        case Answer(d) => if Decide(m, d).Ok? { DecideSafe(s, m, d, Decide(m, d).value); }
        case Crash =>
      }
    }
  }

  /** Under every crash schedule the committed trace is numbered 1..n; every attempt in it was
      opened once and closed once; the effects are exactly the write steps below the cursor,
      each approved and each holding its own action's output; and no gated attempt happened
      without an approval of its step. */
  lemma {:induction false} CrashesLoseNothing(s: Scenario, mode: Mode, ops: seq<Op>)
    ensures var m := Life(s, mode, ops);
            var ids := OpenedIds(m.trace);
            && (forall i :: 0 <= i < |m.trace| ==> m.trace[i].sequence == i + 1)
            && ids == ClosedIds(m.trace) && (forall i, j :: 0 <= i < j < |ids| ==> ids[i] != ids[j])
            && (forall k: nat :: k in m.effects <==> k < m.run.step && WriteStep(s, k))
            && (forall k :: k in m.effects ==>
                m.effects[k] == Stored(s.actions[k]) && k in m.decisions && m.decisions[k].allow)
            && (forall i :: 0 <= i < |ids| && RequiresApproval(ids[i].tool) ==>
                ids[i].step in m.decisions && m.decisions[ids[i].step].allow)
            && (!Stopped(m.run) ==> Transaction(s, m).Some?)
  {
    LifeIsSafe(s, mode, ops);
    var m := Life(s, mode, ops);
    if !Stopped(m.run) {
      hide Safe;
      TransactionSafe(s, m);
    }
    hide Transaction, Life;
  }

  // ---------------------------------------------------------------- progress

  /** A resumed safe run stops if it is given more passes than its distance. */
  lemma {:induction false} EnoughPasses(s: Scenario, m: Record, passes: nat)
    requires Safe(s, m)
    ensures var (m', outcome) := Advance(s, m, passes);
            && Safe(s, m') && (outcome.Ok? ==> Stopped(m'.run) && outcome.value == m'.run)
            && (passes > Measure(s, m) ==> outcome.Ok?)
            && (outcome.Err? ==> outcome.error.BudgetExceeded? && Measure(s, m') + passes <= Measure(s, m))
    decreases passes
  {
    hide Transaction, Safe, Measure;
    if passes > 0 && !Stopped(m.run) {
      TransactionSafe(s, m);
      EnoughPasses(s, Transaction(s, m).value, passes - 1);
    }
  }

  /** `n` calls of `_advance`, one after the other. */
  function Resumed(s: Scenario, m: Record, n: nat): Record {
    if n == 0 then m else Advance(s, Resumed(s, m, n - 1), PASS_LIMIT).0
  }

  lemma {:induction false} ResumesStop(s: Scenario, m: Record, n: nat)
    requires Safe(s, m)
    ensures Safe(s, Resumed(s, m, n))
    ensures Stopped(Resumed(s, m, n).run) || Measure(s, Resumed(s, m, n)) + n * PASS_LIMIT <= Measure(s, m)
  {
    hide Safe, Measure, Advance;
    if n > 0 {
      ResumesStop(s, m, n - 1);
      EnoughPasses(s, Resumed(s, m, n - 1), PASS_LIMIT);
      StoppedStays(s, Resumed(s, m, n - 1), PASS_LIMIT);
    }
  }

  lemma {:induction false} StoppedStays(s: Scenario, m: Record, passes: nat)
    ensures Stopped(m.run) ==> Advance(s, m, passes).0 == m
  {
  }

  /** From any reachable rows, repeated resumes reach a terminal or waiting run: one suffices
      for scenarios of up to fifteen actions. */
  lemma {:induction false} ResumingTerminates(s: Scenario, mode: Mode, ops: seq<Op>, n: nat)
    requires 4 * |s.actions| + 3 < n * PASS_LIMIT
    ensures Stopped(Resumed(s, Life(s, mode, ops), n).run)
    ensures |s.actions| <= 15 ==> Stopped(Resumed(s, Life(s, mode, ops), 1).run)
  {
    LifeIsSafe(s, mode, ops);
    assert Measure(s, Life(s, mode, ops)) <= 4 * |s.actions| + 3;
    hide Safe, Life, Resumed;
    ResumesStop(s, Life(s, mode, ops), n);
    ResumesStop(s, Life(s, mode, ops), 1);
  }
}
