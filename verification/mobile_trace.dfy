/** What every entry of the mobile trace means, under any crash schedule: outputs are the backend's,
    failures are planned faults, checkpoints follow deliveries, and the last entry tells the result. */
module MobileTrace {
  import opened Domain
  import opened Mobile
  import MS = MobileSafety

  /** The attempt is one of the call that the scenario has at its step. */
  predicate Named(s: Scenario, id: AttemptId) {
    && id.step < |s.actions| && s.actions[id.step].CallTool? && s.actions[id.step].tool == id.tool
    && ValidInput(id.tool, s.actions[id.step].args) && 1 <= id.attempt <= ATTEMPT_LIMIT
  }

  predicate Follows(trace: seq<Entry>, n: nat, fact: Fact) {
    0 < n <= |trace| && trace[n - 1].fact == fact
  }

  /** Why a run fails at `step`: its scenario has no more actions, or fails there by an action of its
      own, or the entry before the last tells of a rejected input, a failed attempt or a denial. */
  predicate Loses(s: Scenario, step: nat, before: Fact, code: Code, reason: Option<string>) {
    if step >= |s.actions| then code == ScenarioExhausted && reason.None?
    else if s.actions[step].Fail? then code == s.actions[step].code && reason.None?
    else
      match before
      case PreflightRejected(at, _) => at == step && code == InvalidInput && reason.None?
      case Erred(id, failure, _) => id.step == step && code == failure && reason.None?
      case Denied(d) => d.step == step && code == ApprovalDeniedCode && reason == d.reason
      case _ => false
  }

  /** The entry at position `n` is true of the scenario, of the rows and of the entry before it. */
  predicate EntryFits(s: Scenario, m: Record, n: nat)
    requires n < |m.trace|
  {
    match m.trace[n].fact
    case Created(mode) => n == 0 && mode == m.run.mode
    case Begun => n > 0
    case Announced(step, action) => step < |s.actions| && action == s.actions[step]
    case PreflightRejected(step, tool) =>
      && step < |s.actions| && s.actions[step].CallTool? && s.actions[step].tool == tool
      && !ValidInput(tool, s.actions[step].args)
    case Awaiting(step, tool) =>
      step < |s.actions| && s.actions[step].CallTool? && s.actions[step].tool == tool && RequiresApproval(tool)
    case Recorded(d) => d.step in m.decisions && m.decisions[d.step] == d
    case Denied(d) => !d.allow && Follows(m.trace, n, Recorded(d))
    case Opened(id) => Named(s, id)
    case Injected(id, kind) => FaultFor(s.faults, id.tool, id.attempt) == Some(kind) && Follows(m.trace, n, Opened(id))
    case Invalid(id) => Follows(m.trace, n, Injected(id, MalformedOutput))
    case Erred(id, code, transient) =>
      var fault := FaultFor(s.faults, id.tool, id.attempt);
      && fault.Some? && code == FaultCode(fault.value) && transient == Transient(fault.value)
      && Follows(m.trace, n, if transient then Injected(id, fault.value) else Invalid(id))
    case Delivered(id, output) =>
      && Named(s, id) && FaultFor(s.faults, id.tool, id.attempt).None? && Follows(m.trace, n, Opened(id))
      && output == BackendOutput(id.tool, s.actions[id.step].args)
      && (IsWrite(id.tool) ==> id.step in m.effects && m.effects[id.step].output == output)
    case Saved(step) => 0 < n && m.trace[n - 1].fact.Delivered? && step == m.trace[n - 1].fact.id.step + 1
    case Closed(verdict) =>
      && 0 < n == |m.trace| - 1 && m.run.result == Some(verdict)
      && match verdict
         case Won(outcome, summary, refs) =>
           && m.run.status.Succeeded?
           && m.run.step < |s.actions| && s.actions[m.run.step] == Finish(summary, refs, outcome)
         case Lost(code, reason) =>
           m.run.status.Failed? && Loses(s, m.run.step, m.trace[n - 1].fact, code, reason)
  }

  /** Every entry is true, the first one tells of the creation, and a run that has ended says so. */
  predicate TraceTrue(s: Scenario, m: Record) {
    && m.trace != [] && m.trace[0].fact == Created(m.run.mode)
    && (forall n :: 0 <= n < |m.trace| ==> EntryFits(s, m, n))
    && (Terminal(m.run.status) ==> m.trace[|m.trace| - 1].fact.Closed?)
  }

  /** The rows that entries speak of are kept. */
  predicate Keeps(m: Record, m': Record) {
    && m'.run.mode == m.run.mode
    && (forall k :: k in m.decisions ==> k in m'.decisions && m'.decisions[k] == m.decisions[k])
    && (forall k :: k in m.effects ==> k in m'.effects && m'.effects[k] == m.effects[k])
  }

  lemma Extends(s: Scenario, m: Record, m': Record, fact: Fact)
    requires TraceTrue(s, m) && !Terminal(m.run.status) && Keeps(m, m')
    requires |m'.trace| == |m.trace| + 1 && m'.trace[..|m.trace|] == m.trace && m'.trace[|m.trace|].fact == fact
    requires EntryFits(s, m', |m.trace|) && (Terminal(m'.run.status) ==> fact.Closed?)
    ensures TraceTrue(s, m')
  {
    hide Named, FaultFor, BackendOutput;
    forall n | 0 <= n < |m.trace|
      ensures EntryFits(s, m', n)
    {
      assert EntryFits(s, m, n) && m'.trace[n] == m.trace[n];
      assert n > 0 ==> m'.trace[n - 1] == m.trace[n - 1];
    }
  }

  lemma Tells(s: Scenario, m: Record, m1: Record, fact: Fact)
    requires TraceTrue(s, m) && !Terminal(m.run.status) && Keeps(m, m1) && m1.trace == m.trace
    requires EntryFits(s, Tell(m1, fact), |m.trace|) && (Terminal(m1.run.status) ==> fact.Closed?)
    ensures TraceTrue(s, Tell(m1, fact)) && Tell(m1, fact).trace[|m.trace|].fact == fact
    ensures |Tell(m1, fact).trace| == |m.trace| + 1 && Tell(m1, fact) == m1.(trace := Tell(m1, fact).trace)
  {
    hide TraceTrue, EntryFits;
    assert Tell(m1, fact).trace[..|m.trace|] == m.trace;
    Extends(s, m, Tell(m1, fact), fact);
  }

  lemma BreakTells(s: Scenario, m: Record, code: Code, reason: Option<string>)
    requires TraceTrue(s, m) && !Terminal(m.run.status)
    requires |m.trace| > 0 && Loses(s, m.run.step, m.trace[|m.trace| - 1].fact, code, reason)
    ensures TraceTrue(s, Break(m, code, reason))
  {
    hide TraceTrue;
    Tells(s, m, m.(run := m.run.(status := Status.Failed, pending := None, result := Some(Lost(code, reason)))),
          Closed(Lost(code, reason)));
  }

  lemma NewTells(s: Scenario, mode: Mode)
    ensures TraceTrue(s, NewRecord(mode))
  {
  }

  lemma BeginTells(s: Scenario, m: Record)
    requires TraceTrue(s, m) && !Terminal(m.run.status)
    ensures TraceTrue(s, Begin(m))
    ensures Begin(m) == m.(run := m.run.(status := Begin(m).run.status), trace := Begin(m).trace)
    ensures !Terminal(Begin(m).run.status)
  {
    assert |m.trace| > 0;
    hide TraceTrue;
    if m.run.status.Queued? {
      Tells(s, m, m.(run := m.run.(status := Status.Running)), Begun);
    }
  }

  lemma AnnounceTells(s: Scenario, m: Record)
    requires TraceTrue(s, m) && !Terminal(m.run.status) && m.run.step < |s.actions|
    ensures var m' := Announce(m, s.actions[m.run.step]);
            TraceTrue(s, m') && m' == m.(run := m.run.(announced := m.run.step), trace := m'.trace)
  {
    hide TraceTrue;
    if m.run.announced != m.run.step {
      Tells(s, m, m.(run := m.run.(announced := m.run.step)), Announced(m.run.step, s.actions[m.run.step]));
    }
  }

  lemma FaultTells(s: Scenario, m: Record, id: AttemptId, kind: FaultKind)
    requires TraceTrue(s, m) && !Terminal(m.run.status)
    requires FaultFor(s.faults, id.tool, id.attempt) == Some(kind) && Follows(m.trace, |m.trace|, Opened(id))
    requires m.run.step == id.step < |s.actions| && s.actions[id.step].CallTool?
    ensures TraceTrue(s, Fault(m, id, kind))
  {
    hide TraceTrue, FaultFor, Tell;
    var m1 := Tell(m, Injected(id, kind));
    TellView(m, Injected(id, kind));
    Tells(s, m, m, Injected(id, kind));
    var m2 := if Transient(kind) then m1 else Tell(m1, Invalid(id));
    if !Transient(kind) {
      TellView(m1, Invalid(id));
      Tells(s, m1, m1, Invalid(id));
    }
    var erred := Erred(id, FaultCode(kind), Transient(kind));
    TellView(m2, erred);
    Tells(s, m2, m2, erred);
    var m3 := Tell(m2, erred);
    BreakTells(s, m3, FaultCode(kind), None);
    Advances(s, m3, m3.(run := m3.run.(nextAttempt := m3.run.nextAttempt + 1)));
  }

  lemma TellView(m: Record, fact: Fact)
    ensures var m' := Tell(m, fact);
            && |m'.trace| == |m.trace| + 1 && m'.trace[..|m.trace|] == m.trace && m'.trace[|m.trace|].fact == fact
            && m' == m.(trace := m'.trace)
  {
  }

  /** Moving on within a run that goes on tells nothing new. */
  lemma Advances(s: Scenario, m: Record, m': Record)
    requires TraceTrue(s, m) && !Terminal(m.run.status) && !Terminal(m'.run.status)
    requires Keeps(m, m') && m'.trace == m.trace
    ensures TraceTrue(s, m')
  {
    hide Named, FaultFor, BackendOutput;
    forall n | 0 <= n < |m.trace|
      ensures EntryFits(s, m', n)
    {
      assert EntryFits(s, m, n);
    }
  }

  lemma DeliverTells(s: Scenario, m: Record, action: Action, id: AttemptId)
    requires TraceTrue(s, m) && !Terminal(m.run.status) && Named(s, id) && s.actions[id.step] == action
    requires action.CallTool?
    requires FaultFor(s.faults, id.tool, id.attempt).None? && Follows(m.trace, |m.trace|, Opened(id))
    requires id.step !in m.effects
    ensures var done := Deliver(m, action, id, BackendOutput(action.tool, action.args));
            done.Some? && TraceTrue(s, done.value)
  {
    hide TraceTrue, FaultFor, Tell, Named, BackendOutput;
    var output := BackendOutput(action.tool, action.args);
    var m1 := m.(effects := if IsWrite(action.tool) then m.effects[id.step := Effect(OfAction(action), output)]
        else m.effects);
    TellView(m1, Delivered(id, output));
    NamedTool(s, id);
    Tells(s, m, m1, Delivered(id, output));
    var m2 := Tell(m1, Delivered(id, output));
    var m3 := m2.(run := m2.run.(step := id.step + 1, nextAttempt := 1, pending := None));
    TellView(m3, Saved(id.step + 1));
    Tells(s, m2, m3, Saved(id.step + 1));
  }

  lemma NamedTool(s: Scenario, id: AttemptId)
    requires Named(s, id)
    ensures id.step < |s.actions| && s.actions[id.step].CallTool? && s.actions[id.step].tool == id.tool
  {
  }

  /** A decision for the step allows exactly this action. */
  predicate Agreed(m: Record, action: Action) {
    m.run.step in m.decisions ==> m.decisions[m.run.step].digest == OfAction(action) && m.decisions[m.run.step].allow
  }

  lemma AttemptTells(s: Scenario, m: Record, action: Action)
    requires TraceTrue(s, m) && !Terminal(m.run.status) && m.run.step < |s.actions| && s.actions[m.run.step] == action
    requires action.CallTool? && m.run.step !in m.effects && 1 <= m.run.nextAttempt <= ATTEMPT_LIMIT
    requires Agreed(m, action)
    ensures Attempt(s, m, action).Some? && TraceTrue(s, Attempt(s, m, action).value)
  {
    hide TraceTrue, FaultFor, Tell, Break, Fault, Deliver, BackendOutput;
    var step, id := m.run.step, AttemptId(m.run.step, action.tool, m.run.nextAttempt);
    if !ValidInput(action.tool, action.args) {
      TellView(m, PreflightRejected(step, action.tool));
      Tells(s, m, m, PreflightRejected(step, action.tool));
      BreakTells(s, Tell(m, PreflightRejected(step, action.tool)), InvalidInput, None);
    } else if RequiresApproval(action.tool) && step !in m.decisions {
      var paused := m.(run := m.run.(status := Status.WaitingApproval,
                                     pending := Some(Pending(step, OfAction(action), action.tool, action.args))));
      TellView(paused, Awaiting(step, action.tool));
      Tells(s, m, paused, Awaiting(step, action.tool));
    } else {
      TellView(m, Opened(id));
      Tells(s, m, m, Opened(id));
      var underway, fault := Tell(m, Opened(id)), FaultFor(s.faults, action.tool, id.attempt);
      if fault.Some? {
        FaultTells(s, underway, id, fault.value);
      } else {
        DeliverTells(s, underway, action, id);
      }
    }
  }

  lemma TransactionTells(s: Scenario, m: Record)
    requires MS.Safe(s, m) && TraceTrue(s, m) && !Stopped(m.run)
    ensures Transaction(s, m).Some? && TraceTrue(s, Transaction(s, m).value)
  {
    CursorSafe(s, m);
    hide *;
    TransactionTellsFrom(s, m);
  }

  lemma CursorSafe(s: Scenario, m: Record)
    requires MS.Safe(s, m) && !Stopped(m.run)
    ensures m.run.step !in m.effects && 1 <= m.run.nextAttempt <= ATTEMPT_LIMIT && !Terminal(m.run.status)
    ensures m.run.step < |s.actions| ==> Agreed(m, s.actions[m.run.step])
  {
    hide MS.Numbered, MS.AttemptsSafe;
  }

  lemma TransactionTellsFrom(s: Scenario, m: Record)
    requires TraceTrue(s, m) && !Terminal(m.run.status) && m.run.step !in m.effects
    requires 1 <= m.run.nextAttempt <= ATTEMPT_LIMIT
    requires m.run.step < |s.actions| ==> Agreed(m, s.actions[m.run.step])
    ensures Transaction(s, m).Some? && TraceTrue(s, Transaction(s, m).value)
  {
    BeginTells(s, m);
    var begun := Begin(m);
    hide TraceTrue, Tell, Attempt, Break, Begin, Announce;
    if m.run.step >= |s.actions| {
      BreakTells(s, begun, ScenarioExhausted, None);
    } else {
      AnnounceTells(s, begun);
      var announced := Announce(begun, s.actions[m.run.step]);
      match s.actions[m.run.step] {
        case Finish(summary, refs, outcome) =>
          var won := Won(outcome, summary, refs);
          var ended := announced.(run := announced.run.(status := Status.Succeeded, result := Some(won)));
          TellView(ended, Closed(won));
          Tells(s, announced, ended, Closed(won));
        case Fail(code, _) => BreakTells(s, announced, code, None);
        case CallTool(_, _, _) => AttemptTells(s, announced, s.actions[m.run.step]);
      }
    }
  }

  /** A new decision answers the gated call that the run waits at. */
  lemma DecidedStep(s: Scenario, m: Record, d: Decision)
    requires MS.Safe(s, m) && Decide(m, d).Ok? && d.step !in m.decisions
    ensures d.step == m.run.step < |s.actions| && s.actions[d.step].CallTool?
  {
    hide MS.Numbered, MS.AttemptsSafe, MS.DecisionsSafe, MS.EffectsSafe, Tell, Break;
  }

  lemma DecideTells(s: Scenario, m: Record, d: Decision, m': Record)
    requires MS.Safe(s, m) && TraceTrue(s, m) && Decide(m, d) == Ok(m')
    ensures TraceTrue(s, m')
  {
    hide MS.Safe, TraceTrue, Tell, Break;
    if m' != m {
      DecidedStep(s, m, d);
      var decided := m.(decisions := m.decisions[d.step := d]);
      TellView(decided, Recorded(d));
      Tells(s, m, decided, Recorded(d));
      var recorded := Tell(decided, Recorded(d));
      var cleared := recorded.(run := recorded.run.(pending := None));
      Advances(s, recorded, cleared);
      if d.allow {
        Advances(s, cleared, cleared.(run := cleared.run.(status := Status.Queued)));
      } else {
        TellView(cleared, Denied(d));
        Tells(s, cleared, cleared, Denied(d));
        BreakTells(s, Tell(cleared, Denied(d)), ApprovalDeniedCode, d.reason);
      }
    }
  }

  /** Under every crash schedule, in both modes and under any decisions, every entry of the stored
      trace is true: in particular each delivered output is the backend's answer to the action of its
      step, and for a write the output of its stored effect. */
  lemma {:induction false} TracesAreTrue(s: Scenario, mode: Mode, ops: seq<MS.Op>)
    ensures TraceTrue(s, MS.Life(s, mode, ops))
  {
    hide Transaction, Decide, MS.Safe, TraceTrue;
    if ops == [] {
      NewTells(s, mode);
    } else {
      var m, op := MS.Life(s, mode, ops[..|ops| - 1]), ops[|ops| - 1];
      TracesAreTrue(s, mode, ops[..|ops| - 1]);
      MS.LifeIsSafe(s, mode, ops[..|ops| - 1]);
      match op {
        case Resume => if !Stopped(m.run) { TransactionTells(s, m); }
        case Answer(d) => if Decide(m, d).Ok? { DecideTells(s, m, d, Decide(m, d).value); }
        case Crash =>
      }
    }
  }

  // ---------------------------------------------------------------- rows of another action

  /** Rows that belong to another action are never used, not even in records that no run reaches: a
      call whose step was decided otherwise fails unattempted, a write whose effect row is another
      action's is rolled back, and one whose effect row is its own delivers what is stored. */
  lemma ForeignRowsAreNotUsed(s: Scenario, m: Record)
    requires !Stopped(m.run) && m.run.step < |s.actions| && s.actions[m.run.step].CallTool?
    requires var action := s.actions[m.run.step];
             ValidInput(action.tool, action.args) && IsWrite(action.tool) && m.run.step in m.decisions
    ensures var action, step, after := s.actions[m.run.step], m.run.step, Transaction(s, m);
            var id := AttemptId(step, action.tool, m.run.nextAttempt);
            if m.decisions[step].digest != OfAction(action) || !m.decisions[step].allow then
              && after.Some? && after.value.run.result == Some(Lost(ApprovalMismatch, None))
              && after.value.run.status.Failed? && after.value.effects == m.effects
              && MS.OpenedIds(after.value.trace) == MS.OpenedIds(m.trace)
            else FaultFor(s.faults, action.tool, m.run.nextAttempt).None? && step in m.effects ==>
              && (after.None? <==> m.effects[step].digest != OfAction(action))
              && (after.Some? ==>
                   && after.value.effects == m.effects && after.value.run.step == step + 1
                   && exists n :: 0 <= n < |after.value.trace|
                          && after.value.trace[n].fact == Delivered(id, m.effects[step].output))
  {
    var action, step := s.actions[m.run.step], m.run.step;
    var announced := Announce(Begin(m), action);
    var id := AttemptId(step, action.tool, m.run.nextAttempt);
    PrologueKeeps(m, action);
    MS.BreakView(announced, ApprovalMismatch, None);
    TellView(announced, Opened(id));
    hide Tell, Begin, Announce, FaultFor, Fault, Break, Deliver, MS.OpenedIds;
    if step in m.effects && m.effects[step].digest == OfAction(action) {
      StoredIsDelivered(Tell(announced, Opened(id)), action, id, BackendOutput(action.tool, action.args));
    } else if step in m.effects {
      ForeignIsRolledBack(Tell(announced, Opened(id)), action, id, BackendOutput(action.tool, action.args));
    }
  }

  lemma ForeignIsRolledBack(m: Record, action: Action, id: AttemptId, output: Output)
    requires action.CallTool? && IsWrite(action.tool) && id.step in m.effects
    requires m.effects[id.step].digest != OfAction(action)
    ensures Deliver(m, action, id, output).None?
  {
  }

  lemma StoredIsDelivered(m: Record, action: Action, id: AttemptId, output: Output)
    requires action.CallTool? && IsWrite(action.tool) && id.step in m.effects
    requires m.effects[id.step].digest == OfAction(action)
    ensures var done := Deliver(m, action, id, output);
            && done.Some? && done.value.effects == m.effects && done.value.run.step == id.step + 1
            && exists n :: 0 <= n < |done.value.trace|
                   && done.value.trace[n].fact == Delivered(id, m.effects[id.step].output)
  {
    hide Tell;
    var fact := Delivered(id, m.effects[id.step].output);
    TellView(m, fact);
    var moved := Tell(m, fact);
    var next := moved.(run := moved.run.(step := id.step + 1, nextAttempt := 1, pending := None));
    TellView(next, Saved(id.step + 1));
    assert Tell(next, Saved(id.step + 1)).trace[|m.trace|] == moved.trace[|m.trace|];
  }

  lemma PrologueKeeps(m: Record, action: Action)
    ensures var announced := Announce(Begin(m), action);
            && announced.run.step == m.run.step && announced.run.nextAttempt == m.run.nextAttempt
            && announced.decisions == m.decisions && announced.effects == m.effects
            && MS.OpenedIds(announced.trace) == MS.OpenedIds(m.trace)
  {
    hide Tell;
    var running := m.(run := m.run.(status := Status.Running));
    MS.TellView(running, Begun);
    var begun := Begin(m);
    MS.TellView(begun.(run := begun.run.(announced := begun.run.step)), Announced(begun.run.step, action));
  }

  // ---------------------------------------------------------------- decisions, answer by answer

  /** Which decisions the app takes: a body within its limits, that repeats what is stored for its
      step or answers what the run waits for; an allowed one queues the run, a refused one fails it
      with the reviewer's reason, and anything else changes nothing. */
  lemma DecisionsAreTaken(m: Record, d: Decision)
    ensures Decide(m, d) == Err(InvalidBody)
            <==> |d.actor| < 1 || |d.actor| > 128 || d.step >= 100 || (d.reason.Some? && |d.reason.value| > 500)
    ensures Decide(m, d) != Err(InvalidBody) && d.step in m.decisions ==>
              Decide(m, d) == if m.decisions[d.step] == d then Ok(m) else Err(Mismatch)
    ensures Decide(m, d) != Err(InvalidBody) && d.step !in m.decisions ==>
              (Decide(m, d).Ok? <==>
                && m.run.status.WaitingApproval? && m.run.pending.Some?
                && m.run.pending.value.step == d.step && m.run.pending.value.digest == d.digest)
    ensures Decide(m, d).Ok? && d.step !in m.decisions ==>
              var m' := Decide(m, d).value;
              && m'.decisions == m.decisions[d.step := d] && m'.effects == m.effects && m'.run.pending.None?
              && m'.run.step == m.run.step && m'.run.nextAttempt == m.run.nextAttempt
              && (d.allow ==> m'.run.status.Queued? && m'.run.result == m.run.result)
              && (!d.allow ==> m'.run.status.Failed? && m'.run.result == Some(Lost(ApprovalDeniedCode, d.reason)))
  {
    hide MaxSequence;
  }
}
