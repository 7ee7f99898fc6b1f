/** The mobile engine announces and checkpoints every step once, in order, under any crash schedule. */
module MobileProgress {
  import opened Domain
  import opened Mobile
  import MS = MobileSafety

  datatype Announcement = Announcement(step: nat, action: Action)

  function Announcements(trace: seq<Entry>): seq<Announcement> {
    if trace == [] then []
    else
      var rest, fact := Announcements(trace[..|trace| - 1]), trace[|trace| - 1].fact;
      if fact.Announced? then rest + [Announcement(fact.step, fact.action)] else rest
  }

  function Checkpoints(trace: seq<Entry>): seq<nat> {
    if trace == [] then []
    else
      var rest, fact := Checkpoints(trace[..|trace| - 1]), trace[|trace| - 1].fact;
      if fact.Saved? then rest + [fact.step] else rest
  }

  /** The steps up to the last announced one are announced in order, each with its action, and the
      steps below the cursor are checkpointed in order. */
  predicate InOrder(s: Scenario, m: Record) {
    var announced, saved := Announcements(m.trace), Checkpoints(m.trace);
    && m.run.announced <= m.run.step <= m.run.announced + 1
    && |announced| == m.run.announced + 1 <= |s.actions|
    && (forall k :: 0 <= k < |announced| ==> announced[k] == Announcement(k, s.actions[k]))
    && |saved| == m.run.step && (forall k :: 0 <= k < |saved| ==> saved[k] == k + 1)
  }

  predicate Quiet(fact: Fact) {
    !fact.Announced? && !fact.Saved?
  }

  lemma TellAdds(m: Record, fact: Fact)
    ensures var m' := Tell(m, fact);
            && Announcements(m'.trace)
                == Announcements(m.trace) + (if fact.Announced? then [Announcement(fact.step, fact.action)] else [])
            && Checkpoints(m'.trace) == Checkpoints(m.trace) + (if fact.Saved? then [fact.step] else [])
            && m'.run == m.run
  {
    assert Tell(m, fact).trace[..|m.trace|] == m.trace;
  }

  /** Nothing of interest was told, and the cursor stands where it stood. */
  predicate Still(m: Record, m': Record) {
    && Announcements(m'.trace) == Announcements(m.trace) && Checkpoints(m'.trace) == Checkpoints(m.trace)
    && m'.run.step == m.run.step && m'.run.announced == m.run.announced
  }

  lemma TellStill(m: Record, m1: Record, fact: Fact)
    requires Still(m, m1) && Quiet(fact)
    ensures Still(m, Tell(m1, fact))
  {
    TellAdds(m1, fact);
    hide Tell, Announcements, Checkpoints;
  }

  lemma BreakStill(m: Record, m1: Record, code: Code, reason: Option<string>)
    requires Still(m, m1)
    ensures Still(m, Break(m1, code, reason))
  {
    hide Tell, Announcements, Checkpoints;
    TellStill(m, m1.(run := m1.run.(status := Status.Failed, pending := None, result := Some(Lost(code, reason)))),
        Closed(Lost(code, reason)));
  }

  lemma FaultStill(m: Record, id: AttemptId, kind: FaultKind)
    ensures Still(m, Fault(m, id, kind))
  {
    hide Tell, Break, Announcements, Checkpoints;
    var injected := Tell(m, Injected(id, kind));
    TellStill(m, m, Injected(id, kind));
    var rejected := if Transient(kind) then injected else Tell(injected, Invalid(id));
    TellStill(m, injected, Invalid(id));
    var erred := Erred(id, FaultCode(kind), Transient(kind));
    TellStill(m, rejected, erred);
    BreakStill(m, Tell(rejected, erred), FaultCode(kind), None);
  }

  lemma DeliverSaves(m: Record, action: Action, id: AttemptId, output: Output)
    requires action.CallTool? && id.step == m.run.step && Deliver(m, action, id, output).Some?
    ensures var m' := Deliver(m, action, id, output).value;
            && Announcements(m'.trace) == Announcements(m.trace) && m'.run.announced == m.run.announced
            && Checkpoints(m'.trace) == Checkpoints(m.trace) + [m.run.step + 1] && m'.run.step == m.run.step + 1
  {
    hide Tell, Announcements, Checkpoints;
    var kept := IsWrite(action.tool) && id.step in m.effects;
    var raw := if kept then m.effects[id.step].output else output;
    var m1 := m.(effects := if IsWrite(action.tool) && !kept then m.effects[id.step := Effect(OfAction(action), output)]
        else m.effects);
    TellAdds(m1, Delivered(id, raw));
    var m2 := Tell(m1, Delivered(id, raw));
    TellAdds(m2.(run := m2.run.(step := id.step + 1, nextAttempt := 1, pending := None)), Saved(id.step + 1));
  }

  /** An attempt leaves the cursor alone, or checkpoints its step and moves on. */
  lemma AttemptMoves(s: Scenario, m: Record, action: Action)
    requires action.CallTool? && Attempt(s, m, action).Some?
    ensures var m' := Attempt(s, m, action).value;
            || Still(m, m')
            || (&& Announcements(m'.trace) == Announcements(m.trace) && m'.run.announced == m.run.announced
                && Checkpoints(m'.trace) == Checkpoints(m.trace) + [m.run.step + 1] && m'.run.step == m.run.step + 1)
  {
    hide Tell, Break, Fault, Deliver, Announcements, Checkpoints, FaultFor, BackendOutput;
    var step, id := m.run.step, AttemptId(m.run.step, action.tool, m.run.nextAttempt);
    if !ValidInput(action.tool, action.args) {
      TellStill(m, m, PreflightRejected(step, action.tool));
      BreakStill(m, Tell(m, PreflightRejected(step, action.tool)), InvalidInput, None);
    } else if RequiresApproval(action.tool) && step !in m.decisions {
      TellStill(m, m.(run := m.run.(status := Status.WaitingApproval,
                                    pending := Some(Pending(step, OfAction(action), action.tool, action.args)))),
                Awaiting(step, action.tool));
    } else if RequiresApproval(action.tool)
        && (m.decisions[step].digest != OfAction(action) || !m.decisions[step].allow) {
      BreakStill(m, m, ApprovalMismatch, None);
    } else {
      TellAdds(m, Opened(id));
      var underway := Tell(m, Opened(id));
      var fault := FaultFor(s.faults, action.tool, id.attempt);
      if fault.Some? {
        FaultStill(underway, id, fault.value);
      } else {
        DeliverSaves(underway, action, id, BackendOutput(action.tool, action.args));
      }
    }
  }

  lemma AnnounceOrders(s: Scenario, m: Record)
    requires InOrder(s, m) && m.run.step < |s.actions|
    ensures var m' := Announce(m, s.actions[m.run.step]);
            InOrder(s, m') && m'.run.announced == m'.run.step == m.run.step
  {
    hide Tell, Announcements, Checkpoints;
    TellAdds(m.(run := m.run.(announced := m.run.step)), Announced(m.run.step, s.actions[m.run.step]));
  }

  lemma StillInOrder(s: Scenario, m: Record, m': Record)
    requires InOrder(s, m) && Still(m, m')
    ensures InOrder(s, m')
  {
  }

  lemma TransactionOrders(s: Scenario, m: Record)
    requires InOrder(s, m) && Transaction(s, m).Some?
    ensures InOrder(s, Transaction(s, m).value)
  {
    hide Tell, Break, Attempt, Announcements, Checkpoints;
    var begun := Begin(m);
    TellStill(m, m.(run := m.run.(status := Status.Running)), Begun);
    StillInOrder(s, m, begun);
    if m.run.step >= |s.actions| {
      BreakStill(begun, begun, ScenarioExhausted, None);
      StillInOrder(s, begun, Transaction(s, m).value);
    } else {
      AnnounceOrders(s, begun);
      ActionOrders(s, Announce(begun, s.actions[m.run.step]), Transaction(s, m).value);
    }
  }

  /** What a transaction does with an announced action. */
  predicate Acts(s: Scenario, m: Record, m': Record)
    requires m.run.step < |s.actions|
  {
    match s.actions[m.run.step]
    case Finish(summary, refs, outcome) =>
      m' == Tell(m.(run := m.run.(status := Status.Succeeded, result := Some(Won(outcome, summary, refs)))),
                 Closed(Won(outcome, summary, refs)))
    case Fail(code, _) => m' == Break(m, code, None)
    case CallTool(_, _, _) => Attempt(s, m, s.actions[m.run.step]) == Some(m')
  }

  lemma ActionOrders(s: Scenario, m: Record, m': Record)
    requires InOrder(s, m) && m.run.announced == m.run.step < |s.actions| && Acts(s, m, m')
    ensures InOrder(s, m')
  {
    hide Tell, Break, Attempt, Announcements, Checkpoints;
    match s.actions[m.run.step] {
      case Finish(summary, refs, outcome) =>
        var won := Won(outcome, summary, refs);
        TellStill(m, m.(run := m.run.(status := Status.Succeeded, result := Some(won))), Closed(won));
      case Fail(code, _) => BreakStill(m, m, code, None);
      case CallTool(_, _, _) => AttemptMoves(s, m, s.actions[m.run.step]);
    }
  }

  lemma DecideStill(m: Record, d: Decision)
    requires Decide(m, d).Ok?
    ensures Still(m, Decide(m, d).value)
  {
    hide Tell, Break, Announcements, Checkpoints;
    var decided := m.(decisions := m.decisions[d.step := d]);
    TellStill(m, decided, Recorded(d));
    var recorded := Tell(decided, Recorded(d));
    var cleared := recorded.(run := recorded.run.(pending := None));
    TellStill(m, cleared, Denied(d));
    BreakStill(m, Tell(cleared, Denied(d)), ApprovalDeniedCode, d.reason);
  }

  /** Under every crash schedule and any decisions, in both modes: the announced steps are 0, 1, ... in
      order, each announced once with its own action however often it is tried, crashed or resumed;
      the checkpoints are 1, 2, ... up to the cursor; and the cursor stands at the last announced
      step or just past it. */
  lemma {:induction false} StepsAreToldOnce(s: Scenario, mode: Mode, ops: seq<MS.Op>)
    ensures InOrder(s, MS.Life(s, mode, ops))
  {
    hide Transaction, Decide, Tell, Announcements, Checkpoints, MS.Safe;
    if ops == [] {
      var blank := Record(Progress(mode, Queued, 0, 1, -1, None, None), [], map[], map[]);
      TellAdds(blank, Created(mode));
      assert Announcements([]) == [] && Checkpoints([]) == [] by { Nothing(); }
    } else {
      var m, op := MS.Life(s, mode, ops[..|ops| - 1]), ops[|ops| - 1];
      StepsAreToldOnce(s, mode, ops[..|ops| - 1]);
      match op {
        case Resume =>
          if !Stopped(m.run) && Transaction(s, m).Some? { TransactionOrders(s, m); }
        case Answer(d) =>
          if Decide(m, d).Ok? {
            DecideStill(m, d);
            StillInOrder(s, m, Decide(m, d).value);
          }
        case Crash =>
      }
    }
  }

  lemma Nothing()
    ensures Announcements([]) == [] && Checkpoints([]) == []
  {
  }

  // ---------------------------------------------------------------- beginnings

  /** Facts after which a run is queued: its creation, and a decision that allows it to go on. */
  predicate Queues(fact: Fact) {
    fact.Created? || (fact.Recorded? && fact.decision.allow)
  }

  /** A run begins exactly where it was queued, and is queued exactly while that is still to come. */
  predicate Begins(m: Record) {
    && m.trace != [] && (m.run.status.Queued? <==> Queues(m.trace[|m.trace| - 1].fact))
    && (forall n :: 0 < n < |m.trace| ==> (m.trace[n].fact.Begun? <==> Queues(m.trace[n - 1].fact)))
  }

  /** The same trace, and not queued. */
  predicate Working(m: Record, m1: Record) {
    Begins(m) && m1.trace == m.trace && !m.run.status.Queued? && !m1.run.status.Queued?
  }

  lemma TellBegins(m: Record, m1: Record, fact: Fact)
    requires Working(m, m1) && !Queues(fact) && !fact.Begun?
    ensures Begins(Tell(m1, fact)) && !Tell(m1, fact).run.status.Queued?
    ensures Tell(m1, fact).run == m1.run
  {
    hide MaxSequence;
    assert Tell(m1, fact).trace[..|m.trace|] == m.trace;
  }

  lemma BreakBegins(m: Record, m1: Record, code: Code, reason: Option<string>)
    requires Working(m, m1)
    ensures Begins(Break(m1, code, reason))
  {
    hide Tell, Begins;
    TellBegins(m, m1.(run := m1.run.(status := Status.Failed, pending := None, result := Some(Lost(code, reason)))),
        Closed(Lost(code, reason)));
  }

  lemma FaultBegins(m: Record, id: AttemptId, kind: FaultKind)
    requires Begins(m) && !m.run.status.Queued?
    ensures Begins(Fault(m, id, kind))
  {
    hide Tell, Break;
    TellBegins(m, m, Injected(id, kind));
    var injected := Tell(m, Injected(id, kind));
    TellBegins(injected, injected, Invalid(id));
    var rejected := if Transient(kind) then injected else Tell(injected, Invalid(id));
    TellBegins(rejected, rejected, Erred(id, FaultCode(kind), Transient(kind)));
    var erred := Tell(rejected, Erred(id, FaultCode(kind), Transient(kind)));
    BreakBegins(erred, erred, FaultCode(kind), None);
  }

  lemma DeliverBegins(m: Record, action: Action, id: AttemptId, output: Output)
    requires action.CallTool? && Begins(m) && !m.run.status.Queued? && Deliver(m, action, id, output).Some?
    ensures Begins(Deliver(m, action, id, output).value)
  {
    hide Tell;
    var kept := IsWrite(action.tool) && id.step in m.effects;
    var raw := if kept then m.effects[id.step].output else output;
    var m1 := m.(effects := if IsWrite(action.tool) && !kept then m.effects[id.step := Effect(OfAction(action), output)]
        else m.effects);
    TellBegins(m, m1, Delivered(id, raw));
    var m2 := Tell(m1, Delivered(id, raw));
    TellBegins(m2, m2.(run := m2.run.(step := id.step + 1, nextAttempt := 1, pending := None)), Saved(id.step + 1));
  }

  lemma AttemptBegins(s: Scenario, m: Record, action: Action)
    requires action.CallTool? && Begins(m) && !m.run.status.Queued? && Attempt(s, m, action).Some?
    ensures Begins(Attempt(s, m, action).value)
  {
    hide Tell, Break, Fault, Deliver, FaultFor, BackendOutput;
    var step, id := m.run.step, AttemptId(m.run.step, action.tool, m.run.nextAttempt);
    if !ValidInput(action.tool, action.args) {
      TellBegins(m, m, PreflightRejected(step, action.tool));
      var rejected := Tell(m, PreflightRejected(step, action.tool));
      BreakBegins(rejected, rejected, InvalidInput, None);
    } else if RequiresApproval(action.tool) && step !in m.decisions {
      TellBegins(m, m.(run := m.run.(status := Status.WaitingApproval,
                                     pending := Some(Pending(step, OfAction(action), action.tool, action.args)))),
                 Awaiting(step, action.tool));
    } else if RequiresApproval(action.tool)
        && (m.decisions[step].digest != OfAction(action) || !m.decisions[step].allow) {
      BreakBegins(m, m, ApprovalMismatch, None);
    } else {
      TellBegins(m, m, Opened(id));
      var underway, fault := Tell(m, Opened(id)), FaultFor(s.faults, action.tool, id.attempt);
      if fault.Some? {
        FaultBegins(underway, id, fault.value);
      } else {
        DeliverBegins(underway, action, id, BackendOutput(action.tool, action.args));
      }
    }
  }

  lemma BeginBegins(m: Record)
    requires Begins(m)
    ensures Begins(Begin(m)) && !Begin(m).run.status.Queued?
    ensures !m.run.status.Queued? ==> Begin(m) == m
  {
    hide MaxSequence;
    if m.run.status.Queued? {
      assert Begin(m).trace[..|m.trace|] == m.trace;
    }
  }

  lemma AnnounceBegins(m: Record, action: Action)
    requires Begins(m) && !m.run.status.Queued?
    ensures Begins(Announce(m, action)) && !Announce(m, action).run.status.Queued?
  {
    hide Tell, Begins;
    assert Working(m, m) by { Same(m); }
    TellBegins(m, m.(run := m.run.(announced := m.run.step)), Announced(m.run.step, action));
  }

  lemma Same(m: Record)
    requires Begins(m) && !m.run.status.Queued?
    ensures Working(m, m)
  {
  }

  lemma TransactionBegins(s: Scenario, m: Record)
    requires Begins(m) && Transaction(s, m).Some?
    ensures Begins(Transaction(s, m).value)
  {
    hide Tell, Break, Attempt, Begin, Announce;
    var begun := Begin(m);
    BeginBegins(m);
    if m.run.step >= |s.actions| {
      BreakBegins(begun, begun, ScenarioExhausted, None);
    } else {
      var announced := Announce(begun, s.actions[m.run.step]);
      AnnounceBegins(begun, s.actions[m.run.step]);
      match s.actions[m.run.step] {
        case Finish(summary, refs, outcome) =>
          var won := Won(outcome, summary, refs);
          TellBegins(announced, announced.(run := announced.run.(status := Status.Succeeded, result := Some(won))),
              Closed(won));
        case Fail(code, _) => BreakBegins(announced, announced, code, None);
        case CallTool(_, _, _) => AttemptBegins(s, announced, s.actions[m.run.step]);
      }
    }
  }

  /** A decision is told, and the run is queued exactly if it allows. */
  lemma RecordedBegins(m: Record, m1: Record, d: Decision)
    requires Begins(m) && !m.run.status.Queued? && m1.trace == m.trace && (m1.run.status.Queued? <==> d.allow)
    ensures Begins(Tell(m1, Recorded(d))) && Tell(m1, Recorded(d)).run == m1.run
  {
    hide MaxSequence;
    assert Tell(m1, Recorded(d)).trace[..|m.trace|] == m.trace;
  }

  lemma TellKeepsRun(m: Record, run: Progress, fact: Fact)
    ensures Tell(m, fact).(run := run) == Tell(m.(run := run), fact)
  {
  }

  lemma DecideBegins(m: Record, d: Decision)
    requires Begins(m) && Decide(m, d).Ok?
    ensures Begins(Decide(m, d).value)
  {
    if Decide(m, d).value != m {
      var decided := m.(decisions := m.decisions[d.step := d]);
      var waiting := decided.run.(pending := None);
      TellKeepsRun(decided, waiting, Recorded(d));
      TellKeepsRun(decided, waiting.(status := Status.Queued), Recorded(d));
      hide Tell, Break, Begins;
      if d.allow {
        RecordedBegins(m, decided.(run := waiting.(status := Status.Queued)), d);
      } else {
        var cleared := Tell(decided.(run := waiting), Recorded(d));
        RecordedBegins(m, decided.(run := waiting), d);
        Same(cleared);
        TellBegins(cleared, cleared, Denied(d));
        var denied := Tell(cleared, Denied(d));
        Same(denied);
        BreakBegins(denied, denied, ApprovalDeniedCode, d.reason);
      }
    }
  }

  /** Under every crash schedule the trace tells of a beginning right after the creation and after each
      decision to go on, and nowhere else. */
  lemma {:induction false} RunsBeginWhereQueued(s: Scenario, mode: Mode, ops: seq<MS.Op>)
    ensures Begins(MS.Life(s, mode, ops))
  {
    if ops != [] {
      hide Transaction, Decide, Begins, MS.Safe;
      var m, op := MS.Life(s, mode, ops[..|ops| - 1]), ops[|ops| - 1];
      RunsBeginWhereQueued(s, mode, ops[..|ops| - 1]);
      match op {
        case Resume => if !Stopped(m.run) && Transaction(s, m).Some? { TransactionBegins(s, m); }
        case Answer(d) => if Decide(m, d).Ok? { DecideBegins(m, d); }
        case Crash =>
      }
    }
  }

  // ---------------------------------------------------------------- passes

  /** `k` transactions commit one after the other, none of them from a stopped run. */
  predicate Commits(s: Scenario, m: Record, k: nat)
    decreases k
  {
    k == 0 || (!Stopped(m.run) && Transaction(s, m).Some? && Commits(s, Transaction(s, m).value, k - 1))
  }

  /** The run stops after exactly `k` transactions. */
  predicate StopsAfter(s: Scenario, m: Record, k: nat)
    decreases k
  {
    if k == 0 then Stopped(m.run)
    else !Stopped(m.run) && Transaction(s, m).Some? && StopsAfter(s, Transaction(s, m).value, k - 1)
  }

  ghost predicate StopsWithin(s: Scenario, m: Record, passes: nat) {
    exists k: nat :: k < passes && StopsAfter(s, m, k)
  }

  lemma OneLater(s: Scenario, m: Record, passes: nat)
    requires passes > 0 && !Stopped(m.run) && Transaction(s, m).Some?
    ensures StopsWithin(s, m, passes) <==> StopsWithin(s, Transaction(s, m).value, passes - 1)
  {
    hide Transaction;
    var next := Transaction(s, m).value;
    if StopsWithin(s, m, passes) {
      var k: nat :| k < passes && StopsAfter(s, m, k);
      assert StopsAfter(s, next, k - 1);
    }
    if StopsWithin(s, next, passes - 1) {
      var k: nat :| k < passes - 1 && StopsAfter(s, next, k);
      assert StopsAfter(s, m, k + 1);
    }
  }

  /** The loop returns the run exactly if it stops after fewer transactions than the loop has passes, and
      reports an exhausted budget exactly if every pass committed a transaction: also if the last one
      stopped the run. */
  lemma {:induction false} PassesAreCounted(s: Scenario, m: Record, passes: nat)
    ensures Advance(s, m, passes).1.Ok? <==> StopsWithin(s, m, passes)
    ensures Advance(s, m, passes).1 == Err(BudgetExceeded) <==> Commits(s, m, passes)
    ensures forall k: nat :: StopsAfter(s, m, k) ==> Commits(s, m, k)
    decreases passes
  {
    hide Transaction;
    StopsCommit(s, m);
    if passes > 0 && !Stopped(m.run) && Transaction(s, m).Some? {
      PassesAreCounted(s, Transaction(s, m).value, passes - 1);
      OneLater(s, m, passes);
      hide StopsWithin;
    } else if passes > 0 && Stopped(m.run) {
      assert StopsAfter(s, m, 0);
    }
  }

  lemma {:induction false} StopsCommit(s: Scenario, m: Record)
    ensures forall k: nat :: StopsAfter(s, m, k) ==> Commits(s, m, k)
  {
    forall k: nat | StopsAfter(s, m, k)
      ensures Commits(s, m, k)
    {
      StopCommits(s, m, k);
    }
  }

  lemma {:induction false} StopCommits(s: Scenario, m: Record, k: nat)
    requires StopsAfter(s, m, k)
    ensures Commits(s, m, k)
    decreases k
  {
    hide Transaction;
    if k > 0 {
      StopCommits(s, Transaction(s, m).value, k - 1);
    }
  }
}
