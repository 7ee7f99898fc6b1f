/** The cases of the agreement that need no approval: how a pass of the loop ends or goes on. */
module AgreementCases {
  import opened Domain
  import opened Evidence
  import opened Gate
  import opened AgreementLedger
  import opened AgreementCalls
  import opened AgreementSteps
  import opened AgreementHead
  import opened Rows
  import P = Protocol
  import W = Gateway
  import D = Desktop

  // ---------------------------------------------------------------- what is left of a case

  /** The tables at the end of the case, from a loop head; the suite's approval is still to
      come as long as nothing was written. */
  function Final(w: World, t: Tables, wrote: bool): Tables {
    if wrote then D.Loop(w.job, t) else D.Decide(w.scenario, w.job, D.Loop(w.job, t).(lease := None))
  }

  function Pre(w: World, t: Tables, wrote: bool): nat {
    if wrote then 0 else D.Writes(D.Loop(w.job, t).events)
  }

  function Report(w: World, traceId: nat, t: Tables, wrote: bool): Option<Claims> {
    ClaimsOf(CaseOf(w.mode, traceId, Pre(w, t, wrote), Final(w, t, wrote)), FrozenOf(w.scenario))
  }

  lemma GoesOn(w: World, traceId: nat, t: Tables, wrote: bool)
    requires t.run.status.Running?
    ensures Report(w, traceId, t, wrote) == Report(w, traceId, D.Pass(w.job, t), wrote)
  {
    hide ClaimsOf, D.Pass, D.Decide;
    assert D.Loop(w.job, t) == D.Loop(w.job, D.Pass(w.job, t));
  }

  /** Where the run stops for good, the case stops too. */
  lemma EndsHere(w: World, t: Tables, wrote: bool)
    requires t.run.status.Running? && !D.Pass(w.job, t).run.status.Running?
    requires D.Pass(w.job, t).run.status.WaitingApproval? ==> wrote || !w.scenario.approvalSupplied
    ensures Final(w, t, wrote).events == D.Pass(w.job, t).events
    ensures Pre(w, t, wrote) == if wrote then 0 else D.Writes(D.Pass(w.job, t).events)
  {
    hide D.Pass;
    var u := D.Pass(w.job, t);
    assert D.Loop(w.job, u) == u;
  }

  lemma RefusedReport(w: World, traceId: nat, t: Tables, wrote: bool, events: seq<Event>)
    requires See(w, events).Refused?
    requires |events| <= |Final(w, t, wrote).events| && Final(w, t, wrote).events[..|events|] == events
    ensures Report(w, traceId, t, wrote).None?
  {
    RefusalIsFinal(PlanOf(w), w.scenario.context, w.mode, Final(w, t, wrote).events, |events|);
    ItemsEvents(Final(w, t, wrote).events, traceId);
    hide Final, Pre, Conclude, Fold, ByStep, HeaderOk, FrozenOk;
  }

  /** A run refused at its last event is refused. */
  lemma RefusedEnd(w: World, traceId: nat, t: Tables, wrote: bool)
    requires t.run.status.Running? && !D.Pass(w.job, t).run.status.Running?
    requires !D.Pass(w.job, t).run.status.WaitingApproval?
    requires See(w, D.Pass(w.job, t).events).Refused?
    ensures Report(w, traceId, t, wrote).None?
  {
    EndsHere(w, t, wrote);
    hide Final, D.Pass, See, Report;
    assert D.Pass(w.job, t).events[..|D.Pass(w.job, t).events|] == D.Pass(w.job, t).events;
    RefusedReport(w, traceId, t, wrote, D.Pass(w.job, t).events);
  }

  /** A run refused on its way is refused. */
  lemma RefusedOn(w: World, traceId: nat, t: Tables, wrote: bool)
    requires t.run.status.Running? && D.Pass(w.job, t).run.status.Running?
    requires See(w, D.Pass(w.job, t).events).Refused?
    ensures Report(w, traceId, t, wrote).None?
  {
    var u := D.Pass(w.job, t);
    FinalGrows(w, u, wrote);
    GoesOn(w, traceId, t, wrote);
    hide Final, D.Pass, See, Report;
    RefusedReport(w, traceId, u, wrote, u.events);
  }

  lemma FinalGrows(w: World, t: Tables, wrote: bool)
    ensures D.Grows(t, Final(w, t, wrote))
  {
    D.LoopGrows(w.job, t);
    hide D.Loop, D.Enter;
    if !wrote {
      var first := D.Loop(w.job, t).(lease := None);
      if first.run.status.WaitingApproval? && w.scenario.approvalSupplied && first.run.pendingDigest.Some? {
        var recorded := Rows.Record(first, first.run.step, D.SuiteApproval(first.run.pendingDigest.value), true);
        if recorded.Ok? {
          ExecuteGrows(w.job, recorded.value, 1);
          D.GrowsOn(t, first, recorded.value);
          D.GrowsOn(t, recorded.value, Final(w, t, wrote));
        }
      }
    }
  }

  lemma ExecuteGrows(job: D.Job, t: Tables, token: Token)
    ensures D.Grows(t, D.ExecuteOwned(job, t, token))
  {
    var leased := t.(lease := Some(Lease(token, job.now + job.leaseSeconds)));
    EnterGrows(leased);
    D.LoopGrows(job, D.Enter(leased));
    hide D.Loop, D.Enter;
    D.GrowsOn(leased, D.Enter(leased), D.Loop(job, D.Enter(leased)));
  }

  lemma EnterGrows(t: Tables)
    ensures D.Grows(t, D.Enter(t))
  {
    D.SaveGrows(t, t.run.(status := Status.Running, pendingApproval := false),
        [Note(0, Fine, RunRunning(t.run.status))]);
    hide D.Save;
  }

  /** A settled end, of which every step is accounted for, is accepted. */
  lemma AcceptedEnd(w: World, traceId: nat, t: Tables, g: State, wrote: Option<nat>)
    requires t.run.status.Running? && Contiguous(t)
    requires var u := D.Pass(w.job, t);
             && !u.run.status.Running? && !u.run.status.WaitingApproval?
             && See(w, u.events) == Live(g)
             && D.Writes(u.events) == (if wrote.Some? then 1 else 0)
    requires Below(w, g, t.run.step, wrote) && LastStep(w, g, t.run.step) && Settled(g) && AttemptSemantics(g.ledger)
    ensures Report(w, traceId, t, wrote.Some?).Some?
    ensures Report(w, traceId, t, wrote.Some?).value.accepted == g.delivery.accepted
  {
    var u := D.Pass(w.job, t);
    EndsHere(w, t, wrote.Some?);
    FinalGrows(w, t, wrote.Some?);
    D.PassGrows(w.job, t);
    hide D.Pass, See, Settled, LastStep, Below, AttemptSemantics, Final, D.Writes, ClaimsOf;
    var f := Final(w, t, wrote.Some?);
    var c := CaseOf(w.mode, traceId, Pre(w, t, wrote.Some?), f);
    ClaimsSeen(w, traceId, Pre(w, t, wrote.Some?), f);
    Concludes(w, c, g, t.run.step, wrote);
  }

  /** The case is accepted with the answers to the first `n` actions. */
  ghost predicate Credited(w: World, traceId: nat, t: Tables, wrote: bool, n: nat) {
    Report(w, traceId, t, wrote).Some? && AnsweredTo(w.scenario.actions, Report(w, traceId, t, wrote).value.accepted, n)
  }

  // ---------------------------------------------------------------- announcing

  function Told(g: State, sequence: nat, step: nat, action: Action): State {
    g.(cursor := Announce(g.cursor, sequence, step, action))
  }

  /** The reserved policy call and the announcement of its action. */
  function Announcing(t: Tables, action: Action): Tables {
    Append(D.Reserve(t), Note(0, Fine, PolicyAction(t.run.step, action)))
  }

  lemma AnnounceSeen(w: World, t: Tables, g: State, wrote: Option<nat>)
    requires Head(w, t, g, wrote) && t.run.step < |w.scenario.actions|
    ensures var action := w.scenario.actions[t.run.step];
            See(w, Announcing(t, action).events) == Live(Told(g, t.counter + 1, t.run.step, action))
  {
    hide See, ByStep, Project, Rested, Below, AllCompleted, Contiguous, D.Writes, AnsweredTo, ExpectedDigest;
    ProjectionFollows(w.scenario.actions);
    var action := w.scenario.actions[t.run.step];
    Extend(w, D.Reserve(t), Note(0, Fine, PolicyAction(t.run.step, action)), g);
  }

  /** Announcing the step of the loop head leaves everything below it alone. */
  lemma ToldBelow(w: World, t: Tables, g: State, wrote: Option<nat>)
    requires Head(w, t, g, wrote) && t.run.step < |w.scenario.actions|
    ensures var action := w.scenario.actions[t.run.step];
            var g1 := Told(g, t.counter + 1, t.run.step, action);
            && Below(w, g1, t.run.step, wrote) && LastStep(w, g1, t.run.step)
            && g1.cursor.positions[t.run.step] == [t.counter + 1]
  {
    hide See, Below, AllBelow, Executed, AllCompleted, Contiguous, D.Writes, AnsweredTo, AttemptSemantics;
    var g1 := Told(g, t.counter + 1, t.run.step, w.scenario.actions[t.run.step]);
    assert CursorAt(g, t.run.step) && Below(w, g, t.run.step, wrote) && AllBelow(g.ledger, t.run.step);
    hide Head;
    BelowKept(w, g, g1, t.run.step, t.counter, wrote);
    NothingAt(g.ledger, t.run.step);
  }

  lemma NothingAt(l: Ledger, step: nat)
    requires AllBelow(l, step)
    ensures !Executed(l, step) && AllBelow(l, step + 1)
  {
  }

  // ---------------------------------------------------------------- ends without a call

  /** A run out of budget or out of actions fails in a way no evidence explains. */
  lemma NoAction(w: World, traceId: nat, t: Tables, g: State, wrote: Option<nat>)
    requires Head(w, t, g, wrote)
    requires t.run.step >= w.job.budget || t.run.step >= |w.scenario.actions|
    ensures Report(w, traceId, t, wrote.Some?).None?
  {
    hide See, Rested, Below, Free, Report, D.Writes, D.Terminate, AllCompleted;
    if t.run.step >= w.job.budget {
      UnexplainedFailure(w, t, g, ActionBudgetExhausted, Bare);
    } else {
      UnexplainedFailure(w, D.Reserve(t), g, PolicyError, Explained("PolicyExhaustedError"));
    }
    RefusedEnd(w, traceId, t, wrote.Some?);
  }

  lemma FinishSeen(w: World, t: Tables, g: State, outcome: Code, summary: string, refs: seq<string>)
    requires See(w, t.events) == Live(g) && Free(g.(cursor := g.cursor.(terminalAction := None)))
    requires g.ledger.started == {}
    requires g.cursor.terminalAction == Some(Finish(summary, refs, outcome))
    ensures See(w, D.Succeed(t, outcome, summary, refs).events)
            == Live(g.(ending := Ending(None, None, Some((Succeeded, Outcome(outcome, summary, refs))))))
  {
    hide See, PlanOf;
    var result := Outcome(outcome, summary, refs);
    SaveSeen(w, t, g, t.run.(status := Status.Succeeded, step := t.run.step + 1, pendingAction := None,
        pendingDigest := None,
                             result := Some(result)), Note(0, Fine, RunSucceeded(result)));
  }

  lemma FailSeen(w: World, t: Tables, g: State, code: Code, explanation: string)
    requires See(w, t.events) == Live(g) && Free(g.(cursor := g.cursor.(terminalAction := None)))
    requires g.ledger.started == {}
    requires g.cursor.terminalAction == Some(Fail(code, explanation))
    ensures See(w, D.Terminate(t, code, Explained(explanation), true).events)
            == Live(g.(ending := Ending(None, None, Some((Failed, Failure(code, Explained(explanation)))))))
  {
    hide See, PlanOf;
    SaveSeen(w, t, g, P.Ended(t.run, code, Explained(explanation), true),
        Note(0, Error, RunFailed(Failure(code, Explained(explanation)))));
  }

  lemma SameBelow(w: World, g: State, g': State, step: nat, wrote: Option<nat>)
    requires Below(w, g, step, wrote) && LastStep(w, g, step)
    requires g'.cursor.positions == g.cursor.positions && g'.ledger == g.ledger
    requires g'.consent.waits == g.consent.waits && g'.consent.decisions == g.consent.decisions
    requires g'.consent.resumes == g.consent.resumes
    ensures Below(w, g', step, wrote) && LastStep(w, g', step)
  {
    BelowKept(w, g, g', step, 0, wrote);
    hide Below;
  }

  /** A `finish` or `fail` at the loop head is accepted. */
  lemma TerminalAction(w: World, traceId: nat, t: Tables, g: State, wrote: Option<nat>)
    requires Head(w, t, g, wrote) && t.run.step < w.job.budget && t.run.step < |w.scenario.actions|
    requires !w.scenario.actions[t.run.step].CallTool?
    ensures Credited(w, traceId, t, wrote.Some?, t.run.step)
  {
    var action := w.scenario.actions[t.run.step];
    var g1, t1 := Told(g, t.counter + 1, t.run.step, action), Announcing(t, action);
    AnnounceSeen(w, t, g, wrote);
    ToldBelow(w, t, g, wrote);
    WritesAppend(D.Reserve(t), Note(0, Fine, PolicyAction(t.run.step, action)));
    assert D.Pass(w.job, t) == D.Carry(w.job, D.Reserve(t), action);
    hide See, Below, LastStep, Report, D.Writes, D.Reserve, D.Pass, AttemptSemantics, AllBelow, AllCompleted,
        Contiguous;
    var result := (match action
      case Finish(summary, refs, outcome) => Outcome(outcome, summary, refs)
      case Fail(code, explanation) => Failure(code, Explained(explanation))
      case CallTool(_, _, _) => OtherResult(""));
    var g2 := g1.(ending := Ending(None, None, Some((if action.Finish? then Succeeded else Failed, result))));
    if action.Finish? {
      FinishSeen(w, t1, g1, action.outcome, action.summary, action.refs);
      FinishWrites(t1, action.outcome, action.summary, action.refs);
    } else {
      FailSeen(w, t1, g1, action.code, action.explanation);
      TerminateWrites(t1, action.code, Explained(action.explanation), true);
    }
    SameBelow(w, g1, g2, t.run.step, wrote);
    hide D.Succeed, D.Terminate;
    AcceptedEnd(w, traceId, t, g2, wrote);
  }

  lemma FinishWrites(t: Tables, outcome: Code, summary: string, refs: seq<string>)
    ensures D.Writes(D.Succeed(t, outcome, summary, refs).events) == D.Writes(t.events)
  {
    var result := Outcome(outcome, summary, refs);
    SaveWrites(t, t.run.(status := Status.Succeeded, step := t.run.step + 1, pendingAction := None,
        pendingDigest := None,
                         result := Some(result)), Note(0, Fine, RunSucceeded(result)));
  }

  lemma TerminateWrites(t: Tables, code: Code, detail: FailureDetail, advance: bool)
    ensures D.Writes(D.Terminate(t, code, detail, advance).events) == D.Writes(t.events)
  {
    SaveWrites(t, P.Ended(t.run, code, detail, advance), Note(0, Error, RunFailed(Failure(code, detail))));
  }

  // ---------------------------------------------------------------- calls

  /** The loop head announces the tool action of its step. */
  ghost predicate Calling(w: World, t: Tables, g: State, wrote: Option<nat>, action: Action) {
    && Head(w, t, g, wrote) && t.run.step < w.job.budget && t.run.step < |w.scenario.actions|
    && action == w.scenario.actions[t.run.step] && action.CallTool?
  }

  /** Right after the announcement of the loop head `(t, g)`. */
  ghost predicate Midway(w: World, t: Tables, g: State, wrote: Option<nat>, action: Action, t1: Tables, g1: State) {
    && action.CallTool? && t.run.status.Running?
    && t1.run == t.run.(policyCalls := t.run.step + 1, version := t1.run.version)
    && t1.claims == t.claims && t1.approvals == t.approvals && t1.counter == t.counter + 1
    && D.Pass(w.job, t) == D.CarryCall(w.job, t1, W.Stabilise(t.run.step, action))
    && D.Writes(t1.events) == (if wrote.Some? then 1 else 0) && Contiguous(t1)
    && InCall(w, t1, g1, Call(t.run.step, action.tool))
    && g1.ledger == g.ledger && g1.delivery == g.delivery && g1.consent == g.consent
    && Below(w, g1, t.run.step, wrote) && LastStep(w, g1, t.run.step)
    && |g1.cursor.seen| == t.run.step + 1 && g1.cursor.lastStep == t.run.step
    && g1.cursor.seen[t.run.step] == CallKind
    && t.run.step in g1.cursor.positions && g1.cursor.positions[t.run.step] == [t1.counter]
  }

  lemma AnnouncedTables(t: Tables, action: Action)
    ensures var t1 := Announcing(t, action);
            && t1.run == t.run.(policyCalls := D.Used(t.run) + 1, version := t1.run.version)
            && t1.claims == t.claims && t1.approvals == t.approvals && t1.counter == t.counter + 1
            && D.Writes(t1.events) == D.Writes(t.events) && (Contiguous(t) ==> Contiguous(t1))
  {
    WritesAppend(D.Reserve(t), Note(0, Fine, PolicyAction(t.run.step, action)));
    hide D.Writes;
  }

  lemma CallAnnounced(w: World, t: Tables, g: State, wrote: Option<nat>, action: Action) returns (t1: Tables, g1: State)
    requires Calling(w, t, g, wrote, action)
    ensures Midway(w, t, g, wrote, action, t1, g1)
  {
    hide See, Below, LastStep, D.Writes, D.CarryCall, Rested, AllCompleted, W.Stabilise, AnsweredTo, Append, D.Reserve;
    t1, g1 := Announcing(t, action), Told(g, t.counter + 1, t.run.step, action);
    AnnounceSeen(w, t, g, wrote);
    ToldBelow(w, t, g, wrote);
    AnnouncedTables(t, action);
  }

  /** How the gate takes the event of a failed preflight, and the failure it announces. */
  lemma PreflightReacts(w: World, g: State, step: nat, sequence: nat, action: Action, code: Code)
    requires action.CallTool? && Free(g) && g.cursor.active == Some(Call(step, action.tool)) && g.ledger.started == {}
    requires step < |w.scenario.actions|
    requires code.UnknownTool? || code.InvalidInput? || code.InvalidFaultPlan? || code.IdempotencyKeyRequired?
    ensures var event := Event(sequence, Note(0, Error, PreflightFailed(step, action.tool, OfAction(action), code)));
            React(w, g, event) == if action == w.scenario.actions[step]
              then Live(g.(ending := Ending(Some(code), Some(code), None))) else Refused
  {
    hide ByStep, Project, ExpectedDigest;
    ProjectionFollows(w.scenario.actions);
  }

  lemma ExplainedFailure(w: World, g: State, sequence: nat, code: Code)
    requires Free(g) && g.ledger.started == {}
    ensures React(w, g.(ending := Ending(Some(code), Some(code), None)),
            Event(sequence, Note(0, Error, RunFailed(Failure(code, Bare)))))
            == Live(g.(ending := Ending(Some(code), None, Some((Failed, Failure(code, Bare))))))
  {
    hide PlanOf;
  }

  lemma PreflightSeen(w: World, t: Tables, g: State, action: Action, code: Code)
    requires action.CallTool? && InCall(w, t, g, Call(t.run.step, action.tool)) && g.ledger.started == {}
    requires t.run.step < |w.scenario.actions|
    requires code.UnknownTool? || code.InvalidInput? || code.InvalidFaultPlan? || code.IdempotencyKeyRequired?
    ensures var note := Note(0, Error, PreflightFailed(t.run.step, action.tool, OfAction(action), code));
            var u := D.Terminate(Append(t, note), code, Bare, false);
            See(w, u.events) == if action == w.scenario.actions[t.run.step]
              then Live(g.(ending := Ending(Some(code), None, Some((Failed, Failure(code, Bare)))))) else Refused
  {
    hide See, PlanOf, React;
    var note := Note(0, Error, PreflightFailed(t.run.step, action.tool, OfAction(action), code));
    Extend(w, t, note, g);
    PreflightReacts(w, g, t.run.step, t.counter + 1, action, code);
    var failed := Note(0, Error, RunFailed(Failure(code, Bare)));
    var t1 := Append(t, note);
    if action == w.scenario.actions[t.run.step] {
      SaveSeen(w, t1, g.(ending := Ending(Some(code), Some(code), None)), P.Ended(t1.run, code, Bare, false), failed);
      ExplainedFailure(w, g, t1.counter + 1, code);
    } else {
      SaveRefused(w, t1, P.Ended(t1.run, code, Bare, false), failed);
    }
  }

  lemma PreflightCodes(faults: seq<FaultRule>, action: Action)
    requires action.CallTool?
    ensures var code := W.PreflightCode(faults, action);
            code.Some? ==>
              || code.value.UnknownTool? || code.value.InvalidInput?
              || code.value.InvalidFaultPlan? || code.value.IdempotencyKeyRequired?
  {
    hide W.PlanRegistered, ValidInput;
  }

  /** A call that preflight rejects is accepted exactly when the runtime did not rewrite it. */
  lemma PreflightCase(w: World, traceId: nat, t: Tables, g: State, wrote: Option<nat>, action: Action)
    requires Calling(w, t, g, wrote, action)
    requires W.PreflightCode(w.scenario.faults, W.Stabilise(t.run.step, action)).Some?
    ensures if W.Stabilise(t.run.step, action) == action then Credited(w, traceId, t, wrote.Some?, t.run.step)
            else Report(w, traceId, t, wrote.Some?).None?
  {
    hide See, Below, LastStep, Report, D.Writes, D.Pass, D.Terminate, W.Stabilise, W.PreflightCode, AttemptSemantics,
        AllBelow, AllCompleted, Contiguous, AnsweredTo;
    var stable := W.Stabilise(t.run.step, action);
    var t1, g1 := CallAnnounced(w, t, g, wrote, action);
    var code := W.PreflightCode(w.scenario.faults, stable).value;
    PreflightCodes(w.scenario.faults, stable);
    PreflightSeen(w, t1, g1, stable, code);
    var note := Note(0, Error, PreflightFailed(t.run.step, stable.tool, OfAction(stable), code));
    WritesAppend(t1, note);
    TerminateWrites(Append(t1, note), code, Bare, false);
    if stable == action {
      var g2 := g1.(ending := Ending(Some(code), None, Some((Failed, Failure(code, Bare)))));
      SameBelow(w, g1, g2, t.run.step, wrote);
      AcceptedEnd(w, traceId, t, g2, wrote);
    } else {
      RefusedEnd(w, traceId, t, wrote.Some?);
    }
  }

  // ---------------------------------------------------------------- calls that need no approval

  /** The tables after a success, seen by the gate, are a loop head of the next step. */
  lemma HeadAgain(w: World, t: Tables, g: State, action: Action, u: Tables, g': State, now: Option<nat>)
    requires action.CallTool? && Passed(w, t, g, action, u, g')
    requires w.job.actions == w.scenario.actions && w.job.faults == w.scenario.faults
    requires t.run.status.Running? && t.run.policyCalls == t.run.step + 1 && t.run.mode == w.mode
    requires t.run.context == w.scenario.context.(results := g.delivery.outputs)
    requires AnsweredTo(w.scenario.actions, g.delivery.accepted, t.run.step)
    requires t.run.step < |w.scenario.actions| && action == w.scenario.actions[t.run.step]
    requires forall k :: k in t.approvals ==> k <= t.run.step
    requires Contiguous(u) && D.Writes(u.events) == (if now.Some? then 1 else 0)
    requires Free(g) && |g.cursor.seen| == t.run.step + 1 && g.cursor.lastStep == t.run.step
    requires forall k :: k in g.cursor.positions ==> k <= t.run.step
    requires Below(w, g', t.run.step + 1, now)
    ensures Head(w, u, g', now)
  {
    AnswersOne(w.scenario.actions, g.delivery.accepted, t.run.step);
    hide See, Below, D.Writes, AllCompleted, Rested, Contiguous, BackendOutput, Executed, StartsKept, AnsweredTo;
  }

  lemma NextBelow(w: World, g: State, g': State, step: nat, after: nat, wrote: Option<nat>)
    requires Below(w, g, step, wrote) && LastStep(w, g, step) && StartsKept(g.ledger, g'.ledger, step, after)
    requires g'.cursor.positions == g.cursor.positions && g'.consent == g.consent
    requires w.scenario.actions[step].CallTool? && !Gated(w.scenario.actions[step])
    ensures Below(w, g', step + 1, wrote)
  {
    BelowKept(w, g, g', step, after, wrote);
    hide StartsKept, ConsentAt;
  }

  /** A gated or keyed call may not reuse a key; a plain failure of attempts is explained. */
  lemma PlainCase(w: World, traceId: nat, t: Tables, g: State, wrote: Option<nat>, action: Action)
      returns (u: Tables, g': State)
    requires Calling(w, t, g, wrote, action) && !RequiresApproval(action.tool)
    requires W.PreflightCode(w.scenario.faults, W.Stabilise(t.run.step, action)).None?
    ensures u == D.Pass(w.job, t)
    ensures !Unused(t, action) ==> Report(w, traceId, t, wrote.Some?).None?
    ensures Unused(t, action) && !Succeeds(w.scenario.faults, action.tool, w.mode) ==>
            Credited(w, traceId, t, wrote.Some?, t.run.step)
    ensures Unused(t, action) && Succeeds(w.scenario.faults, action.tool, w.mode) ==>
              Resumed(w, traceId, t, action, u, g', wrote, wrote)
  {
    var t1, g1 := CallAnnounced(w, t, g, wrote, action);
    assert W.Stabilise(t.run.step, action) == action;
    u, g' := D.Pass(w.job, t), g;
    assert u == D.Perform(w.job, t1, action);
    assert MayCall(w, t1, action);
    assert Rested(g1.ledger, t1.run.step);
    hide See, Report, D.Pass, D.Perform, W.PreflightCode, Below, LastStep, D.Writes, Contiguous, InCall, Rested;
    if !Unused(t, action) {
      UsedKeyRefused(w, t1, g1, action);
      if u.run.status.Running? { RefusedOn(w, traceId, t, wrote.Some?); }
          else { PerformStops(w, t1, action); RefusedEnd(w, traceId, t, wrote.Some?); }
    } else if !Succeeds(w.scenario.faults, action.tool, w.mode) {
      PlainFailure(w, traceId, t, g, wrote, action, t1, g1);
    } else {
      g' := PlainSuccess(w, traceId, t, g, wrote, action, t1, g1);
    }
  }

  lemma PerformStops(w: World, t: Tables, action: Action)
    requires action.CallTool? && t.run.status.Running?
    ensures !D.Perform(w.job, t, action).run.status.WaitingApproval?
  {
    D.CallKeeps(t, action, w.job.faults, t.counter, w.job.now, w.job.claimSeconds);
    hide W.Call;
  }

  lemma PlainFailure(w: World, traceId: nat, t: Tables, g: State, wrote: Option<nat>, action: Action, t1: Tables,
      g1: State)
    requires Midway(w, t, g, wrote, action, t1, g1) && !RequiresApproval(action.tool) && Contiguous(t)
    requires D.Pass(w.job, t) == D.Perform(w.job, t1, action) && t.run.step < |w.scenario.actions|
    requires action == w.scenario.actions[t.run.step]
    requires MayCall(w, t1, action) && Unused(t1, action) && !Succeeds(w.scenario.faults, action.tool, w.mode)
    requires Rested(g1.ledger, t.run.step) && AnsweredTo(w.scenario.actions, g.delivery.accepted, t.run.step)
    ensures Credited(w, traceId, t, wrote.Some?, t.run.step)
  {
    hide D.Perform, See, D.Pass, Report, MayCall, Succeeds, Rested, Below, D.Writes, AttemptSemantics, AllBelow,
        Executed, StartsKept, W.Stabilise, D.CarryCall;
    var g2 := PerformFails(w, t1, g1, action);
    PerformWrites(w, t1, action);
    BelowKept(w, g1, g2, t.run.step, t1.counter, wrote);
    AcceptedEnd(w, traceId, t, g2, wrote);
  }

  lemma PlainSuccess(w: World, traceId: nat, t: Tables, g: State, wrote: Option<nat>, action: Action, t1: Tables,
      g1: State)
    returns (g': State)
    requires Midway(w, t, g, wrote, action, t1, g1) && !RequiresApproval(action.tool) && Head(w, t, g, wrote)
    requires D.Pass(w.job, t) == D.Perform(w.job, t1, action) && t.run.step < |w.scenario.actions|
    requires action == w.scenario.actions[t.run.step]
    requires MayCall(w, t1, action) && Unused(t1, action) && Succeeds(w.scenario.faults, action.tool, w.mode)
    requires Rested(g1.ledger, t.run.step)
    ensures Resumed(w, traceId, t, action, D.Pass(w.job, t), g', wrote, wrote)
  {
    ReadsAreExpected(w, t1.run.step, action);
    hide D.Perform, See, D.Pass, Report, MayCall, Succeeds, Rested, Below, LastStep, D.Writes, Contiguous, Expected,
        W.Stabilise, D.CarryCall, Passed, Head;
    g' := PerformSucceeds(w, t1, g1, action);
    PerformWrites(w, t1, action);
    D.PerformGrows(w.job, t1, action);
    PlainResumes(w, traceId, t, g, wrote, action, t1, g1, g');
  }

  lemma PlainResumes(w: World, traceId: nat, t: Tables, g: State, wrote: Option<nat>, action: Action, t1: Tables,
      g1: State, g': State)
    requires Midway(w, t, g, wrote, action, t1, g1) && !RequiresApproval(action.tool) && Head(w, t, g, wrote)
    requires t.run.step < |w.scenario.actions| && action == w.scenario.actions[t.run.step]
    requires Passed(w, t1, g1, action, D.Pass(w.job, t), g')
    requires D.Writes(D.Pass(w.job, t).events) == (if wrote.Some? then 1 else 0) && D.Grows(t1, D.Pass(w.job, t))
    ensures Resumed(w, traceId, t, action, D.Pass(w.job, t), g', wrote, wrote)
  {
    hide See, D.Pass, Report, Rested, Below, LastStep, D.Writes, W.Stabilise, D.CarryCall, BackendOutput, Executed,
        StartsKept, AllCompleted, AnsweredTo, Contiguous, D.Grows;
    LastPositions(w, g1, t.run.step);
    GrownContiguous(t1, D.Pass(w.job, t));
    NextBelow(w, g1, g', t.run.step, t1.counter, wrote);
    HeadAgain(w, t1, g1, action, D.Pass(w.job, t), g', wrote);
    GoesOn(w, traceId, t, wrote.Some?);
  }

  lemma GrownContiguous(t: Tables, u: Tables)
    requires D.Grows(t, u) && Contiguous(t)
    ensures Contiguous(u)
  {
  }

  lemma LastPositions(w: World, g: State, step: nat)
    requires LastStep(w, g, step)
    ensures forall k :: k in g.cursor.positions ==> k <= step
  {
  }

  /** The case continues from the next loop head as it would have from this one. */
  ghost predicate Resumed(w: World, traceId: nat, t: Tables, action: Action, u: Tables, g': State, wrote: Option<nat>,
      now: Option<nat>) {
    && action.CallTool? && Head(w, u, g', now) && u.run.step == t.run.step + 1
    && u.claims.Keys == t.claims.Keys + (if action.key.Some? then {action.key.value} else {})
    && Report(w, traceId, t, wrote.Some?) == Report(w, traceId, u, now.Some?)
  }

  /** The fixture knows the answer of every valid read. */
  lemma ReadsAreExpected(w: World, step: nat, action: Action)
    requires step < |w.scenario.actions| && w.scenario.actions[step] == action && action.CallTool?
    requires ValidInput(action.tool, action.args) && !RequiresApproval(action.tool)
    ensures Expected(w, step, BackendOutput(action.tool, action.args))
  {
  }
}
