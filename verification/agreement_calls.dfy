/** What one tool call of the runtime looks like to the gate. */
module AgreementCalls {
  import opened Domain
  import opened Evidence
  import opened Gate
  import opened AgreementLedger
  import opened Rows
  import W = Gateway
  import D = Desktop

  /** One case of the evaluation: the scenario, the mode, and the job built from it. */
  datatype World = World(scenario: Scenario, mode: Mode, job: D.Job)

  /** `logical_action_projection`: one entry per scripted action, with its own digests. */
  function Entry(step: nat, action: Action): LogicalAction {
    LogicalAction(step, KindOf(action), if action.CallTool? then Some(action.tool) else None, action, OfAction(action),
                  ExpectedDigest(action))
  }

  function Project(actions: seq<Action>): (entries: seq<LogicalAction>)
    ensures |entries| == |actions|
    ensures forall i :: 0 <= i < |actions| ==> entries[i] == Entry(i, actions[i])
  {
    seq(|actions|, i requires 0 <= i < |actions| => Entry(i, actions[i]))
  }

  function FrozenOf(scenario: Scenario): Frozen {
    Frozen(Project(scenario.actions), scenario.context, scenario.approvalSupplied)
  }

  ghost predicate Follows(plan: Plan, actions: seq<Action>) {
    && |plan| == |actions|
    && (forall k: nat :: k in plan <==> k < |actions|)
    && (forall k :: 0 <= k < |actions| ==> plan[k] == Entry(k, actions[k]))
  }

  lemma {:induction false} ProjectionFollows(actions: seq<Action>)
    ensures Follows(ByStep(Project(actions)), actions)
  {
    if actions != [] {
      var before := actions[..|actions| - 1];
      ProjectionFollows(before);
      assert Project(actions)[..|actions| - 1] == Project(before);
    }
  }

  function PlanOf(w: World): Plan {
    ByStep(Project(w.scenario.actions))
  }

  /** The automaton's verdict on a trace of this case. */
  function See(w: World, events: seq<Event>): Verdict {
    Fold(PlanOf(w), w.scenario.context, w.mode, events)
  }

  function React(w: World, g: State, event: Event): Verdict {
    Step(PlanOf(w), w.scenario.context, w.mode, g, event)
  }

  lemma Extend(w: World, t: Tables, note: Note, g: State)
    requires See(w, t.events) == Live(g)
    ensures See(w, Append(t, note).events) == React(w, g, Event(t.counter + 1, note))
  {
    hide Step, PlanOf;
    assert Append(t, note).events[..|t.events|] == t.events;
  }

  /** Nothing is outstanding and nothing has ended. */
  predicate Free(g: State) {
    && g.delivery.pending.None? && g.ending == Ending(None, None, None)
    && g.consent.mustDeny.None? && g.consent.denied.None? && g.consent.mustFailDenied.None?
    && g.cursor.terminalAction.None?
  }

  // ---------------------------------------------------------------- the events of one attempt

  lemma StartSeen(w: World, g: State, sequence: nat, span: Span, call: Call, id: AttemptId)
    requires Free(g) && g.cursor.active == Some(call) && Trying(g.ledger, call, id.attempt)
    requires id == AttemptId(call.step, call.tool, id.attempt) && id.attempt <= MaxAttempts(w.mode)
    ensures React(w, g, Event(sequence, Started(id, span))) == Live(g.(ledger := Open(g.ledger, sequence, span, id)))
  {
    hide PlanOf, AttemptSemantics, AllBefore;
  }

  predicate Inside(g: State, span: Span, call: Call, id: AttemptId) {
    && Free(g) && g.cursor.active == Some(call) && CallOf(id) == call
    && id in g.ledger.started && id in g.ledger.spans && g.ledger.spans[id] == span
  }

  lemma FaultSeen(w: World, g: State, sequence: nat, span: Span, call: Call, id: AttemptId, kind: FaultKind)
    requires Inside(g, span, call, id)
    ensures React(w, g, Event(sequence, Note(span, Error, FaultInjected(id, kind))))
            == Live(g.(ledger := g.ledger.(faults := g.ledger.faults + [Fault(id, kind)])))
  {
    hide PlanOf;
  }

  lemma RejectionSeen(w: World, g: State, sequence: nat, span: Span, call: Call, id: AttemptId)
    requires Inside(g, span, call, id)
    ensures React(w, g, Event(sequence, Note(span, Error, OutputRejected(id))))
            == Live(g.(ledger := g.ledger.(rejections := g.ledger.rejections + [id])))
  {
    hide PlanOf;
  }

  lemma FailureSeen(w: World, g: State, sequence: nat, span: Span, call: Call, id: AttemptId, code: Code,
      transient: bool)
    requires Inside(g, span, call, id)
    ensures React(w, g, Event(sequence, FailedNote(id, span, code, transient)))
            == Live(g.(ledger := Close(g.ledger, Attempt(id, ClosedError, Some(code), Some(transient)))))
  {
    hide PlanOf;
  }

  /** The fixture expects exactly this output of the action at this step. */
  predicate Expected(w: World, step: nat, output: Output) {
    && step < |w.scenario.actions|
    && ExpectedDigest(w.scenario.actions[step]) == Some(OfOutput(output))
  }

  lemma SuccessSeen(w: World, g: State, sequence: nat, span: Span, call: Call, id: AttemptId, output: Output)
    requires Inside(g, span, call, id)
    ensures React(w, g, Event(sequence, SucceededNote(id, span, output)))
            == if Expected(w, id.step, output)
               then Live(g.(ledger := Close(g.ledger, Attempt(id, ClosedOk, None, None)),
                            delivery := g.delivery.(pending := Some(Success(id, output)))))
               else Refused
  {
    ProjectionFollows(w.scenario.actions);
    hide ExpectedDigest, Project, ByStep;
  }

  // ---------------------------------------------------------------- one attempt

  /** The runtime is inside the call that the gate sees as active. */
  ghost predicate InCall(w: World, t: Tables, g: State, call: Call) {
    && See(w, t.events) == Live(g) && Free(g) && g.cursor.active == Some(call)
    && t.run.step == call.step && t.run.mode == w.mode
  }

  lemma CleanAttemptSeen(w: World, t: Tables, g: State, action: Action, n: nat)
    requires action.CallTool? && InCall(w, t, g, Call(t.run.step, action.tool))
    requires Trying(g.ledger, Call(t.run.step, action.tool), n) && n <= MaxAttempts(w.mode)
    ensures var id, span := AttemptId(t.run.step, action.tool, n), t.counter + 1;
            var output := BackendOutput(action.tool, action.args);
            var t' := Append(Append(t, Started(id, span)), SucceededNote(id, span, output));
            See(w, t'.events) == if Expected(w, id.step, output)
              then Live(g.(ledger := Attempted(g.ledger, t.counter + 1, span, id, None),
                           delivery := g.delivery.(pending := Some(Success(id, output)))))
              else Refused
  {
    var id, span, call := AttemptId(t.run.step, action.tool, n), t.counter + 1, Call(t.run.step, action.tool);
    var output := BackendOutput(action.tool, action.args);
    hide See, React, Expected, BackendOutput, Trying;
    var t1 := Append(t, Started(id, span));
    var g1 := g.(ledger := Open(g.ledger, t.counter + 1, span, id));
    StartSeen(w, g, t.counter + 1, span, call, id);
    Extend(w, t, Started(id, span), g);
    SuccessSeen(w, g1, t1.counter + 1, span, call, id, output);
    Extend(w, t1, SucceededNote(id, span, output), g1);
  }

  /** Start and injected fault, up to the fault. */
  lemma FaultedSeen(w: World, t: Tables, g: State, action: Action, n: nat, kind: FaultKind)
      returns (t2: Tables, g2: State)
    requires action.CallTool? && InCall(w, t, g, Call(t.run.step, action.tool))
    requires Trying(g.ledger, Call(t.run.step, action.tool), n) && n <= MaxAttempts(w.mode)
    ensures var id, span := AttemptId(t.run.step, action.tool, n), t.counter + 1;
            && t2 == Append(Append(t, Started(id, span)), Note(span, Error, FaultInjected(id, kind)))
            && g2 == g.(ledger := Open(g.ledger, t.counter + 1, span,
                id).(faults := g.ledger.faults + [Fault(id, kind)]))
            && See(w, t2.events) == Live(g2)
  {
    var id, span, call := AttemptId(t.run.step, action.tool, n), t.counter + 1, Call(t.run.step, action.tool);
    hide See, React, Trying;
    var t1 := Append(t, Started(id, span));
    var g1 := g.(ledger := Open(g.ledger, t.counter + 1, span, id));
    StartSeen(w, g, t.counter + 1, span, call, id);
    Extend(w, t, Started(id, span), g);
    FaultSeen(w, g1, t1.counter + 1, span, call, id, kind);
    Extend(w, t1, Note(span, Error, FaultInjected(id, kind)), g1);
    t2 := Append(t1, Note(span, Error, FaultInjected(id, kind)));
    g2 := g1.(ledger := g1.ledger.(faults := g1.ledger.faults + [Fault(id, kind)]));
  }

  lemma FaultyAttemptSeen(w: World, t: Tables, g: State, action: Action, n: nat, kind: FaultKind)
    requires action.CallTool? && InCall(w, t, g, Call(t.run.step, action.tool))
    requires Trying(g.ledger, Call(t.run.step, action.tool), n) && n <= MaxAttempts(w.mode)
    ensures var id, span := AttemptId(t.run.step, action.tool, n), t.counter + 1;
            var faulted := Append(Append(t, Started(id, span)), Note(span, Error, FaultInjected(id, kind)));
            var t' := if Transient(kind) then Append(faulted, FailedNote(id, span, FaultCode(kind), true))
                      else Append(Append(faulted, Note(span, Error, OutputRejected(id))),
                          FailedNote(id, span, InvalidOutput, false));
            See(w, t'.events) == Live(g.(ledger := Attempted(g.ledger, t.counter + 1, span, id, Some(kind))))
  {
    var id, span, call := AttemptId(t.run.step, action.tool, n), t.counter + 1, Call(t.run.step, action.tool);
    var t2, g2 := FaultedSeen(w, t, g, action, n, kind);
    hide See, React, Trying, Append;
    if Transient(kind) {
      FailureSeen(w, g2, t2.counter + 1, span, call, id, FaultCode(kind), true);
      Extend(w, t2, FailedNote(id, span, FaultCode(kind), true), g2);
    } else {
      var g3 := g2.(ledger := g2.ledger.(rejections := g2.ledger.rejections + [id]));
      var t3 := Append(t2, Note(span, Error, OutputRejected(id)));
      RejectionSeen(w, g2, t2.counter + 1, span, call, id);
      Extend(w, t2, Note(span, Error, OutputRejected(id)), g2);
      FailureSeen(w, g3, t3.counter + 1, span, call, id, InvalidOutput, false);
      Extend(w, t3, FailedNote(id, span, InvalidOutput, false), g3);
    }
  }

  /** The ledger `l` after a whole call that began with `l0`, the counter at `after`. */
  predicate Called(l0: Ledger, l: Ledger, call: Call, after: nat, ok: bool) {
    && l.started == {} && AttemptSemantics(l) && AllBelow(l, call.step + 1)
    && l.attempts != [] && l.attempts[|l.attempts| - 1].closing == (if ok then ClosedOk else ClosedError)
    && StartsKept(l0, l, call.step, after) && Executed(l, call.step)
  }

  lemma StartsNow(l: Ledger, l': Ledger, step: nat, after: nat, sequence: nat, id: AttemptId)
    requires l'.startedAt == l.startedAt[id := sequence] && id !in l.startedAt && id.step == step && sequence > after
    ensures StartsKept(l, l', step, after) && Executed(l', step)
  {
    assert id in l'.startedAt;
  }

  lemma CalledNow(l: Ledger, call: Call, n: nat, sequence: nat, span: Span, id: AttemptId, fault: Option<FaultKind>,
      after: nat)
    requires Trying(l, call, n) && id == AttemptId(call.step, call.tool, n) && sequence > after
    ensures Called(l, Attempted(l, sequence, span, id, fault), call, after, fault.None?)
  {
    hide AttemptSemantics, Attempted, AllBelow, AllBefore, Trying, StartsKept, Executed;
    AttemptedView(l, call, n, sequence, span, id, fault);
    BelowNext(Attempted(l, sequence, span, id, fault), call, n + 1);
    NotStarted(l, call, n, id);
    StartsNow(l, Attempted(l, sequence, span, id, fault), call.step, after, sequence, id);
  }

  lemma CalledLater(l0: Ledger, l1: Ledger, l2: Ledger, call: Call, id: AttemptId, sequence: nat, after: nat,
      later: nat, ok: bool)
    requires l1.startedAt == l0.startedAt[id := sequence] && id !in l0.startedAt && id.step == call.step
    requires sequence > after && later >= after && Called(l1, l2, call, later, ok)
    ensures Called(l0, l2, call, after, ok)
  {
    hide AttemptSemantics, AllBelow;
  }

  /** How the gate stands after the runtime's whole retry loop. */
  ghost predicate LoopSeen(w: World, t: Tables, g: State, call: Call, t': Tables, result: W.CallResult, g': State) {
    match result
    case CallOk(output, attempts, cached) =>
      && !cached && output == result.output
      && (if Expected(w, call.step, output)
          then
            && See(w, t'.events) == Live(g')
            && Called(g.ledger, g'.ledger, call, t.counter, true)
            && g' == g.(ledger := g'.ledger,
                        delivery := g.delivery.(pending := Some(Success(AttemptId(call.step, call.tool, attempts),
                            output))))
          else See(w, t'.events).Refused?)
    case CallFailed(code, _, _) =>
      && See(w, t'.events) == Live(g')
      && Called(g.ledger, g'.ledger, call, t.counter, false)
      && g' == g.(ledger := g'.ledger)
  }

  lemma {:induction false} AttemptSeen(w: World, t: Tables, g: State, action: Action, n: nat)
    requires action.CallTool? && InCall(w, t, g, Call(t.run.step, action.tool))
    requires Trying(g.ledger, Call(t.run.step, action.tool), n) && n <= MaxAttempts(w.mode)
    ensures var id, span := AttemptId(t.run.step, action.tool, n), t.counter + 1;
            var output, fault := BackendOutput(action.tool, action.args), FaultFor(w.scenario.faults, action.tool, n);
            var l' := Attempted(g.ledger, t.counter + 1, span, id, fault);
            See(w, W.OneAttempt(t, action, w.scenario.faults, n).events) ==
              if fault.Some? then Live(g.(ledger := l'))
              else if Expected(w, id.step, output)
              then Live(g.(ledger := l', delivery := g.delivery.(pending := Some(Success(id, output)))))
              else Refused
  {
    W.OneAttemptByEvents(t, action, w.scenario.faults, n);
    hide See, Trying, Expected, BackendOutput, Append, InCall;
    var fault := FaultFor(w.scenario.faults, action.tool, n);
    if fault.None? {
      CleanAttemptSeen(w, t, g, action, n);
    } else {
      FaultyAttemptSeen(w, t, g, action, n, fault.value);
    }
  }

  /** The gate after one attempt that failed; it may be followed by another. */
  ghost predicate FailedOnce(w: World, t: Tables, g: State, call: Call, n: nat, kind: FaultKind, t1: Tables,
      g1: State) {
    var id := AttemptId(call.step, call.tool, n);
    && See(w, t1.events) == Live(g1) && g1 == g.(ledger := g1.ledger)
    && Called(g.ledger, g1.ledger, call, t.counter, false)
    && id !in g.ledger.startedAt && g1.ledger.startedAt == g.ledger.startedAt[id := t.counter + 1]
    && (Transient(kind) ==> Trying(g1.ledger, call, n + 1))
  }

  lemma FailureOnce(w: World, t: Tables, g: State, action: Action, n: nat, kind: FaultKind) returns (g1: State)
    requires action.CallTool? && InCall(w, t, g, Call(t.run.step, action.tool))
    requires Trying(g.ledger, Call(t.run.step, action.tool), n) && n <= MaxAttempts(w.mode)
    requires FaultFor(w.scenario.faults, action.tool, n) == Some(kind)
    ensures FailedOnce(w, t, g, Call(t.run.step, action.tool), n, kind, W.OneAttempt(t, action, w.scenario.faults, n),
            g1)
  {
    var call, id, span := Call(t.run.step, action.tool), AttemptId(t.run.step, action.tool, n), t.counter + 1;
    hide *;
    AttemptSeen(w, t, g, action, n);
    AttemptedView(g.ledger, call, n, t.counter + 1, span, id, Some(kind));
    CalledNow(g.ledger, call, n, t.counter + 1, span, id, Some(kind), t.counter);
    NotStarted(g.ledger, call, n, id);
    g1 := g.(ledger := Attempted(g.ledger, t.counter + 1, span, id, Some(kind)));
    FailedNow(w, t, g, call, n, kind, W.OneAttempt(t, action, w.scenario.faults, n), g1);
  }

  lemma FailedNow(w: World, t: Tables, g: State, call: Call, n: nat, kind: FaultKind, t1: Tables, g1: State)
    requires See(w, t1.events) == Live(g1) && g1 == g.(ledger := g1.ledger)
    requires Called(g.ledger, g1.ledger, call, t.counter, false)
    requires var id := AttemptId(call.step, call.tool, n);
             id !in g.ledger.startedAt && g1.ledger.startedAt == g.ledger.startedAt[id := t.counter + 1]
    requires Transient(kind) ==> Trying(g1.ledger, call, n + 1)
    ensures FailedOnce(w, t, g, call, n, kind, t1, g1)
  {
  }

  lemma NotStarted(l: Ledger, call: Call, n: nat, id: AttemptId)
    requires Trying(l, call, n) && id == AttemptId(call.step, call.tool, n)
    ensures id !in l.startedAt
  {
    assert !Before(id, call, n);
  }

  lemma CleanLoop(w: World, t: Tables, g: State, action: Action, n: nat) returns (g': State)
    requires action.CallTool? && InCall(w, t, g, Call(t.run.step, action.tool))
    requires Trying(g.ledger, Call(t.run.step, action.tool), n) && n <= MaxAttempts(w.mode)
    requires FaultFor(w.scenario.faults, action.tool, n).None?
    ensures LoopSeen(w, t, g, Call(t.run.step, action.tool), W.OneAttempt(t, action, w.scenario.faults, n),
                     W.CallOk(BackendOutput(action.tool, action.args), n, false), g')
  {
    var call, id, span := Call(t.run.step, action.tool), AttemptId(t.run.step, action.tool, n), t.counter + 1;
    var output := BackendOutput(action.tool, action.args);
    AttemptSeen(w, t, g, action, n);
    CalledNow(g.ledger, call, n, t.counter + 1, span, id, None, t.counter);
    hide See, Trying, Expected, BackendOutput, Called, Attempted, InCall;
    g' := g.(ledger := Attempted(g.ledger, t.counter + 1, span, id, None),
             delivery := g.delivery.(pending := Some(Success(id, output))));
  }

  lemma {:induction false} AttemptsSeen(w: World, t: Tables, g: State, action: Action, n: nat) returns (g': State)
    requires action.CallTool? && Registered(action.tool) && InCall(w, t, g, Call(t.run.step, action.tool))
    requires Trying(g.ledger, Call(t.run.step, action.tool), n) && n <= MaxAttempts(w.mode)
    ensures var (t', result) := W.AttemptsFrom(t, action, w.scenario.faults, n);
            LoopSeen(w, t, g, Call(t.run.step, action.tool), t', result, g')
    decreases MaxAttempts(w.mode) - n
  {
    var fault := FaultFor(w.scenario.faults, action.tool, n);
    assert w.mode == t.run.mode;
    hide See, Trying, Expected, BackendOutput, Called, W.OneAttempt, InCall;
    if fault.None? {
      g' := CleanLoop(w, t, g, action, n);
    } else {
      g' := FailureOnce(w, t, g, action, n, fault.value);
      if Transient(fault.value) && n < W.Limit(t.run.mode) {
        g' := RetriesSeen(w, t, g, action, n, fault.value, g');
      }
    }
  }

  lemma {:induction false} RetriesSeen(w: World, t: Tables, g: State, action: Action, n: nat, kind: FaultKind,
      g1: State) returns (g': State)
    requires action.CallTool? && Registered(action.tool) && InCall(w, t, g, Call(t.run.step, action.tool))
    requires 1 <= n < MaxAttempts(w.mode) && Transient(kind)
    requires FailedOnce(w, t, g, Call(t.run.step, action.tool), n, kind, W.OneAttempt(t, action, w.scenario.faults, n),
             g1)
    ensures var t1 := W.OneAttempt(t, action, w.scenario.faults, n);
            && t1.run == t.run
            && var (t', result) := W.AttemptsFrom(t1, action, w.scenario.faults, n + 1);
               LoopSeen(w, t, g, Call(t.run.step, action.tool), t', result, g')
    decreases MaxAttempts(w.mode) - n, 0
  {
    hide *;
    var call, id := Call(t.run.step, action.tool), AttemptId(t.run.step, action.tool, n);
    var t1 := W.OneAttempt(t, action, w.scenario.faults, n);
    W.OneAttemptKeepsRun(t, action, w.scenario.faults, n);
    W.OneAttemptGrows(t, action, w.scenario.faults, n);
    SameLimit(w, t, g, call);
    MayRetry(w, t, g, call, n, kind, t1, g1);
    g' := AttemptsSeen(w, t1, g1, action, n + 1);
    var (t', result) := W.AttemptsFrom(t1, action, w.scenario.faults, n + 1);
    LaterSeen(w, t, t1, g, g1, call, id, t', result, g');
  }

  lemma SameLimit(w: World, t: Tables, g: State, call: Call)
    requires InCall(w, t, g, call)
    ensures W.Limit(t.run.mode) == MaxAttempts(w.mode)
  {
    hide See, Free;
  }

  lemma MayRetry(w: World, t: Tables, g: State, call: Call, n: nat, kind: FaultKind, t1: Tables, g1: State)
    requires InCall(w, t, g, call) && FailedOnce(w, t, g, call, n, kind, t1, g1) && Transient(kind) && t1.run == t.run
    ensures InCall(w, t1, g1, call) && Trying(g1.ledger, call, n + 1) && g1 == g.(ledger := g1.ledger)
    ensures var id := AttemptId(call.step, call.tool, n);
            id !in g.ledger.startedAt && g1.ledger.startedAt == g.ledger.startedAt[id := t.counter + 1]
  {
    hide See, Trying, Called;
  }

  /** What the later attempts show, told from the state before the first of them. */
  lemma LaterSeen(w: World, t: Tables, t1: Tables, g: State, g1: State, call: Call, id: AttemptId, t': Tables,
      result: W.CallResult, g': State)
    requires LoopSeen(w, t1, g1, call, t', result, g')
    requires g1 == g.(ledger := g1.ledger) && g1.ledger.startedAt == g.ledger.startedAt[id := t.counter + 1]
    requires id !in g.ledger.startedAt && id.step == call.step && t1.counter >= t.counter
    ensures LoopSeen(w, t, g, call, t', result, g')
  {
    hide See, Expected, Called;
    if Called(g1.ledger, g'.ledger, call, t1.counter, result.CallOk?) {
      CalledLater(g.ledger, g1.ledger, g'.ledger, call, id, t.counter + 1, t.counter, t1.counter, result.CallOk?);
    }
  }

  // ---------------------------------------------------------------- a whole call

  /** Every claim of this worker has been completed. */
  predicate AllCompleted(claims: map<Key, ClaimRow>) {
    forall k :: k in claims ==> claims[k].state.Completed?
  }

  predicate Unused(t: Tables, action: Action) {
    action.CallTool? ==> action.key.Some? ==> action.key.value !in t.claims
  }

  /** The retry loop ends in a success, which the fault plan and the mode decide. */
  predicate Succeeds(faults: seq<FaultRule>, tool: Tool, mode: Mode) {
    var first := FaultFor(faults, tool, 1);
    first.None? || (mode.Resilient? && Transient(first.value) && FaultFor(faults, tool, 2).None?)
  }

  lemma {:induction false} LoopResult(t: Tables, action: Action, faults: seq<FaultRule>)
    requires action.CallTool? && Registered(action.tool)
    ensures var result := W.AttemptsFrom(t, action, faults, 1).1;
            && result.CallOk? == Succeeds(faults, action.tool, t.run.mode)
            && (result.CallOk? ==> result.output == BackendOutput(action.tool, action.args) && !result.cached)
  {
    if W.Limit(t.run.mode) == 2 {
      W.OneAttemptKeepsRun(t, action, faults, 1);
      var second := W.AttemptsFrom(W.OneAttempt(t, action, faults, 1), action, faults, 2);
    }
    hide W.OneAttempt, BackendOutput, FaultFor;
  }

  /** A call whose key is new runs the retry loop, from the tables with its claim, and
      completes the claim when the loop succeeds. */
  lemma NewCall(t: Tables, action: Action, faults: seq<FaultRule>, token: Token, now: int, seconds: nat)
      returns (t0: Tables)
    requires action.CallTool? && AllCompleted(t.claims) && Unused(t, action)
    requires W.PreflightCode(faults, action).None? && W.ConsentCode(t.approvals, t.run.step, action).None?
    ensures Registered(action.tool) && t0 == t.(claims := t0.claims)
    ensures var (t', result) := W.Call(t, action, faults, token, now, seconds);
            var (tried, same) := W.AttemptsFrom(t0, action, faults, 1);
            && result == same && t' == tried.(claims := t'.claims)
            && (result.CallOk? ==>
              && AllCompleted(t'.claims)
              && t'.claims.Keys == t.claims.Keys + (if action.key.Some? then {action.key.value} else {}))
  {
    hide W.ConsentCode, W.AttemptsFrom;
    t0 := if action.key.None? then t
          else ClaimTool(t, action.key.value, token, OfRequest(action.tool, action.args), true, now, seconds).0;
    D.AttemptsKeep(t0, action, faults, 1);
  }

  /** A call whose key was used before changes nothing and never reports a fresh success. */
  lemma UsedCall(t: Tables, action: Action, faults: seq<FaultRule>, token: Token, now: int, seconds: nat)
    requires action.CallTool? && AllCompleted(t.claims) && !Unused(t, action)
    requires W.PreflightCode(faults, action).None? && W.ConsentCode(t.approvals, t.run.step, action).None?
    ensures var (t', result) := W.Call(t, action, faults, token, now, seconds);
            t' == t
  {
    hide W.ConsentCode, W.AttemptsFrom;
  }
}
