/** The relation between the runtime at its loop head and the gate's state, and what is left
    to check when the trace ends. */
module AgreementHead {
  import opened Domain
  import opened Evidence
  import opened Gate
  import opened AgreementLedger
  import opened AgreementCalls
  import opened AgreementSteps
  import opened Rows
  import P = Protocol
  import W = Gateway
  import D = Desktop

  /** A case that wrote once, and not before its pause. */
  const ONE_WRITE := Case(Fragile, 0, OtherTraceDigest(""), [], 0, 1)

  predicate Announced(w: World, g: State, k: nat, wrote: Option<nat>)
    requires k < |w.scenario.actions|
  {
    && w.scenario.actions[k].CallTool?
    && k in g.cursor.positions
    && |g.cursor.positions[k]| == (if Gated(w.scenario.actions[k]) then 2 else 1)
    && (Gated(w.scenario.actions[k]) <==> wrote == Some(k))
    && (wrote == Some(k) ==> Executed(g.ledger, k))
  }

  predicate ConsentAt(w: World, g: State, wrote: Option<nat>) {
    match wrote
    case None => g.consent.waits == [] && g.consent.decisions == [] && g.consent.resumes == []
    case Some(k) => w.scenario.approvalSupplied && CycleOk(ONE_WRITE, FrozenOf(w.scenario), g, k)
  }

  /** Every step below this one was announced and carried out in full. */
  predicate Below(w: World, g: State, step: nat, wrote: Option<nat>) {
    && step <= |w.scenario.actions|
    && (forall k :: 0 <= k < step ==> Announced(w, g, k, wrote))
    && (wrote.Some? ==> wrote.value < step)
    && ConsentAt(w, g, wrote)
  }

  predicate CursorAt(g: State, step: nat) {
    && |g.cursor.seen| == step && g.cursor.lastStep == step - 1
    && (forall k :: k in g.cursor.positions ==> k < step)
  }

  /** The accepted outputs are the backend's answers to the first `n` actions, all of them calls. */
  predicate AnsweredTo(actions: seq<Action>, accepted: seq<Accepted>, n: nat) {
    && |accepted| == n <= |actions|
    && forall i :: 0 <= i < n ==>
         actions[i].CallTool? && accepted[i]
             == Accepted(i, actions[i].tool, BackendOutput(actions[i].tool, actions[i].args))
  }

  lemma AnswersOne(actions: seq<Action>, accepted: seq<Accepted>, n: nat)
    requires AnsweredTo(actions, accepted, n) && n < |actions| && actions[n].CallTool?
    ensures AnsweredTo(actions,
            accepted + [Accepted(n, actions[n].tool, BackendOutput(actions[n].tool, actions[n].args))], n + 1)
  {
  }

  /** The runtime at its loop head, about to ask for the action of its step; `wrote` is the
      step of the one approved write, if it is behind. */
  ghost predicate Head(w: World, t: Tables, g: State, wrote: Option<nat>) {
    && w.job.actions == w.scenario.actions && w.job.faults == w.scenario.faults
    && t.run.status.Running? && t.run.pendingAction.None? && t.run.policyCalls == t.run.step && t.run.mode == w.mode
    && t.run.context == w.scenario.context.(results := g.delivery.outputs)
    && AnsweredTo(w.scenario.actions, g.delivery.accepted, t.run.step)
    && AllCompleted(t.claims) && (forall k :: k in t.approvals ==> k < t.run.step)
    && Contiguous(t)
    && D.Writes(t.events) == (if wrote.Some? then 1 else 0)
    && See(w, t.events) == Live(g) && Free(g) && g.cursor.active.None?
    && Rested(g.ledger, t.run.step)
    && CursorAt(g, t.run.step) && Below(w, g, t.run.step, wrote)
  }

  // ---------------------------------------------------------------- later steps do not disturb it

  /** Positions below the step and the approval records are unchanged. */
  predicate Undisturbed(g: State, g': State, step: nat, after: nat) {
    && (forall k :: 0 <= k < step && k in g.cursor.positions ==>
          k in g'.cursor.positions && g'.cursor.positions[k] == g.cursor.positions[k])
    && g'.consent.waits == g.consent.waits && g'.consent.decisions == g.consent.decisions
    && g'.consent.resumes == g.consent.resumes
    && StartsKept(g.ledger, g'.ledger, step, after)
  }

  lemma CycleKept(c: Case, frozen: Frozen, g: State, g': State, step: nat, after: nat, k: nat)
    requires CycleOk(c, frozen, g, k) && k < step && Undisturbed(g, g', step, after)
    ensures CycleOk(c, frozen, g', k)
  {
  }

  lemma ExecutedKept(l: Ledger, l': Ledger, step: nat, after: nat, k: nat)
    requires Executed(l, k) && StartsKept(l, l', step, after)
    ensures Executed(l', k)
  {
    var id :| id in l.startedAt && id.step == k;
    assert id in l'.startedAt;
  }

  lemma BelowKept(w: World, g: State, g': State, step: nat, after: nat, wrote: Option<nat>)
    requires Below(w, g, step, wrote) && Undisturbed(g, g', step, after)
    ensures Below(w, g', step, wrote)
  {
    if wrote.Some? {
      CycleKept(ONE_WRITE, FrozenOf(w.scenario), g, g', step, after, wrote.value);
    }
    hide CycleOk, StartsKept, Executed;
    forall k | 0 <= k < step
      ensures Announced(w, g', k, wrote)
    {
      assert Announced(w, g, k, wrote);
      if wrote == Some(k) {
        ExecutedKept(g.ledger, g'.ledger, step, after, k);
      }
    }
  }

  // ---------------------------------------------------------------- the closing checks

  function Items(events: seq<Event>, traceId: nat): (items: seq<Item>)
    ensures |items| == |events|
    ensures forall i :: 0 <= i < |events| ==> items[i] == Item(i, traceId, Some(traceId), events[i])
  {
    seq(|events|, i requires 0 <= i < |events| => Item(i, traceId, Some(traceId), events[i]))
  }

  /** The case `_grade_case` reports for these tables, as far as the gate reads it. */
  function CaseOf(mode: Mode, traceId: nat, preWrites: nat, t: Tables): Case {
    var items := Items(t.events, traceId);
    Case(mode, traceId, OfTrace(items), items, preWrites, D.Writes(t.events))
  }

  lemma ProjectionIsFrozen(scenario: Scenario)
    ensures FrozenOk(FrozenOf(scenario))
  {
    ProjectionFollows(scenario.actions);
    hide ByStep, ExpectedDigest;
  }

  lemma ItemsEvents(events: seq<Event>, traceId: nat)
    ensures Events(Items(events, traceId)) == events
  {
  }

  /** The header checks hold of every trace the store numbers, so only the automaton decides. */
  lemma ClaimsSeen(w: World, traceId: nat, preWrites: nat, t: Tables)
    requires Contiguous(t)
    ensures var c := CaseOf(w.mode, traceId, preWrites, t);
            ClaimsOf(c, FrozenOf(w.scenario)) ==
              match See(w, t.events)
              case Refused => None
              case Live(g) => Conclude(c, FrozenOf(w.scenario), g)
  {
    ProjectionIsFrozen(w.scenario);
    ItemsEvents(t.events, traceId);
    hide Conclude, FrozenOk, Fold, ByStep, Project, Events;
  }

  /** One announcement at the last step, which executed nothing that needs approval. */
  predicate LastStep(w: World, g: State, step: nat) {
    && step < |w.scenario.actions|
    && (forall k :: k in g.cursor.positions ==> k <= step)
    && step in g.cursor.positions && |g.cursor.positions[step]| == 1
    && AllBelow(g.ledger, step + 1)
    && !(Gated(w.scenario.actions[step]) && Executed(g.ledger, step))
  }

  lemma PositionsHold(w: World, g: State, step: nat, wrote: Option<nat>)
    requires Below(w, g, step, wrote) && LastStep(w, g, step)
    ensures PositionsOk(PlanOf(w), g)
  {
    ProjectionFollows(w.scenario.actions);
    hide ByStep, Executed, ConsentAt, AllBelow, Project;
    forall k | k in g.cursor.positions
      ensures |g.cursor.positions[k]| == AnnouncementsAllowed(PlanOf(w), g, k)
    {
      if k < step {
        assert Announced(w, g, k, wrote);
      }
    }
  }

  lemma GatedStepsAre(w: World, g: State, step: nat, wrote: Option<nat>)
    requires Below(w, g, step, wrote) && LastStep(w, g, step)
    ensures GatedSteps(Project(w.scenario.actions), g) == (if wrote.Some? then {wrote.value} else {})
  {
    var entries := Project(w.scenario.actions);
    forall i | 0 <= i < |entries|
      ensures (GatedEntry(entries[i]) && Executed(g.ledger, entries[i].step)) <==> wrote == Some(i)
    {
      if i < step {
        assert Announced(w, g, i, wrote);
      } else if i > step {
        assert !Executed(g.ledger, i);
      }
    }
    hide Project, GatedEntry, Executed, Announced, ConsentAt;
    if wrote.Some? {
      assert wrote.value in GatedSteps(entries, g) by {
        assert entries[wrote.value].step == wrote.value;
      }
    }
  }

  lemma CycleCounts(c: Case, frozen: Frozen, g: State, k: nat)
    requires CycleOk(ONE_WRITE, frozen, g, k) && c.preWrites == 0 && c.writes == 1
    ensures CycleOk(c, frozen, g, k)
  {
  }

  /** A settled state at the end of such a trace passes every closing check. */
  lemma Concludes(w: World, c: Case, g: State, step: nat, wrote: Option<nat>)
    requires Below(w, g, step, wrote) && LastStep(w, g, step) && Settled(g) && AttemptSemantics(g.ledger)
    requires wrote.Some? ==> c.preWrites == 0 && c.writes == 1
    ensures Conclude(c, FrozenOf(w.scenario), g).Some?
    ensures Conclude(c, FrozenOf(w.scenario), g).value.accepted == g.delivery.accepted
  {
    PositionsHold(w, g, step, wrote);
    GatedStepsAre(w, g, step, wrote);
    if wrote.Some? {
      CycleCounts(c, FrozenOf(w.scenario), g, wrote.value);
    }
    hide PositionsOk, GatedSteps, CycleOk, AttemptSemantics, Settled, Announced, LastStep, ByStep;
  }

  // ---------------------------------------------------------------- writes are counted at their closings

  lemma WritesAppend(t: Tables, note: Note)
    ensures D.Writes(Append(t, note).events) == D.Writes(t.events) +
              (if note.body.AttemptClosed? && note.body.closing.ClosedOk? && IsWrite(note.body.id.tool) then 1 else 0)
  {
    assert Append(t, note).events[..|t.events|] == t.events;
  }

  lemma SaveWrites(t: Tables, run: Run, note: Note)
    requires !note.body.AttemptClosed?
    ensures D.Writes(D.Save(t, run, [note]).events) == D.Writes(t.events)
  {
    SaveOne(t, run, note);
    WritesAppend(t.(run := run.(version := t.run.version + 1)), note);
  }

  lemma {:induction false} OneAttemptWrites(t: Tables, action: Action, faults: seq<FaultRule>, n: nat)
    requires action.CallTool?
    ensures D.Writes(W.OneAttempt(t, action, faults, n).events) == D.Writes(t.events) +
              (if FaultFor(faults, action.tool, n).None? && IsWrite(action.tool) then 1 else 0)
  {
    W.OneAttemptByEvents(t, action, faults, n);
    hide D.Writes, Append, BackendOutput;
    var id, span, fault := AttemptId(t.run.step, action.tool, n), t.counter + 1, FaultFor(faults, action.tool, n);
    var t1 := Append(t, Started(id, span));
    WritesAppend(t, Started(id, span));
    match fault {
      case None => WritesAppend(t1, SucceededNote(id, span, BackendOutput(action.tool, action.args)));
      case Some(kind) =>
        var t2 := Append(t1, Note(span, Error, FaultInjected(id, kind)));
        WritesAppend(t1, Note(span, Error, FaultInjected(id, kind)));
        WritesAppend(t2, FailedNote(id, span, FaultCode(kind), true));
        WritesAppend(t2, Note(span, Error, OutputRejected(id)));
        WritesAppend(Append(t2, Note(span, Error, OutputRejected(id))), FailedNote(id, span, InvalidOutput, false));
    }
  }

  lemma {:induction false} AttemptsWrite(t: Tables, action: Action, faults: seq<FaultRule>, n: nat)
    requires action.CallTool? && Registered(action.tool) && 1 <= n <= W.Limit(t.run.mode)
    ensures var (t', result) := W.AttemptsFrom(t, action, faults, n);
            D.Writes(t'.events) == D.Writes(t.events) + (if result.CallOk? && IsWrite(action.tool) then 1 else 0)
    decreases W.Limit(t.run.mode) - n
  {
    OneAttemptWrites(t, action, faults, n);
    W.OneAttemptKeepsRun(t, action, faults, n);
    hide D.Writes, W.OneAttempt, BackendOutput;
    var fault := FaultFor(faults, action.tool, n);
    if fault.Some? && Transient(fault.value) && n < W.Limit(t.run.mode) {
      AttemptsWrite(W.OneAttempt(t, action, faults, n), action, faults, n + 1);
    }
  }

  lemma PerformWrites(w: World, t: Tables, action: Action)
    requires MayCall(w, t, action) && Unused(t, action) && t.run.mode == w.mode
    ensures D.Writes(D.Perform(w.job, t, action).events) == D.Writes(t.events) +
              (if Succeeds(w.scenario.faults, action.tool, w.mode) && IsWrite(action.tool) then 1 else 0)
  {
    var t0 := NewCall(t, action, w.job.faults, t.counter, w.job.now, w.job.claimSeconds);
    AttemptsWrite(t0, action, w.scenario.faults, 1);
    LoopResult(t0, action, w.scenario.faults);
    var (called, result) := W.Call(t, action, w.job.faults, t.counter, w.job.now, w.job.claimSeconds);
    hide D.Writes, W.Call, W.AttemptsFrom, Succeeds, BackendOutput, AllCompleted, W.ConsentCode;
    match result
    case CallFailed(code, _, _) =>
      SaveWrites(called, P.Ended(called.run, code, Bare, false), Note(0, Error, RunFailed(Failure(code, Bare))));
    case CallOk(output, attempts, cached) =>
      var run := P.CheckpointRun(called.run, output);
      SaveWrites(called, run,
          Note(0, Fine, Checkpointed(called.run.step, attempts, run.step, cached, OfOutput(output),
              OfContext(run.context))));
  }
}
