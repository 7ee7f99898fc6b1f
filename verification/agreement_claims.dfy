/** The claims the gate derives from a worker's trace are those the runner reports for it. */
module AgreementClaims {
  import opened Domain
  import opened Evidence
  import opened Gate
  import opened GateSoundness
  import opened GateOrder
  import opened GateRetries
  import GO = GateOutputs
  import GA = GateApproval
  import AC = AgreementCalls
  import AH = AgreementHead
  import A = Agreement
  import AgreementCases
  import opened Rows
  import D = Desktop
  import T = DesktopTrace

  // ---------------------------------------------------------------- the runner's accepted outputs

  predicate NamesCall(actions: seq<Action>, step: nat) {
    step < |actions| && actions[step].CallTool? && Registered(actions[step].tool)
  }

  /** The results below `bound`, by step. */
  function OutputsBelow(results: map<nat, Output>, actions: seq<Action>, bound: nat): seq<Accepted>
    requires forall k :: k in results ==> NamesCall(actions, k)
  {
    if bound == 0 then []
    else
      var rest := OutputsBelow(results, actions, bound - 1);
      if bound - 1 in results then rest + [Accepted(bound - 1, actions[bound - 1].tool, results[bound - 1])] else rest
  }

  /** `accepted_output_evidence`: None where it raises. */
  function AcceptedEvidence(results: map<nat, Output>, actions: seq<Action>): Option<seq<Accepted>> {
    if forall k :: k in results ==> NamesCall(actions, k) then Some(OutputsBelow(results, actions, |actions|)) else None
  }

  function Steps(accepted: seq<Accepted>): set<nat> {
    set i | 0 <= i < |accepted| :: accepted[i].step
  }

  predicate Named(accepted: seq<Accepted>, actions: seq<Action>) {
    forall i :: 0 <= i < |accepted| ==>
        NamesCall(actions, accepted[i].step) && accepted[i].tool == actions[accepted[i].step].tool
  }

  lemma {:induction false} ResultKeys(initial: map<nat, Output>, accepted: seq<Accepted>)
    ensures GO.Results(initial, accepted).Keys == initial.Keys + Steps(accepted)
  {
    if accepted != [] {
      var a, rest := accepted[|accepted| - 1], accepted[..|accepted| - 1];
      ResultKeys(initial, rest);
      assert Steps(accepted) == Steps(rest) + {a.step};
    } else {
      assert Steps(accepted) == {};
    }
  }

  lemma {:induction false} OutputsWithout(results: map<nat, Output>, actions: seq<Action>, step: nat, output: Output,
      bound: nat)
    requires forall k :: k in results ==> NamesCall(actions, k)
    requires NamesCall(actions, step) && bound <= step
    ensures OutputsBelow(results[step := output], actions, bound) == OutputsBelow(results, actions, bound)
  {
    if bound > 0 {
      OutputsWithout(results, actions, step, output, bound - 1);
    }
  }

  lemma {:induction false} OutputsStop(results: map<nat, Output>, actions: seq<Action>, low: nat, bound: nat)
    requires forall k :: k in results ==> NamesCall(actions, k) && k < low
    requires low <= bound
    ensures OutputsBelow(results, actions, bound) == OutputsBelow(results, actions, low)
    decreases bound
  {
    if low < bound {
      OutputsStop(results, actions, low, bound - 1);
    }
  }

  /** The results of a climbing list of outputs, read back by step, are that list. */
  lemma {:induction false} ReadBack(initial: map<nat, Output>, accepted: seq<Accepted>, actions: seq<Action>,
      bound: nat)
    requires GO.Climbing(accepted) && Named(accepted, actions) && initial == map[]
    requires forall i :: 0 <= i < |accepted| ==> accepted[i].step < bound
    ensures forall k :: k in GO.Results(initial, accepted) ==> NamesCall(actions, k)
    ensures OutputsBelow(GO.Results(initial, accepted), actions, bound) == accepted
  {
    ResultKeys(initial, accepted);
    if accepted == [] {
      OutputsStop(map[], actions, 0, bound);
    } else {
      var a, rest := accepted[|accepted| - 1], accepted[..|accepted| - 1];
      ResultKeys(initial, rest);
      ReadBack(initial, rest, actions, a.step);
      var before := GO.Results(initial, rest);
      OutputsWithout(before, actions, a.step, a.output, a.step);
      OutputsStop(GO.Results(initial, accepted), actions, a.step + 1, bound);
    }
  }

  lemma {:induction false} SameResults(initial: map<nat, Output>, accepted: seq<Accepted>)
    requires initial.Keys <= Steps(accepted)
    ensures GO.Results(initial, accepted) == GO.Results(map[], accepted)
  {
    ResultKeys(initial, accepted);
    ResultKeys(map[], accepted);
    forall k | k in Steps(accepted)
      ensures GO.Results(initial, accepted)[k] == GO.Results(map[], accepted)[k]
    {
      SameResult(initial, accepted, k);
    }
  }

  lemma {:induction false} SameResult(initial: map<nat, Output>, accepted: seq<Accepted>, k: nat)
    requires k in Steps(accepted)
    ensures k in GO.Results(initial, accepted) && k in GO.Results(map[], accepted)
    ensures GO.Results(initial, accepted)[k] == GO.Results(map[], accepted)[k]
  {
    var a, rest := accepted[|accepted| - 1], accepted[..|accepted| - 1];
    assert Steps(accepted) == Steps(rest) + {a.step};
    if k != a.step {
      SameResult(initial, rest, k);
    }
  }

  lemma {:induction false} OutputsComplete(results: map<nat, Output>, actions: seq<Action>, bound: nat, k: nat)
    requires forall k :: k in results ==> NamesCall(actions, k)
    requires k in results && k < bound
    ensures k in Steps(OutputsBelow(results, actions, bound))
  {
    var rest := OutputsBelow(results, actions, bound - 1);
    var all := OutputsBelow(results, actions, bound);
    if k == bound - 1 {
      assert all[|rest|].step == k;
    } else {
      OutputsComplete(results, actions, bound - 1, k);
      var i :| 0 <= i < |rest| && rest[i].step == k;
      assert all[i].step == k;
    }
  }

  /** Reading the outputs back from the context gives the accepted ones exactly when every
      result the run began with was overwritten by one of them. */
  lemma {:induction false} OutputsAgree(initial: map<nat, Output>, accepted: seq<Accepted>, actions: seq<Action>)
    requires GO.Climbing(accepted) && Named(accepted, actions)
    ensures AcceptedEvidence(GO.Results(initial, accepted), actions) == Some(accepted)
            <==> initial.Keys <= Steps(accepted)
  {
    ResultKeys(initial, accepted);
    var results := GO.Results(initial, accepted);
    if initial.Keys <= Steps(accepted) {
      SameResults(initial, accepted);
      ReadBack(map[], accepted, actions, |actions|);
    } else if forall k :: k in results ==> NamesCall(actions, k) {
      var k :| k in initial.Keys && k !in Steps(accepted);
      OutputsComplete(results, actions, |actions|, k);
    }
  }

  // ---------------------------------------------------------------- the context

  lemma {:induction false} ContextStep(plan: Plan, context: Context, mode: Mode, g: State, event: Event, g': State,
      events: seq<Event>)
    requires Step(plan, context, mode, g, event) == Live(g')
    requires T.LastContext(OfContext(context), events) == OfContext(context.(results := g.delivery.outputs))
    ensures T.LastContext(OfContext(context), events + [event]) == OfContext(context.(results := g'.delivery.outputs))
  {
    DeliveryView(plan, context, mode, g, event, g');
    assert (events + [event])[..|events|] == events;
    hide Step;
  }

  /** The last checkpoint of an accepted prefix holds the context the gate has rebuilt. */
  lemma {:induction false} FoldContext(plan: Plan, context: Context, mode: Mode, events: seq<Event>, g: State)
    requires Fold(plan, context, mode, events) == Live(g)
    ensures T.LastContext(OfContext(context), events) == OfContext(context.(results := g.delivery.outputs))
  {
    if events != [] {
      hide Step, T.LastContext;
      var before, event := events[..|events| - 1], events[|events| - 1];
      var h := Fold(plan, context, mode, before).state;
      FoldContext(plan, context, mode, before, h);
      ContextStep(plan, context, mode, h, event, g, before);
      assert before + [event] == events;
    }
  }

  lemma ReportView(s: Scenario, mode: Mode, job: D.Job, traceId: nat)
    ensures var c := A.CaseReport(s, mode, job, traceId);
            && Events(c.items) == D.RunCase(s, mode, job).events && c.mode == mode
            && AC.FrozenOf(s).context == s.context && AC.FrozenOf(s).actions == AC.Project(s.actions)
  {
    AH.ItemsEvents(D.RunCase(s, mode, job).events, traceId);
    hide D.RunCase, D.FirstStop, Events, AH.Items, D.Writes;
  }

  lemma {:induction false} FaithfulContext(initial: Digest, t: Tables)
    requires T.Faithful(initial, t)
    ensures T.LastContext(initial, t.events) == OfContext(t.run.context)
  {
    hide T.LastContext;
  }

  lemma ClaimsAreLive(c: Case, frozen: Frozen)
    requires ClaimsOf(c, frozen).Some?
    ensures Fold(ByStep(frozen.actions), frozen.context, c.mode, Events(c.items)).Live?
  {
    hide Fold, ByStep, Events, HeaderOk, FrozenOk, Conclude;
  }

  /** The context that the runtime saved is the one the gate rebuilds from the outputs. */
  lemma ContextRebuilt(s: Scenario, mode: Mode, job: D.Job, traceId: nat)
    requires ClaimsOf(A.CaseReport(s, mode, job, traceId), AC.FrozenOf(s)).Some?
    ensures var accepted := ClaimsOf(A.CaseReport(s, mode, job, traceId), AC.FrozenOf(s)).value.accepted;
            && D.RunCase(s, mode, job).run.context == s.context.(results := GO.Results(s.context.results, accepted))
            && GO.Climbing(accepted) && Named(accepted, s.actions)
  {
    hide *;
    var c, frozen := A.CaseReport(s, mode, job, traceId), AC.FrozenOf(s);
    var t := D.RunCase(s, mode, job);
    T.CaseFaithful(s, mode, job);
    FaithfulContext(OfContext(s.context), t);
    ReportView(s, mode, job, traceId);
    ClaimsAreLive(c, frozen);
    var g := Fold(ByStep(frozen.actions), s.context, mode, t.events).state;
    FoldContext(ByStep(frozen.actions), s.context, mode, t.events, g);
    AtEnd(c, frozen, g);
    GO.AcceptedOutputsAreTheSuccesses(c, frozen);
    AcceptedNamed(s.actions, ClaimsOf(c, frozen).value.accepted);
  }

  lemma AcceptedNamed(actions: seq<Action>, accepted: seq<Accepted>)
    requires forall i :: 0 <= i < |accepted| ==>
               && accepted[i].step in ByStep(AC.Project(actions))
               && ByStep(AC.Project(actions))[accepted[i].step].tool == Some(accepted[i].tool)
               && ByStep(AC.Project(actions))[accepted[i].step].expected == Some(OfOutput(accepted[i].output))
    ensures Named(accepted, actions)
  {
    AC.ProjectionFollows(actions);
    hide ByStep, AC.Project, ExpectedDigest;
    forall i | 0 <= i < |accepted|
      ensures NamesCall(actions, accepted[i].step) && accepted[i].tool == actions[accepted[i].step].tool
    {
      ExpectedIsCall(actions[accepted[i].step]);
    }
  }

  lemma ExpectedIsCall(action: Action)
    requires ExpectedDigest(action).Some?
    ensures action.CallTool? && Registered(action.tool)
  {
  }

  lemma AtEnd(c: Case, frozen: Frozen, g: State)
    requires ClaimsOf(c, frozen).Some?
    requires Fold(ByStep(frozen.actions), frozen.context, c.mode, Events(c.items)) == Live(g)
    ensures g.delivery.outputs == GO.Results(frozen.context.results, ClaimsOf(c, frozen).value.accepted)
  {
    assert Events(c.items)[..|c.items|] == Events(c.items);
    GO.PrefixDelivers(c, frozen, |c.items|, g);
    hide Fold, Step, ByStep, Events;
  }

  // ---------------------------------------------------------------- the approval

  lemma {:induction false} NoDecisions(events: seq<Event>)
    requires forall i :: 0 <= i < |events| ==> !events[i].note.body.ApprovalRecorded?
    ensures GA.Decisions(events) == []
  {
    if events != [] {
      NoDecisions(events[..|events| - 1]);
    }
  }

  lemma {:induction false} SomeWait(events: seq<Event>, n: nat)
    requires n < |events| && events[n].note.body.WaitingFor?
    ensures GA.Waits(events) != []
  {
    if n < |events| - 1 {
      SomeWait(events[..|events| - 1], n);
    }
  }

  lemma ReconstructedMeans(c: Case, frozen: Frozen)
    requires ClaimsOf(c, frozen).Some?
    ensures ClaimsOf(c, frozen).value.reconstructed ==> GA.Decisions(Events(c.items)) != []
    ensures !ClaimsOf(c, frozen).value.reconstructed ==> GA.Waits(Events(c.items)) == []
  {
    hide ClaimsOf, Fold, Step, Serial, Tracks, Anchored, Events, ByStep, Abandoned, GatedSteps, GA.Decisions, GA.Waits;
    var h := PrefixExists(c, frozen, |c.items|);
    EventsCover(c);
    GA.PrefixLocated(c, frozen, |c.items|, h, 0);
    ApprovalIs(c, frozen, h);
  }

  lemma EventsCover(c: Case)
    ensures |Events(c.items)| == |c.items| && Events(c.items)[..|c.items|] == Events(c.items)
  {
  }

  lemma ApprovalIs(c: Case, frozen: Frozen, h: State)
    requires ClaimsOf(c, frozen).Some?
    requires Fold(ByStep(frozen.actions), frozen.context, c.mode, Events(c.items)) == Live(h)
    ensures ApprovalCycles(c, frozen, h) == Some(ClaimsOf(c, frozen).value.reconstructed)
  {
    hide Fold, ByStep, Events, HeaderOk, FrozenOk, Settled, PositionsOk, AttemptSemantics, ApprovalCycles;
  }

  lemma ApprovalAgrees(s: Scenario, mode: Mode, job: D.Job, traceId: nat)
    requires ClaimsOf(A.CaseReport(s, mode, job, traceId), AC.FrozenOf(s)).Some?
    ensures ClaimsOf(A.CaseReport(s, mode, job, traceId), AC.FrozenOf(s)).value.reconstructed
            <==> D.FirstStop(s, mode, job).run.status.WaitingApproval? && s.approvalSupplied
  {
    var c, frozen := A.CaseReport(s, mode, job, traceId), AC.FrozenOf(s);
    var first, t := D.FirstStop(s, mode, job), D.RunCase(s, mode, job);
    T.CaseFaithful(s, mode, job);
    T.FirstStopFaithful(s, mode, job);
    AH.ItemsEvents(t.events, traceId);
    FirstHasNoApproval(s, mode, job);
    CaseGrows(s, mode, job);
    hide D.RunCase, D.FirstStop, ClaimsOf, AC.FrozenOf, T.LastContext, Events, AH.Items;
    ReconstructedMeans(c, frozen);
    if first.run.status.WaitingApproval? && s.approvalSupplied {
      assert t.events[|first.events| - 1] == first.events[|first.events| - 1];
      SomeWait(t.events, |first.events| - 1);
    } else {
      NoDecisions(t.events);
    }
  }

  lemma FirstHasNoApproval(s: Scenario, mode: Mode, job: D.Job)
    ensures D.FirstStop(s, mode, job).approvals == map[]
  {
    hide D.Loop, D.Enter;
  }

  lemma CaseGrows(s: Scenario, mode: Mode, job: D.Job)
    ensures var first, t := D.FirstStop(s, mode, job), D.RunCase(s, mode, job);
            |first.events| <= |t.events| && t.events[..|first.events|] == first.events
  {
    hide D.FirstStop, D.ExecuteOwned;
    var first := D.FirstStop(s, mode, job);
    if first.run.status.WaitingApproval? && s.approvalSupplied && first.run.pendingDigest.Some? {
      var recorded := Rows.Record(first, first.run.step, D.SuiteApproval(first.run.pendingDigest.value), true);
      if recorded.Ok? {
        ExecuteKeeps(job, recorded.value);
      }
    }
  }

  lemma ExecuteKeeps(job: D.Job, t: Tables)
    ensures var u := D.ExecuteOwned(job, t, 1); |t.events| <= |u.events| && u.events[..|t.events|] == t.events
  {
    AgreementCases.ExecuteGrows(job, t, 1);
    hide D.ExecuteOwned;
  }

  // ---------------------------------------------------------------- the theorem

  /** The results a run begins with lie below the first action that is not a call that succeeds. */
  predicate Overwritten(s: Scenario, mode: Mode) {
    forall k :: k in s.context.results ==> k < A.Reach(s, mode, 0)
  }

  lemma AnsweredSteps(actions: seq<Action>, accepted: seq<Accepted>, n: nat)
    requires AH.AnsweredTo(actions, accepted, n)
    ensures forall k: nat :: k in Steps(accepted) <==> k < n
  {
    forall k: nat | k < n
      ensures k in Steps(accepted)
    {
      assert accepted[k].step == k;
    }
  }

  /** Whenever the gate accepts a worker's trace, its claims are the runner's: status and
      result of the run row, tools, attempts, faults and rejections filtered from the trace,
      and the approval.  The accepted outputs are the backend's answers to the actions before
      the first one that is not a call that succeeds; the runner, which reads them from the
      run's context, finds the same exactly if no result that the run began with outlives
      those calls, which the scenario says before it runs. */
  lemma {:induction false} ClaimsAreTheRunners(s: Scenario, mode: Mode, job: D.Job, traceId: nat)
    requires job.actions == s.actions && job.faults == s.faults
    requires ClaimsOf(A.CaseReport(s, mode, job, traceId), AC.FrozenOf(s)).Some?
    ensures var claims, t := ClaimsOf(A.CaseReport(s, mode, job, traceId), AC.FrozenOf(s)).value,
            D.RunCase(s, mode, job);
            && claims.status == t.run.status && t.run.result == Some(claims.result)
            && LogicalToolSequence(t.events) == Some(claims.tools)
            && AttemptsComplete(t.events) && claims.attempts == AttemptEvidence(t.events)
            && claims.faults == FaultEvidence(t.events) && claims.rejections == RejectionEvidence(t.events)
            && (claims.reconstructed <==> D.FirstStop(s, mode, job).run.status.WaitingApproval? && s.approvalSupplied)
            && AH.AnsweredTo(s.actions, claims.accepted, A.Reach(s, mode, 0))
            && (AcceptedEvidence(t.run.context.results, s.actions) == Some(claims.accepted) <==> Overwritten(s, mode))
  {
    hide *;
    SameAsFiltered(s, mode, job, traceId);
    OutputsReadOff(s, mode, job, traceId);
    ApprovalAgrees(s, mode, job, traceId);
  }

  lemma SameAsFiltered(s: Scenario, mode: Mode, job: D.Job, traceId: nat)
    requires ClaimsOf(A.CaseReport(s, mode, job, traceId), AC.FrozenOf(s)).Some?
    ensures var claims, t := ClaimsOf(A.CaseReport(s, mode, job, traceId), AC.FrozenOf(s)).value,
            D.RunCase(s, mode, job);
            && claims.status == t.run.status && t.run.result == Some(claims.result)
            && LogicalToolSequence(t.events) == Some(claims.tools)
            && AttemptsComplete(t.events) && claims.attempts == AttemptEvidence(t.events)
            && claims.faults == FaultEvidence(t.events) && claims.rejections == RejectionEvidence(t.events)
  {
    var c, frozen := A.CaseReport(s, mode, job, traceId), AC.FrozenOf(s);
    var t := D.RunCase(s, mode, job);
    AH.ItemsEvents(t.events, traceId);
    T.CaseFaithful(s, mode, job);
    hide D.RunCase, D.FirstStop, ClaimsOf, AC.FrozenOf, T.LastContext, Events, AH.Items, GO.Results, AttemptsComplete,
        LogicalToolSequence;
    GateAgreesWithRunner(c, frozen);
    GA.EndsOnce(c, frozen);
    LeftOpen(s, mode, job);
  }

  lemma {:induction false} OutputsReadOff(s: Scenario, mode: Mode, job: D.Job, traceId: nat)
    requires job.actions == s.actions && job.faults == s.faults
    requires ClaimsOf(A.CaseReport(s, mode, job, traceId), AC.FrozenOf(s)).Some?
    ensures var claims, t := ClaimsOf(A.CaseReport(s, mode, job, traceId), AC.FrozenOf(s)).value,
            D.RunCase(s, mode, job);
            && AH.AnsweredTo(s.actions, claims.accepted, A.Reach(s, mode, 0))
            && (AcceptedEvidence(t.run.context.results, s.actions) == Some(claims.accepted) <==> Overwritten(s, mode))
  {
    hide D.RunCase, ClaimsOf, A.CaseReport, AC.FrozenOf, A.Gradeable, A.Reach, GO.Results, AcceptedEvidence,
        AH.AnsweredTo, Named, GO.Climbing;
    A.GradedWith(s, mode, job, traceId);
    ContextRebuilt(s, mode, job, traceId);
    var accepted := ClaimsOf(A.CaseReport(s, mode, job, traceId), AC.FrozenOf(s)).value.accepted;
    OutputsAgree(s.context.results, accepted, s.actions);
    AnsweredSteps(s.actions, accepted, A.Reach(s, mode, 0));
  }

  /** A run that begins without results is read back as the gate accepts it. */
  lemma FreshContextsAgree(s: Scenario, mode: Mode, job: D.Job, traceId: nat)
    requires job.actions == s.actions && job.faults == s.faults && s.context.results == map[]
    requires ClaimsOf(A.CaseReport(s, mode, job, traceId), AC.FrozenOf(s)).Some?
    ensures AcceptedEvidence(D.RunCase(s, mode, job).run.context.results, s.actions)
            == Some(ClaimsOf(A.CaseReport(s, mode, job, traceId), AC.FrozenOf(s)).value.accepted)
  {
    hide D.RunCase, ClaimsOf, A.CaseReport, AC.FrozenOf, AcceptedEvidence, AH.AnsweredTo, A.Reach;
    OutputsReadOff(s, mode, job, traceId);
  }

  /** A read that fails for good, in a run that began with a result of its step. */
  predicate KeepsAnOldResult(s: Scenario, earlier: Output) {
    && s.actions == [CallTool(GetDeployment, NoArguments, None), Finish("done", [], Code.Named("diagnosed"))]
    && s.faults == [FaultRule(GetDeployment, 1, MalformedOutput)] && s.context.results == map[0 := earlier]
  }

  lemma {:induction false} OldResultReach(s: Scenario, mode: Mode, earlier: Output, budget: nat)
    requires KeepsAnOldResult(s, earlier) && 2 <= budget
    ensures A.Reach(s, mode, 0) == 0 && A.Gradeable(s, mode, budget, 0, {}, false)
    ensures AcceptedEvidence(s.context.results, s.actions) == Some([Accepted(0, GetDeployment, earlier)])
  {
    assert FaultFor(s.faults, GetDeployment, 1) == Some(MalformedOutput);
    A.GradeableCall(s, mode, budget, 0, {}, false);
    assert OutputsBelow(s.context.results, s.actions, 1) == [Accepted(0, GetDeployment, earlier)] by {
      assert OutputsBelow(s.context.results, s.actions, 0) == [];
    }
    hide A.Gradeable, A.Reach;
  }

  /** Such a run is accepted with no output, and the runner reports the one it began with. */
  lemma OldResultSurvives(s: Scenario, mode: Mode, job: D.Job, traceId: nat, earlier: Output)
    requires KeepsAnOldResult(s, earlier) && job.actions == s.actions && job.faults == s.faults && 2 <= job.budget
    ensures var claims := ClaimsOf(A.CaseReport(s, mode, job, traceId), AC.FrozenOf(s));
            && claims.Some? && claims.value.accepted == []
            && AcceptedEvidence(D.RunCase(s, mode, job).run.context.results, s.actions)
                == Some([Accepted(0, GetDeployment, earlier)])
  {
    OldResultReach(s, mode, earlier, job.budget);
    hide D.RunCase, ClaimsOf, A.CaseReport, AC.FrozenOf, A.Gradeable, A.Reach, AcceptedEvidence, Named, GO.Climbing;
    A.GradedWith(s, mode, job, traceId);
    ContextRebuilt(s, mode, job, traceId);
  }

  /** A case never ends queued or running. */
  lemma LeftOpen(s: Scenario, mode: Mode, job: D.Job)
    ensures !D.RunCase(s, mode, job).run.status.Running? && !D.RunCase(s, mode, job).run.status.Queued?
  {
    hide D.Loop;
    NotQueued(job, D.Enter(Fresh(NewRun(mode, s.context)).(lease := Some(Lease(0, job.now + job.leaseSeconds)))));
    var first := D.FirstStop(s, mode, job);
    hide D.FirstStop;
    if first.run.status.WaitingApproval? && s.approvalSupplied && first.run.pendingDigest.Some? {
      var recorded := Rows.Record(first, first.run.step, D.SuiteApproval(first.run.pendingDigest.value), true);
      if recorded.Ok? {
        NotQueued(job, D.Enter(recorded.value.(lease := Some(Lease(1, job.now + job.leaseSeconds)))));
      }
    }
  }

  lemma {:induction false} NotQueued(job: D.Job, t: Tables)
    requires !t.run.status.Queued?
    ensures !D.Loop(job, t).run.status.Queued?
    decreases if t.run.status.Running? then 1 else 0, D.Remaining(job, t.run)
  {
    if t.run.status.Running? {
      PassNotQueued(job, t);
      hide D.Pass;
      NotQueued(job, D.Pass(job, t));
    }
  }

  lemma PassNotQueued(job: D.Job, t: Tables)
    requires t.run.status.Running?
    ensures !D.Pass(job, t).run.status.Queued?
  {
    hide D.Save;
    forall u: Tables, action: Action | action.CallTool? && u.run.status.Running?
      ensures !D.Perform(job, u, action).run.status.Queued?
    {
      D.CallKeeps(u, action, job.faults, u.counter, job.now, job.claimSeconds);
    }
    hide D.Perform;
  }
}
