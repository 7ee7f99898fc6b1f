/** Producer and acceptor agree: which cases of one uncrashed worker the gate accepts, and that
    its claims are the runner's. */
module Agreement {
  import opened Domain
  import opened Evidence
  import opened Gate
  import opened AgreementLedger
  import opened AgreementCalls
  import opened AgreementSteps
  import opened AgreementHead
  import opened AgreementCases
  import opened AgreementApproval
  import opened Rows
  import P = Protocol
  import W = Gateway
  import D = Desktop

  // ---------------------------------------------------------------- the condition

  /** Whether the gate will be able to grade the case, read off the scenario before it runs.

      A walk over the actions: a run must reach its own `finish` or `fail` within the budget,
      or fail in a way the trace explains.  Keys may not be used twice, a gated write needs
      its own explicit key, an approval that the scenario supplies, arguments the fixture
      knows and an attempt that succeeds, and there may be only one. */
  predicate Gradeable(s: Scenario, mode: Mode, budget: nat, step: nat, used: set<Key>, wrote: bool)
    decreases |s.actions| - step
  {
    && step < budget && step < |s.actions|
    && match s.actions[step]
       case Finish(_, _, _) => true
       case Fail(_, _) => true
       case CallTool(tool, args, key) =>
         var stable := W.Stabilise(step, s.actions[step]);
         var next := if key.Some? then used + {key.value} else used;
         if W.PreflightCode(s.faults, stable).Some? then stable == s.actions[step]
         else if RequiresApproval(tool) then
           && s.approvalSupplied && !wrote && key.Some? && key.value !in used
           && Succeeds(s.faults, tool, mode) && FixtureOutput(tool, args).Some?
           && Gradeable(s, mode, budget, step + 1, next, true)
         else
           && (key.Some? ==> key.value !in used)
           && (Succeeds(s.faults, tool, mode) ==> Gradeable(s, mode, budget, step + 1, next, wrote))
  }

  /** The first step from `step` on whose action is not a call that succeeds. */
  function Reach(s: Scenario, mode: Mode, step: nat): (reach: nat)
    ensures step <= reach
    decreases |s.actions| - step
  {
    if step < |s.actions| && s.actions[step].CallTool?
       && W.PreflightCode(s.faults, W.Stabilise(step, s.actions[step])).None?
       && Succeeds(s.faults, s.actions[step].tool, mode)
    then Reach(s, mode, step + 1) else step
  }

  // ---------------------------------------------------------------- from a loop head on

  /** Reading `Gradeable` at a tool action of the walk. */
  lemma GradeableCall(s: Scenario, mode: Mode, budget: nat, step: nat, used: set<Key>, wrote: bool)
    requires step < budget && step < |s.actions| && s.actions[step].CallTool?
    ensures var action := s.actions[step];
            var stable := W.Stabilise(step, action);
            var next := used + (if action.key.Some? then {action.key.value} else {});
            var unused := action.key.Some? ==> action.key.value !in used;
            Gradeable(s, mode, budget, step, used, wrote) ==
              if W.PreflightCode(s.faults, stable).Some? then stable == action
              else if RequiresApproval(action.tool) then
                && s.approvalSupplied && !wrote && action.key.Some? && unused
                && Succeeds(s.faults, action.tool, mode) && FixtureOutput(action.tool, action.args).Some?
                && Gradeable(s, mode, budget, step + 1, next, true)
              else unused && (Succeeds(s.faults, action.tool, mode) ==>
                  Gradeable(s, mode, budget, step + 1, next, wrote))
  {
    hide W.Stabilise, W.PreflightCode, Succeeds, FixtureOutput;
    var key := s.actions[step].key;
    assert used + {} == used;
  }

  /** The case is accepted exactly if the rest of the walk is gradeable, and then with the
      backend's answers to every action up to where the walk first fails or ends. */
  ghost predicate Graded(w: World, traceId: nat, t: Tables, wrote: bool) {
    if Gradeable(w.scenario, w.mode, w.job.budget, t.run.step, t.claims.Keys, wrote)
    then Credited(w, traceId, t, wrote, Reach(w.scenario, w.mode, t.run.step))
    else Report(w, traceId, t, wrote).None?
  }

  lemma {:induction false} AgreesFrom(w: World, traceId: nat, t: Tables, g: State, wrote: Option<nat>)
    requires Head(w, t, g, wrote)
    ensures Graded(w, traceId, t, wrote.Some?)
    decreases |w.scenario.actions| - t.run.step
  {
    hide See, Below, D.Writes, AllCompleted, Contiguous, Report, Rested, Succeeds, FixtureOutput, W.PreflightCode,
        W.Stabilise;
    if t.run.step >= w.job.budget || t.run.step >= |w.scenario.actions| {
      NoAction(w, traceId, t, g, wrote);
    } else if !w.scenario.actions[t.run.step].CallTool? {
      TerminalAction(w, traceId, t, g, wrote);
    } else {
      hide Gradeable;
      GradeableCall(w.scenario, w.mode, w.job.budget, t.run.step, t.claims.Keys, wrote.Some?);
      CallAgrees(w, traceId, t, g, wrote, w.scenario.actions[t.run.step]);
    }
  }

  lemma {:induction false} CallAgrees(w: World, traceId: nat, t: Tables, g: State, wrote: Option<nat>, action: Action)
    requires Calling(w, t, g, wrote, action)
    ensures Graded(w, traceId, t, wrote.Some?)
    decreases |w.scenario.actions| - t.run.step, 0
  {
    hide See, Below, D.Writes, AllCompleted, Contiguous, Report, Rested, Succeeds, FixtureOutput, W.PreflightCode,
        W.Stabilise, Gradeable, Head;
    GradeableCall(w.scenario, w.mode, w.job.budget, t.run.step, t.claims.Keys, wrote.Some?);
    if W.PreflightCode(w.scenario.faults, W.Stabilise(t.run.step, action)).Some? {
      PreflightCase(w, traceId, t, g, wrote, action);
    } else if !RequiresApproval(action.tool) {
      var u, g' := PlainCase(w, traceId, t, g, wrote, action);
      if Resumed(w, traceId, t, action, u, g', wrote, wrote) {
        AgreesFrom(w, traceId, u, g', wrote);
      }
    } else if wrote.Some? || !w.scenario.approvalSupplied {
      LeftWaiting(w, traceId, t, g, wrote, action);
    } else {
      var u, g' := GatedCase(w, traceId, t, g, action);
      if Resumed(w, traceId, t, action, u, g', None, Some(t.run.step)) {
        AgreesFrom(w, traceId, u, g', Some(t.run.step));
      }
    }
  }

  // ---------------------------------------------------------------- whole cases

  /** The case the runner reports: the writes before the first stop, and those at the end. */
  function CaseReport(s: Scenario, mode: Mode, job: D.Job, traceId: nat): Case {
    CaseOf(mode, traceId, D.Writes(D.FirstStop(s, mode, job).events), D.RunCase(s, mode, job))
  }

  lemma StartsAtHead(w: World)
    requires w.job.actions == w.scenario.actions && w.job.faults == w.scenario.faults
    ensures Head(w, Begun(w), Init(w.scenario.context), None)
    ensures Begun(w).run.step == 0 && Begun(w).claims.Keys == {}
  {
    var t0 := Fresh(NewRun(w.mode, w.scenario.context)).(lease := Some(Lease(0, w.job.now + w.job.leaseSeconds)));
    SaveOne(t0, t0.run.(status := Status.Running, pendingApproval := false), Note(0, Fine, RunRunning(Status.Queued)));
    SaveSeen(w, t0, Init(w.scenario.context), t0.run.(status := Status.Running, pendingApproval := false),
        Note(0, Fine, RunRunning(Status.Queued)));
    WritesAppend(t0.(run := t0.run.(status := Status.Running, pendingApproval := false, version := 2)),
        Note(0, Fine, RunRunning(Status.Queued)));
    hide PlanOf;
  }

  /** The gate accepts the trace that one uncrashed worker commits for a scenario exactly when
      the scenario is gradeable, in either mode and under any budget. */
  lemma {:induction false} AcceptedExactlyWhenGradeable(s: Scenario, mode: Mode, job: D.Job, traceId: nat)
    requires job.actions == s.actions && job.faults == s.faults
    ensures ClaimsOf(CaseReport(s, mode, job, traceId), FrozenOf(s)).Some?
            <==> Gradeable(s, mode, job.budget, 0, {}, false)
  {
    GradedWith(s, mode, job, traceId);
  }

  /** And then the accepted outputs are the backend's answers to every action before the first
      one that is not a call that succeeds. */
  lemma {:induction false} GradedWith(s: Scenario, mode: Mode, job: D.Job, traceId: nat)
    requires job.actions == s.actions && job.faults == s.faults
    ensures var claims := ClaimsOf(CaseReport(s, mode, job, traceId), FrozenOf(s));
            if Gradeable(s, mode, job.budget, 0, {}, false)
            then claims.Some? && AnsweredTo(s.actions, claims.value.accepted, Reach(s, mode, 0))
            else claims.None?
  {
    var w := World(s, mode, job);
    StartsAtHead(w);
    ReportIsCase(w, traceId);
    var t := Begun(w);
    assert t.run.step == 0 && t.claims.Keys == {};
    hide *;
    AgreesFrom(w, traceId, t, Init(s.context), None);
    GradedMeans(w, traceId, t);
  }

  lemma GradedMeans(w: World, traceId: nat, t: Tables)
    requires Graded(w, traceId, t, false)
    ensures if Gradeable(w.scenario, w.mode, w.job.budget, t.run.step, t.claims.Keys, false)
            then Report(w, traceId, t, false).Some?
                 && AnsweredTo(w.scenario.actions, Report(w, traceId, t, false).value.accepted,
                     Reach(w.scenario, w.mode, t.run.step))
            else Report(w, traceId, t, false).None?
  {
    hide Gradeable, Report, AnsweredTo, Reach;
  }

  /** The tables of a new run when its first worker enters the loop. */
  function Begun(w: World): Tables {
    D.Enter(Fresh(NewRun(w.mode, w.scenario.context)).(lease := Some(Lease(0, w.job.now + w.job.leaseSeconds))))
  }

  lemma ReportIsCase(w: World, traceId: nat)
    ensures Report(w, traceId, Begun(w), false)
            == ClaimsOf(CaseReport(w.scenario, w.mode, w.job, traceId), FrozenOf(w.scenario))
  {
    hide D.Enter, D.Loop, D.Decide, ClaimsOf, D.Writes;
  }

  // ---------------------------------------------------------------- readable instances

  predicate Ends(action: Action) {
    action.Finish? || action.Fail?
  }

  /** A catalogue call whose arguments the fixture knows or the input model rejects, and whose
      key is present exactly on a write. */
  predicate CatalogueCall(action: Action) {
    && action.CallTool? && Registered(action.tool)
    && (FixtureOutput(action.tool, action.args).Some? || !ValidInput(action.tool, action.args))
    && (IsWrite(action.tool) <==> action.key.Some?)
  }

  /** Calls of the catalogue, then one `finish` or `fail`; at most one write, whose attempts
      succeed and which the scenario approves. */
  predicate CatalogueScenario(s: Scenario, mode: Mode) {
    && s.actions != [] && Ends(s.actions[|s.actions| - 1])
    && W.PlanRegistered(s.faults)
    && (forall k :: 0 <= k < |s.actions| - 1 ==> CatalogueCall(s.actions[k]))
    && (forall k :: 0 <= k < |s.actions| && Gated(s.actions[k]) ==>
        s.approvalSupplied && Succeeds(s.faults, s.actions[k].tool, mode))
    && (forall j, k :: 0 <= j < k < |s.actions| && Gated(s.actions[j]) ==> !Gated(s.actions[k]))
  }

  lemma {:induction false} CatalogueIsGradeable(s: Scenario, mode: Mode, budget: nat, step: nat, used: set<Key>,
      wrote: bool)
    requires CatalogueScenario(s, mode) && |s.actions| <= budget && step < |s.actions|
    requires wrote ==> forall k :: step <= k < |s.actions| ==> !Gated(s.actions[k])
    requires !wrote ==> used == {}
    ensures Gradeable(s, mode, budget, step, used, wrote)
    decreases |s.actions| - step
  {
    var action := s.actions[step];
    if action.CallTool? {
      hide Succeeds, FixtureOutput;
      GradeableCall(s, mode, budget, step, used, wrote);
      assert step < |s.actions| - 1 && CatalogueCall(action);
      var next := used + (if action.key.Some? then {action.key.value} else {});
      if Gated(action) {
        CatalogueIsGradeable(s, mode, budget, step + 1, next, true);
      } else {
        CatalogueIsGradeable(s, mode, budget, step + 1, next, wrote);
      }
    }
  }

  /** The law the suite relies on: every such scenario is accepted, in both modes. */
  lemma CatalogueScenariosAreAccepted(s: Scenario, mode: Mode, job: D.Job, traceId: nat)
    requires CatalogueScenario(s, mode) && |s.actions| <= job.budget
    requires job.actions == s.actions && job.faults == s.faults
    ensures ClaimsOf(CaseReport(s, mode, job, traceId), FrozenOf(s)).Some?
  {
    CatalogueIsGradeable(s, mode, job.budget, 0, {}, false);
    AcceptedExactlyWhenGradeable(s, mode, job, traceId);
    hide CatalogueScenario, Gradeable, ClaimsOf;
  }
}
