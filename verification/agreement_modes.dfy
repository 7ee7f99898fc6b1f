/** Without a transient fault the gate sees the same case in both modes, as it demands. */
module AgreementModes {
  import opened Domain
  import opened Evidence
  import opened Gate
  import GO = GateOutputs
  import AC = AgreementCalls
  import AH = AgreementHead
  import A = Agreement
  import AgreementClaims
  import Rows
  import W = Gateway
  import D = Desktop
  import DM = DesktopModes

  lemma SameSuccess(faults: seq<FaultRule>, tool: Tool)
    requires DM.NoTransient(faults)
    ensures AC.Succeeds(faults, tool, Fragile) == AC.Succeeds(faults, tool, Resilient)
  {
    if FaultFor(faults, tool, 1).Some? {
      DM.FaultIsPlanned(faults, tool, 1);
    }
  }

  lemma {:induction false} SameGradeable(s: Scenario, budget: nat, step: nat, used: set<Key>, wrote: bool)
    requires DM.NoTransient(s.faults)
    ensures A.Gradeable(s, Fragile, budget, step, used, wrote) == A.Gradeable(s, Resilient, budget, step, used, wrote)
    decreases |s.actions| - step
  {
    hide AC.Succeeds, FixtureOutput, W.PreflightCode, W.Stabilise, DM.NoTransient;
    if step < budget && step < |s.actions| && s.actions[step].CallTool? {
      var action := s.actions[step];
      var next := used + (if action.key.Some? then {action.key.value} else {});
      A.GradeableCall(s, Fragile, budget, step, used, wrote);
      A.GradeableCall(s, Resilient, budget, step, used, wrote);
      SameSuccess(s.faults, action.tool);
      SameGradeable(s, budget, step + 1, next, true);
      SameGradeable(s, budget, step + 1, next, wrote);
    }
  }

  lemma SameFirstStop(s: Scenario, job: D.Job)
    requires job.faults == s.faults && DM.NoTransient(s.faults)
    ensures D.FirstStop(s, Resilient, job) == DM.InMode(D.FirstStop(s, Fragile, job), Resilient)
  {
    var begun := Rows.Fresh(NewRun(Fragile, s.context));
    assert Rows.Fresh(NewRun(Resilient, s.context)) == DM.InMode(begun, Resilient);
    hide D.ExecuteOwned, DM.NoTransient;
    DM.ExecuteInMode(job, begun, 0);
  }

  /** Both modes accepted: the claims are functions of the common trace and row. */
  lemma SameClaims(s: Scenario, job: D.Job, traceId: nat)
    requires job.actions == s.actions && job.faults == s.faults
    requires DM.NoTransient(s.faults)
    requires ClaimsOf(A.CaseReport(s, Fragile, job, traceId), AC.FrozenOf(s)).Some?
    requires ClaimsOf(A.CaseReport(s, Resilient, job, traceId), AC.FrozenOf(s)).Some?
    ensures ClaimsOf(A.CaseReport(s, Fragile, job, traceId), AC.FrozenOf(s))
            == ClaimsOf(A.CaseReport(s, Resilient, job, traceId), AC.FrozenOf(s))
  {
    DM.ModesAgreeUnlessRetried(s, job);
    SameFirstStop(s, job);
    var f, r := D.RunCase(s, Fragile, job), D.RunCase(s, Resilient, job);
    assert r.events == f.events && r.run.status == f.run.status && r.run.result == f.run.result;
    assert D.FirstStop(s, Resilient, job).run.status == D.FirstStop(s, Fragile, job).run.status;
    hide D.RunCase, D.FirstStop, ClaimsOf, AC.FrozenOf, DM.NoTransient, LogicalToolSequence, AttemptsComplete,
        AgreementClaims.AcceptedEvidence;
    AgreementClaims.ClaimsAreTheRunners(s, Fragile, job, traceId);
    AgreementClaims.ClaimsAreTheRunners(s, Resilient, job, traceId);
    AH.ItemsEvents(f.events, traceId);
    GO.AcceptedOutputsAreTheSuccesses(A.CaseReport(s, Fragile, job, traceId), AC.FrozenOf(s));
    GO.AcceptedOutputsAreTheSuccesses(A.CaseReport(s, Resilient, job, traceId), AC.FrozenOf(s));
  }

  /** If no transient fault is declared, the gate accepts both modes of a scenario or neither,
      with equal claims and equal write counters. */
  lemma ModesAreGradedAlike(s: Scenario, job: D.Job, traceId: nat)
    requires job.actions == s.actions && job.faults == s.faults && DM.NoTransient(s.faults)
    ensures ClaimsOf(A.CaseReport(s, Fragile, job, traceId), AC.FrozenOf(s))
            == ClaimsOf(A.CaseReport(s, Resilient, job, traceId), AC.FrozenOf(s))
    ensures var f, r := A.CaseReport(s, Fragile, job, traceId), A.CaseReport(s, Resilient, job, traceId);
            f.items == r.items && f.preWrites == r.preWrites && f.writes == r.writes
  {
    DM.ModesAgreeUnlessRetried(s, job);
    SameFirstStop(s, job);
    SameGradeable(s, job.budget, 0, {}, false);
    hide D.RunCase, D.FirstStop, ClaimsOf, AC.FrozenOf, DM.NoTransient, A.Gradeable, D.Writes, AH.Items;
    A.AcceptedExactlyWhenGradeable(s, Fragile, job, traceId);
    A.AcceptedExactlyWhenGradeable(s, Resilient, job, traceId);
    if ClaimsOf(A.CaseReport(s, Fragile, job, traceId), AC.FrozenOf(s)).Some? {
      SameClaims(s, job, traceId);
    }
  }
}
