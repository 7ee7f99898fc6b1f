/** The desktop and the mobile engine tell the same story of a comparable scenario, in both
    modes and under any answers to what they wait for, exactly unless they reach a call for
    which the mobile engine has one more attempt to spend, or whose key was used before, which
    only the desktop looks at. */
module Engines {
  import opened Domain
  import opened Evidence
  import opened Rows
  import opened EngineCalls
  import opened EnginesApart
  import W = Gateway
  import P = Protocol
  import D = Desktop
  import AC = AgreementCalls
  import M = Mobile
  import MS = MobileSafety
  import MT = MobileTrace
  import GO = GateOutputs
  import EO = EnginesOutputs

  // ---------------------------------------------------------------- comparable scenarios

  predicate Ends(action: Action) {
    action.Finish? || action.Fail?
  }

  /** Catalogue tools, known fault targets, and an end inside the limits. */
  predicate Comparable(s: Scenario, budget: nat) {
    && s.actions != [] && Ends(s.actions[|s.actions| - 1]) && |s.actions| <= budget && |s.actions| <= 100
    && W.PlanRegistered(s.faults)
    && (forall k :: 0 <= k < |s.actions| && s.actions[k].CallTool? ==> Registered(s.actions[k].tool))
  }

  /** The key under which the desktop calls the action of a step. */
  function KeyAt(s: Scenario, step: nat): Option<Key> {
    if step < |s.actions| && s.actions[step].CallTool? then W.Stabilise(step, s.actions[step]).key else None
  }

  predicate Older(s: Scenario, key: Key, step: nat) {
    exists j :: 0 <= j < step && KeyAt(s, j) == Some(key)
  }

  /** The call of the step is made under a key that an earlier call has used. */
  predicate Reused(s: Scenario, step: nat) {
    KeyAt(s, step).Some? && Older(s, KeyAt(s, step).value, step)
  }

  // ---------------------------------------------------------------- what is compared

  predicate SameResult(run: Run, other: M.Progress) {
    match run.status
    case Succeeded =>
      && run.result.Some? && run.result.value.Outcome? && other.result.Some?
      && other.result.value == M.Won(run.result.value.outcome, run.result.value.summary, run.result.value.refs)
    case Failed =>
      && run.result.Some? && run.result.value.Failure? && other.result.Some? && other.result.value.Lost?
      && other.result.value.code == run.result.value.code
    case WaitingApproval => other.step == run.step
    case _ => true
  }

  /** The same status, result and step to wait at, and the same attempts with the same closings. */
  predicate Alike(t: Tables, m: M.Record) {
    && t.run.status == m.run.status && SameResult(t.run, m.run)
    && AttemptEvidence(t.events) == MobileAttempts(m.trace)
  }

  /** And the same output delivered by every succeeded attempt. */
  predicate SameStory(t: Tables, m: M.Record) {
    Alike(t, m) && GO.SuccessEvidence(t.events) == EO.MobileOutputs(m.trace)
  }

  /** Both engines are about to begin the step, with nothing of it behind them. */
  ghost predicate Heads(s: Scenario, job: D.Job, t: Tables, m: M.Record) {
    && Comparable(s, job.budget) && job.actions == s.actions && job.faults == s.faults
    && t.run.status.Running? && t.run.pendingAction.None? && t.run.policyCalls == t.run.step && t.run.step < |s.actions|
    && AC.AllCompleted(t.claims) && (forall k :: k in t.claims <==> Older(s, k, t.run.step))
    && (forall k :: k in t.approvals ==> k < t.run.step)
    && MS.Safe(s, m) && !M.Stopped(m.run) && m.run.step == t.run.step && m.run.nextAttempt == 1
    && m.run.mode == t.run.mode
    && (forall k :: k in m.decisions ==> k < t.run.step)
    && AttemptEvidence(t.events) == MobileAttempts(m.trace)
  }

  /** Both engines wait for an answer about the same gated call. */
  ghost predicate Parked(s: Scenario, job: D.Job, t: Tables, m: M.Record) {
    && Comparable(s, job.budget) && job.actions == s.actions && job.faults == s.faults
    && t.run.step < |s.actions| && s.actions[t.run.step].CallTool?
    && var action := s.actions[t.run.step];
       var stable := W.Stabilise(t.run.step, action);
       && RequiresApproval(action.tool) && ValidInput(action.tool, action.args)
       && W.PreflightCode(s.faults, stable).None?
       && t.run.status.WaitingApproval? && t.run.pendingApproval && t.run.policyCalls == t.run.step + 1
       && t.run.pendingAction == Some(stable) && t.run.pendingDigest == Some(OfAction(stable))
       && AC.AllCompleted(t.claims) && (forall k :: k in t.claims <==> Older(s, k, t.run.step))
       && (forall k :: k in t.approvals ==> k < t.run.step)
       && MS.Safe(s, m) && m.run.status.WaitingApproval? && m.run.step == t.run.step && m.run.nextAttempt == 1
       && m.run.mode == t.run.mode
       && (forall k :: k in m.decisions ==> k < t.run.step)
       && m.run.pending == Some(M.Pending(t.run.step, OfAction(action), action.tool, action.args))
       && AttemptEvidence(t.events) == MobileAttempts(m.trace)
  }

  /** Where both engines have stopped. */
  ghost predicate Halted(s: Scenario, job: D.Job, t: Tables, m: M.Record) {
    Alike(t, m) && M.Stopped(m.run) && (t.run.status.WaitingApproval? ==> Parked(s, job, t, m))
  }

  // ---------------------------------------------------------------- the walk over the scenario

  /** How a run ends up: at its end, at a gated call that waits for an answer, or past a call that
      the mobile engine tried more often than the desktop. */
  datatype Stop = Over | Parks(step: nat) | Splits(at: nat)

  /** From the first attempt of the call of step `k`. */
  function AfterCall(s: Scenario, mode: Mode, k: nat): (stop: Stop)
    requires k < |s.actions| && s.actions[k].CallTool?
    ensures stop.Parks? ==> stop.step < |s.actions| && s.actions[stop.step].CallTool?
    decreases |s.actions| - k, 0
  {
    var tool := s.actions[k].tool;
    if Reused(s, k) || GivesUp(s.faults, mode, tool) then Splits(k)
    else if DesktopFault(s.faults, mode, tool).None? then Walk(s, mode, k + 1)
    else Over
  }

  /** From the head of step `k`. */
  function Walk(s: Scenario, mode: Mode, k: nat): (stop: Stop)
    ensures stop.Parks? ==> stop.step < |s.actions| && s.actions[stop.step].CallTool?
    decreases |s.actions| - k, 1
  {
    if k >= |s.actions| || !s.actions[k].CallTool? || !ValidInput(s.actions[k].tool, s.actions[k].args) then Over
    else if RequiresApproval(s.actions[k].tool) then Parks(k)
    else AfterCall(s, mode, k)
  }

  /** Where the run has stopped after the given answers, read off the scenario and its faults. */
  function StopAfter(s: Scenario, mode: Mode, answers: seq<D.Answer>): (stop: Stop)
    ensures stop.Parks? ==> stop.step < |s.actions| && s.actions[stop.step].CallTool?
  {
    if answers == [] then Walk(s, mode, 0)
    else Onward(s, mode, StopAfter(s, mode, answers[..|answers| - 1]), answers[|answers| - 1])
  }

  function Onward(s: Scenario, mode: Mode, stop: Stop, answer: D.Answer): (next: Stop)
    requires stop.Parks? ==> stop.step < |s.actions| && s.actions[stop.step].CallTool?
    ensures next.Parks? ==> next.step < |s.actions| && s.actions[next.step].CallTool?
  {
    if !stop.Parks? then stop
    else if answer.allow then AfterCall(s, mode, stop.step)
    else Over
  }

  /** The engines have parted at a step: the mobile engine made more attempts of it than the
      desktop, which has left it behind. */
  predicate Parted(t: Tables, m: M.Record, k: nat) {
    Ahead(t, k) && DesktopAt(t, k) < MobileAt(m, k)
  }

  /** What the walk says of where both engines are. */
  ghost predicate Matches(s: Scenario, job: D.Job, stop: Stop, t: Tables, m: M.Record) {
    match stop
    case Over => Halted(s, job, t, m) && Terminal(t.run.status)
    case Parks(k) => Halted(s, job, t, m) && t.run.status.WaitingApproval? && t.run.step == k
    case Splits(k) => Parted(t, m, k)
  }

  // ---------------------------------------------------------------- ends

  lemma AnnounceEvidence(t: Tables, action: Action)
    ensures var t1 := Append(D.Reserve(t), Note(0, Fine, PolicyAction(t.run.step, action)));
            && AttemptEvidence(t1.events) == AttemptEvidence(t.events) && t1.claims == t.claims
            && t1.approvals == t.approvals
            && t1.run == t.run.(policyCalls := D.Used(t.run) + 1, version := t.run.version + 1)
  {
    hide AttemptEvidence;
    AppendEvidence(D.Reserve(t), Note(0, Fine, PolicyAction(t.run.step, action)));
  }

  /** Engines that both stop with their next step have stopped for good. */
  lemma {:induction false} StopsHere(s: Scenario, job: D.Job, t: Tables, m: M.Record)
    requires t.run.status.Running? && !D.Pass(job, t).run.status.Running?
    requires MS.Safe(s, m) && !M.Stopped(m.run) && M.Transaction(s, m).Some? && M.Stopped(M.Transaction(s, m).value.run)
    ensures D.Loop(job, t) == D.Pass(job, t) && Settle(s, m) == M.Transaction(s, m).value
  {
    hide D.Pass, M.Transaction, MS.Safe, MS.Measure;
    var u := D.Pass(job, t);
    assert D.Loop(job, u) == u;
    MS.TransactionSafe(s, m);
    assert Settle(s, M.Transaction(s, m).value) == M.Transaction(s, m).value;
  }

  lemma FinishAlike(s: Scenario, job: D.Job, t: Tables, m: M.Record, action: Action)
    requires Heads(s, job, t, m) && action == s.actions[t.run.step] && action.Finish?
    ensures M.Transaction(s, m).Some? && Alike(D.Pass(job, t), M.Transaction(s, m).value)
    ensures D.Pass(job, t).run.status.Succeeded?
  {
    hide MS.Safe, AttemptEvidence, MobileAttempts, Older, M.Tell, M.Begin, M.Announce, Append, D.Reserve,
        AC.AllCompleted;
    AnnounceEvidence(t, action);
    PrologueAttempts(s, m);
    var t1 := Append(D.Reserve(t), Note(0, Fine, PolicyAction(t.run.step, action)));
    var announced := M.Announce(M.Begin(m), action);
    var result := Outcome(action.outcome, action.summary, action.refs);
    SaveEvidence(t1, t1.run.(status := Status.Succeeded, step := t1.run.step + 1, pendingAction := None,
        pendingDigest := None, result := Some(result)),
                 Note(0, Fine, RunSucceeded(result)));
    TellAttempts(announced.(run := announced.run.(status := Status.Succeeded,
        result := Some(M.Won(action.outcome, action.summary, action.refs)))),
                 M.Closed(M.Won(action.outcome, action.summary, action.refs)));
  }

  lemma FailAlike(s: Scenario, job: D.Job, t: Tables, m: M.Record, action: Action)
    requires Heads(s, job, t, m) && action == s.actions[t.run.step] && action.Fail?
    ensures M.Transaction(s, m).Some? && Alike(D.Pass(job, t), M.Transaction(s, m).value)
    ensures D.Pass(job, t).run.status.Failed?
  {
    AnnounceEvidence(t, action);
    PrologueAttempts(s, m);
    hide MS.Safe, AttemptEvidence, MobileAttempts, Older, M.Break, M.Begin, M.Announce, Append, D.Reserve,
        AC.AllCompleted;
    var t1 := Append(D.Reserve(t), Note(0, Fine, PolicyAction(t.run.step, action)));
    SaveEvidence(t1, P.Ended(t1.run, action.code, Explained(action.explanation), true),
                 Note(0, Error, RunFailed(Failure(action.code, Explained(action.explanation)))));
    BreakAttempts(M.Announce(M.Begin(m), action), action.code, None);
  }

  lemma {:induction false} HaltedHere(s: Scenario, job: D.Job, t: Tables, m: M.Record)
    requires t.run.status.Running? && MS.Safe(s, m) && !M.Stopped(m.run) && M.Transaction(s, m).Some?
    requires Alike(D.Pass(job, t), M.Transaction(s, m).value) && Terminal(D.Pass(job, t).run.status)
    ensures Matches(s, job, Over, D.Loop(job, t), Settle(s, m))
  {
    hide D.Pass, M.Transaction, MS.Safe;
    StopsHere(s, job, t, m);
  }

  lemma {:induction false} EndsAlike(s: Scenario, job: D.Job, t: Tables, m: M.Record)
    requires Heads(s, job, t, m) && Ends(s.actions[t.run.step])
    ensures Matches(s, job, Over, D.Loop(job, t), Settle(s, m))
  {
    hide MS.Safe, Alike, Comparable, D.Pass, M.Transaction, D.Loop, Settle, Matches;
    var action := s.actions[t.run.step];
    if action.Finish? {
      FinishAlike(s, job, t, m, action);
    } else {
      FailAlike(s, job, t, m, action);
    }
    HaltedHere(s, job, t, m);
  }

  // ---------------------------------------------------------------- calls

  /** The desktop has announced the call of the loop head. */
  lemma CallBegun(s: Scenario, job: D.Job, t: Tables, m: M.Record, action: Action) returns (t1: Tables)
    requires Heads(s, job, t, m) && action == s.actions[t.run.step] && action.CallTool?
    ensures t1.run.status.Running? && t1.run.step == t.run.step && t1.run.mode == t.run.mode
    ensures t1.run.policyCalls == t.run.step + 1
    ensures t1.run.pendingAction.None? && t1.claims == t.claims && t1.approvals == t.approvals
    ensures AttemptEvidence(t1.events) == AttemptEvidence(t.events)
    ensures D.Pass(job, t) == D.CarryCall(job, t1, W.Stabilise(t.run.step, action))
  {
    t1 := Append(D.Reserve(t), Note(0, Fine, PolicyAction(t.run.step, action)));
    AnnounceEvidence(t, action);
    hide MS.Safe, AttemptEvidence, MobileAttempts, Older, D.CarryCall, W.Stabilise, Append, D.Reserve;
  }

  /** Input that the tool's model rejects fails both engines before any attempt. */
  lemma {:induction false} RejectedAlike(s: Scenario, job: D.Job, t: Tables, m: M.Record, action: Action)
    requires Heads(s, job, t, m) && action == s.actions[t.run.step] && action.CallTool?
    requires !ValidInput(action.tool, action.args)
    ensures Matches(s, job, Over, D.Loop(job, t), Settle(s, m))
  {
    hide *;
    HeadsView(s, job, t, m);
    var t1 := CallBegun(s, job, t, m, action);
    RejectedDesktop(s, job, t, t1, action);
    RejectedMobile(s, m, action);
    MS.TransactionSafe(s, m);
    RejectedEnds(D.Pass(job, t), M.Transaction(s, m).value);
    HaltedHere(s, job, t, m);
  }

  lemma RejectedEnds(u: Tables, m: M.Record)
    requires u.run.status.Failed? && u.run.result == Some(Failure(InvalidInput, Bare))
    requires m.run.status.Failed? && m.run.result == Some(M.Lost(InvalidInput, None))
    requires AttemptEvidence(u.events) == MobileAttempts(m.trace)
    ensures Alike(u, m) && Terminal(u.run.status)
  {
  }

  lemma RejectedDesktop(s: Scenario, job: D.Job, t: Tables, t1: Tables, action: Action)
    requires Comparable(s, job.budget) && job.faults == s.faults && t.run.step < |s.actions|
    requires action == s.actions[t.run.step]
    requires action.CallTool? && !ValidInput(action.tool, action.args) && t.run.status.Running?
    requires t1.run.status.Running?
    requires D.Pass(job, t) == D.CarryCall(job, t1, W.Stabilise(t.run.step, action))
    ensures var u := D.Pass(job, t);
            && u.run.status.Failed? && u.run.result == Some(Failure(InvalidInput, Bare))
            && AttemptEvidence(u.events) == AttemptEvidence(t1.events)
  {
    var stable := W.Stabilise(t.run.step, action);
    assert W.PreflightCode(job.faults, stable) == Some(InvalidInput);
    hide AttemptEvidence, Comparable, W.PreflightCode, W.Stabilise, ValidInput, D.Pass, D.Perform, Append;
    var note := Note(0, Error, PreflightFailed(t1.run.step, stable.tool, OfAction(stable), InvalidInput));
    AppendEvidence(t1, note);
    var t2 := Append(t1, note);
    SaveEvidence(t2, P.Ended(t2.run, InvalidInput, Bare, false),
        Note(0, Error, RunFailed(Failure(InvalidInput, Bare))));
  }

  lemma RejectedMobile(s: Scenario, m: M.Record, action: Action)
    requires !M.Stopped(m.run) && m.run.step < |s.actions| && action == s.actions[m.run.step] && action.CallTool?
    requires !ValidInput(action.tool, action.args)
    ensures M.Transaction(s, m).Some?
    ensures var m' := M.Transaction(s, m).value;
            && m'.run.status.Failed? && m'.run.result == Some(M.Lost(InvalidInput, None))
            && MobileAttempts(m'.trace) == MobileAttempts(m.trace)
  {
    PrologueAttempts(s, m);
    hide MobileAttempts, M.Tell, M.Begin, M.Announce, M.Break, ValidInput;
    var announced := M.Announce(M.Begin(m), action);
    TellAttempts(announced, M.PreflightRejected(m.run.step, action.tool));
    BreakAttempts(M.Tell(announced, M.PreflightRejected(m.run.step, action.tool)), InvalidInput, None);
  }

  /** Both engines are about to make the first attempt of the call of their step. */
  ghost predicate Poised(s: Scenario, job: D.Job, e: Tables, e1: Tables, m: M.Record, action: Action) {
    var step := m.run.step;
    && Comparable(s, job.budget) && job.actions == s.actions && job.faults == s.faults
    && step < |s.actions| && action == s.actions[step] && action.CallTool?
    && e.run.status.Running? && e1.run.status.Running? && e1.run.step == step && e1.run.mode == m.run.mode
    && e1.run.policyCalls == step + 1
    && D.Pass(job, e) == D.Perform(job, e1, W.Stabilise(step, action))
    && Ready(job, e1, W.Stabilise(step, action))
    && (forall k :: k in e1.claims <==> Older(s, k, step)) && (forall k :: k in e1.approvals ==> k <= step)
    && MS.Safe(s, m) && Trying(s, m, action, 1) && (forall k :: k in m.decisions ==> k <= step)
    && AttemptEvidence(e1.events) == MobileAttempts(m.trace)
  }

  lemma PoisedView(s: Scenario, job: D.Job, e: Tables, e1: Tables, m: M.Record, action: Action)
    requires Poised(s, job, e, e1, m, action)
    ensures action.CallTool? && e.run.status.Running? && e1.run.status.Running? && Comparable(s, job.budget)
    ensures job.actions == s.actions && job.faults == s.faults && m.run.step < |s.actions|
    ensures action == s.actions[m.run.step]
    ensures e1.run.step == m.run.step && e1.run.mode == m.run.mode && e1.run.policyCalls == m.run.step + 1
    ensures var stable := W.Stabilise(m.run.step, action);
            stable.tool == action.tool && Ready(job, e1, stable) && D.Pass(job, e) == D.Perform(job, e1, stable)
    ensures forall k :: k in e1.claims <==> Older(s, k, m.run.step)
    ensures forall k :: k in e1.approvals ==> k <= m.run.step
    ensures MS.Safe(s, m) && Trying(s, m, action, 1) && (forall k :: k in m.decisions ==> k <= m.run.step)
    ensures AttemptEvidence(e1.events) == MobileAttempts(m.trace)
  {
    hide MS.Safe, AttemptEvidence, MobileAttempts, Trying, Ready, D.Pass, D.Perform, Older;
  }

  /** The call of a step: both engines go on to the next one, both fail, or they part. */
  lemma Performed(s: Scenario, job: D.Job, e: Tables, e1: Tables, m: M.Record, action: Action) returns (m': M.Record)
    requires Poised(s, job, e, e1, m, action)
    ensures MS.Safe(s, m') && Settle(s, m) == Settle(s, m')
    ensures if Reused(s, m.run.step) || GivesUp(s.faults, m.run.mode, action.tool)
            then Parted(D.Loop(job, e), Settle(s, m), m.run.step)
            else if DesktopFault(s.faults, m.run.mode, action.tool).None?
            then D.Pass(job, e).run.status.Running? && Heads(s, job, D.Pass(job, e), m')
                 && m'.run.step == m.run.step + 1 && m'.run.mode == m.run.mode
            else Matches(s, job, Over, D.Loop(job, e), Settle(s, m))
  {
    hide *;
    PoisedView(s, job, e, e1, m, action);
    m' := MobilePerforms(s, m, action, 1);
    ReusedIsUsed(s, e1, m.run.step, action);
    if Reused(s, m.run.step) {
      UsedKeyPerforms(job, e1, W.Stabilise(m.run.step, action));
      ReusedParts(s, job, e, e1, m, m', action);
    } else {
      DesktopPerforms(job, e1, W.Stabilise(m.run.step, action));
      CallsAgreeUnlessGivenUp(s.faults, m.run.mode, m.run.step, action.tool);
      if GivesUp(s.faults, m.run.mode, action.tool) {
        GivenUpParts(s, job, e, e1, m, m', action);
      } else if DesktopFault(s.faults, m.run.mode, action.tool).None? {
        NextHeads(s, job, e1, D.Pass(job, e), m, m', action);
      } else {
        FailedHalts(s, job, e, m, m', FaultCode(DesktopFault(s.faults, m.run.mode, action.tool).value));
      }
    }
  }

  lemma ReusedIsUsed(s: Scenario, e1: Tables, step: nat, action: Action)
    requires step < |s.actions| && action == s.actions[step] && action.CallTool?
    requires forall k :: k in e1.claims <==> Older(s, k, step)
    ensures AC.Unused(e1, W.Stabilise(step, action)) <==> !Reused(s, step)
  {
    hide Older, W.Stabilise;
  }

  lemma {:induction false} LoopPasses(job: D.Job, e: Tables)
    requires e.run.status.Running?
    ensures D.Loop(job, e) == D.Loop(job, D.Pass(job, e))
  {
    hide D.Pass;
  }

  /** Under a used key the desktop makes no attempt of the step, and the mobile engine at least one. */
  lemma {:induction false} ReusedParts(s: Scenario, job: D.Job, e: Tables, e1: Tables, m: M.Record, m': M.Record,
      action: Action)
    requires e.run.status.Running? && action.CallTool? && Ahead(D.Pass(job, e), m.run.step)
    requires AttemptEvidence(D.Pass(job, e).events) == AttemptEvidence(e1.events) == MobileAttempts(m.trace)
    requires MS.Safe(s, m) && MS.Safe(s, m') && Settle(s, m) == Settle(s, m')
    requires MobileAttempts(m'.trace)
             == MobileAttempts(m.trace) + CallAttempts(s.faults, m.run.step, action.tool, 1, MobileLimit(m.run.mode))
    ensures Parted(D.Loop(job, e), Settle(s, m), m.run.step)
  {
    hide D.Pass, D.Loop, MS.Safe, Settle, AttemptEvidence, MobileAttempts, CallAttempts, AttemptsAt;
    LoopPasses(job, e);
    LoopElsewhere(job, D.Pass(job, e), m.run.step);
    CallCounts(MobileAttempts(m.trace), s.faults, m.run.step, action.tool, MobileLimit(m.run.mode), m.run.step);
    SettleAttempts(s, m', m.run.step);
  }

  lemma {:induction false} GivenUpParts(s: Scenario, job: D.Job, e: Tables, e1: Tables, m: M.Record, m': M.Record,
      action: Action)
    requires e.run.status.Running? && action.CallTool? && D.Pass(job, e).run.status.Failed?
    requires AttemptEvidence(D.Pass(job, e).events)
             == AttemptEvidence(e1.events) + CallAttempts(s.faults, m.run.step, action.tool, 1, W.Limit(m.run.mode))
    requires AttemptEvidence(e1.events) == MobileAttempts(m.trace)
    requires |CallAttempts(s.faults, m.run.step, action.tool, 1, W.Limit(m.run.mode))| == 2
    requires |CallAttempts(s.faults, m.run.step, action.tool, 1, MobileLimit(m.run.mode))| == 3
    requires MS.Safe(s, m) && MS.Safe(s, m') && Settle(s, m) == Settle(s, m')
    requires MobileAttempts(m'.trace)
             == MobileAttempts(m.trace) + CallAttempts(s.faults, m.run.step, action.tool, 1, MobileLimit(m.run.mode))
    ensures Parted(D.Loop(job, e), Settle(s, m), m.run.step)
  {
    hide D.Pass, D.Loop, MS.Safe, Settle, AttemptEvidence, MobileAttempts, CallAttempts, AttemptsAt;
    var step := m.run.step;
    LoopPasses(job, e);
    LoopElsewhere(job, D.Pass(job, e), step);
    CallCounts(AttemptEvidence(e1.events), s.faults, step, action.tool, W.Limit(m.run.mode), step);
    CallCounts(MobileAttempts(m.trace), s.faults, step, action.tool, MobileLimit(m.run.mode), step);
    SettleAttempts(s, m', step);
  }

  lemma {:induction false} FailedHalts(s: Scenario, job: D.Job, e: Tables, m: M.Record, m': M.Record, code: Code)
    requires e.run.status.Running? && D.Pass(job, e).run.status.Failed?
    requires D.Pass(job, e).run.result == Some(Failure(code, Bare))
    requires MS.Safe(s, m) && MS.Safe(s, m') && Settle(s, m) == Settle(s, m') && m'.run.status.Failed?
    requires m'.run.result == Some(M.Lost(code, None))
    requires AttemptEvidence(D.Pass(job, e).events) == MobileAttempts(m'.trace)
    ensures Matches(s, job, Over, D.Loop(job, e), Settle(s, m))
  {
    hide D.Pass, MS.Safe, AttemptEvidence, MobileAttempts;
    StoppedTables(job, e);
    StoppedRecord(s, m');
  }

  // ---------------------------------------------------------------- stopping

  lemma {:induction false} StoppedTables(job: D.Job, e: Tables)
    requires e.run.status.Running? && !D.Pass(job, e).run.status.Running?
    ensures D.Loop(job, e) == D.Pass(job, e)
  {
    hide D.Pass;
    assert D.Loop(job, D.Pass(job, e)) == D.Pass(job, e);
  }

  lemma {:induction false} StoppedRecord(s: Scenario, m: M.Record)
    requires MS.Safe(s, m) && M.Stopped(m.run)
    ensures Settle(s, m) == m
  {
  }

  lemma NextHeads(s: Scenario, job: D.Job, e1: Tables, u: Tables, m: M.Record, m': M.Record, action: Action)
    requires Comparable(s, job.budget) && job.actions == s.actions && job.faults == s.faults
    requires m.run.step < |s.actions| && action == s.actions[m.run.step] && action.CallTool?
    requires e1.run.step == m.run.step
    requires u.run.status.Running? && u.run.step == m.run.step + 1 && u.run.pendingAction.None?
    requires u.run.policyCalls == u.run.step
    requires AC.AllCompleted(u.claims) && u.approvals == e1.approvals && u.run.mode == m'.run.mode
    requires var key := W.Stabilise(m.run.step, action).key;
             u.claims.Keys == e1.claims.Keys + (if key.Some? then {key.value} else {})
    requires forall k :: k in e1.claims <==> Older(s, k, m.run.step)
    requires forall k :: k in e1.approvals ==> k <= m.run.step
    requires MS.Safe(s, m') && m'.run.status.Running? && m'.run.step == m.run.step + 1 && m'.run.nextAttempt == 1
    requires forall k :: k in m'.decisions ==> k <= m.run.step
    requires AttemptEvidence(u.events) == MobileAttempts(m'.trace)
    ensures Heads(s, job, u, m')
  {
    hide MS.Safe, AttemptEvidence, MobileAttempts, AC.AllCompleted, W.Stabilise;
    assert Ends(s.actions[|s.actions| - 1]);
    forall k: Key
      ensures k in u.claims <==> Older(s, k, m.run.step + 1)
    {
      assert k in e1.claims <==> Older(s, k, m.run.step);
      assert KeyAt(s, m.run.step) == W.Stabilise(m.run.step, action).key;
      if Older(s, k, m.run.step) {
        var j :| 0 <= j < m.run.step && KeyAt(s, j) == Some(k);
      }
      if KeyAt(s, m.run.step) == Some(k) {
        assert Older(s, k, m.run.step + 1);
      }
    }
  }

  lemma PlainPoised(s: Scenario, job: D.Job, t: Tables, m: M.Record, action: Action) returns (t1: Tables)
    requires Heads(s, job, t, m) && action == s.actions[t.run.step] && action.CallTool?
    requires ValidInput(action.tool, action.args) && !RequiresApproval(action.tool)
    ensures Poised(s, job, t, t1, m, action)
  {
    hide *;
    HeadsView(s, job, t, m);
    t1 := CallBegun(s, job, t, m, action);
    PlainReady(s, job, t, t1, m, action);
    PoisedHolds(s, job, t, t1, m, action);
  }

  lemma HeadsView(s: Scenario, job: D.Job, t: Tables, m: M.Record)
    requires Heads(s, job, t, m)
    ensures Comparable(s, job.budget) && job.actions == s.actions && job.faults == s.faults
    ensures t.run.status.Running? && t.run.step == m.run.step < |s.actions| && m.run.mode == t.run.mode
    ensures AC.AllCompleted(t.claims)
    ensures forall k :: k in t.claims <==> Older(s, k, t.run.step)
    ensures forall k :: k in t.approvals ==> k < t.run.step
    ensures MS.Safe(s, m) && !M.Stopped(m.run) && m.run.nextAttempt == 1
    ensures forall k :: k in m.decisions ==> k < t.run.step
    ensures AttemptEvidence(t.events) == MobileAttempts(m.trace)
  {
    hide MS.Safe, AttemptEvidence, MobileAttempts, Comparable, Older, AC.AllCompleted;
  }

  lemma PlainReady(s: Scenario, job: D.Job, t: Tables, t1: Tables, m: M.Record, action: Action)
    requires Comparable(s, job.budget) && job.faults == s.faults && t.run.step == m.run.step < |s.actions|
    requires action == s.actions[t.run.step] && action.CallTool? && ValidInput(action.tool, action.args)
    requires !RequiresApproval(action.tool)
    requires t1.run.status.Running? && t1.run.step == t.run.step && t1.claims == t.claims && AC.AllCompleted(t.claims)
    requires !M.Stopped(m.run) && m.run.nextAttempt == 1
    requires t.run.status.Running? && D.Pass(job, t) == D.CarryCall(job, t1, W.Stabilise(t.run.step, action))
    ensures Ready(job, t1, W.Stabilise(t.run.step, action)) && Trying(s, m, action, 1)
    ensures D.Pass(job, t) == D.Perform(job, t1, W.Stabilise(t.run.step, action))
  {
    assert W.PreflightCode(job.faults, W.Stabilise(t.run.step, action)).None?;
    hide Comparable, D.Pass, D.Perform, Older, AC.AllCompleted, W.PreflightCode;
  }

  // ---------------------------------------------------------------- pauses

  lemma PauseSame(t: Tables, action: Action)
    requires action.CallTool?
    ensures var u := D.Pause(t, action);
            && AttemptEvidence(u.events) == AttemptEvidence(t.events) && u.claims == t.claims
            && u.approvals == t.approvals
            && u.run == t.run.(status := Status.WaitingApproval, pendingApproval := true, pendingAction := Some(action),
                               pendingDigest := Some(OfAction(action)), version := t.run.version + 1)
  {
    var run := t.run.(status := Status.WaitingApproval, pendingApproval := true, pendingAction := Some(action),
        pendingDigest := Some(OfAction(action)));
    var note := Note(0, Fine, WaitingFor(t.run.step, action.tool, OfAction(action)));
    SaveEvidence(t, run, note);
    AppendOne(t.(run := run.(version := t.run.version + 1)), note);
  }

  lemma MobilePauses(s: Scenario, m: M.Record, action: Action)
    requires MS.Safe(s, m) && !M.Stopped(m.run) && m.run.step < |s.actions| && s.actions[m.run.step] == action
    requires action.CallTool?
    requires ValidInput(action.tool, action.args) && RequiresApproval(action.tool) && m.run.step !in m.decisions
    ensures M.Transaction(s, m).Some?
    ensures var m' := M.Transaction(s, m).value;
            && MS.Safe(s, m') && MobileAttempts(m'.trace) == MobileAttempts(m.trace) && m'.decisions == m.decisions
            && m'.run == m.run.(status := Status.WaitingApproval, announced := m.run.step,
                                pending := Some(M.Pending(m.run.step, OfAction(action), action.tool, action.args)))
  {
    MS.TransactionSafe(s, m);
    PrologueAttempts(s, m);
    hide MS.Safe, MobileAttempts, M.Tell, M.Begin, M.Announce;
    var announced := M.Announce(M.Begin(m), action);
    TellAttempts(announced.(run := announced.run.(status := Status.WaitingApproval,
                   pending := Some(M.Pending(m.run.step, OfAction(action), action.tool, action.args)))),
                       M.Awaiting(m.run.step, action.tool));
  }

  lemma GatedPauses(s: Scenario, job: D.Job, t: Tables, t1: Tables, action: Action)
    requires Comparable(s, job.budget) && job.faults == s.faults && t.run.step < |s.actions|
    requires action == s.actions[t.run.step]
    requires action.CallTool? && ValidInput(action.tool, action.args) && RequiresApproval(action.tool)
    requires t.run.status.Running? && t1.run.status.Running? && t1.run.step == t.run.step && t.run.step !in t1.approvals
    requires D.Pass(job, t) == D.CarryCall(job, t1, W.Stabilise(t.run.step, action))
    ensures var stable := W.Stabilise(t.run.step, action);
            W.PreflightCode(s.faults, stable).None? && D.Pass(job, t) == D.Pause(t1, stable)
                && !D.Pass(job, t).run.status.Running?
  {
    assert W.PreflightCode(s.faults, W.Stabilise(t.run.step, action)).None?;
    hide D.Pass, D.Perform, W.PreflightCode, Comparable, ValidInput, D.Save;
  }

  /** Both engines have paused: the desktop from the announced tables, the mobile engine from its record. */
  lemma PausesPark(s: Scenario, job: D.Job, t1: Tables, u: Tables, m: M.Record, m': M.Record, action: Action)
    requires Comparable(s, job.budget) && job.actions == s.actions && job.faults == s.faults
    requires t1.run.step < |s.actions| && action == s.actions[t1.run.step] && action.CallTool?
    requires ValidInput(action.tool, action.args) && RequiresApproval(action.tool)
    requires var stable := W.Stabilise(t1.run.step, action);
             && W.PreflightCode(s.faults, stable).None?
             && u.run == t1.run.(status := Status.WaitingApproval, pendingApproval := true,
                 pendingAction := Some(stable),
                                 pendingDigest := Some(OfAction(stable)), version := t1.run.version + 1)
    requires t1.run.policyCalls == t1.run.step + 1
    requires AC.AllCompleted(u.claims)
    requires forall k :: k in u.claims <==> Older(s, k, t1.run.step)
    requires forall k :: k in u.approvals ==> k < t1.run.step
    requires MS.Safe(s, m') && m.run.step == t1.run.step && m.run.nextAttempt == 1 && m.run.mode == t1.run.mode
    requires m'.run == m.run.(status := Status.WaitingApproval, announced := m.run.step,
                              pending := Some(M.Pending(m.run.step, OfAction(action), action.tool, action.args)))
    requires forall k :: k in m'.decisions ==> k < m.run.step
    requires AttemptEvidence(u.events) == MobileAttempts(m'.trace)
    ensures Matches(s, job, Parks(t1.run.step), u, m')
  {
    hide MS.Safe, AttemptEvidence, MobileAttempts, Older, Comparable, W.PreflightCode, W.Stabilise, AC.AllCompleted,
        ValidInput;
  }

  lemma {:induction false} GatedParks(s: Scenario, job: D.Job, t: Tables, m: M.Record, action: Action)
    requires Heads(s, job, t, m) && action == s.actions[t.run.step] && action.CallTool?
    requires ValidInput(action.tool, action.args) && RequiresApproval(action.tool)
    ensures Matches(s, job, Parks(t.run.step), D.Loop(job, t), Settle(s, m))
  {
    hide *;
    HeadsView(s, job, t, m);
    var stable := W.Stabilise(t.run.step, action);
    var t1 := CallBegun(s, job, t, m, action);
    GatedPauses(s, job, t, t1, action);
    PauseSame(t1, stable);
    MobilePauses(s, m, action);
    WaitingStops(M.Transaction(s, m).value);
    StopsHere(s, job, t, m);
    PausesPark(s, job, t1, D.Pass(job, t), m, M.Transaction(s, m).value, action);
  }

  lemma WaitingStops(m: M.Record)
    ensures m.run.status.WaitingApproval? ==> M.Stopped(m.run)
  {
  }

  // ---------------------------------------------------------------- lockstep

  /** From aligned loop heads, both engines end up where the walk says. */
  lemma {:induction false} Lockstep(s: Scenario, job: D.Job, t: Tables, m: M.Record)
    requires Heads(s, job, t, m)
    ensures Matches(s, job, Walk(s, m.run.mode, m.run.step), D.Loop(job, t), Settle(s, m))
    decreases |s.actions| - t.run.step
  {
    var action := s.actions[t.run.step];
    hide MS.Safe, AttemptEvidence, MobileAttempts, Older, Comparable, D.Pass, Settle, Matches, AC.AllCompleted,
        AfterCall;
    if Ends(action) {
      EndsAlike(s, job, t, m);
    } else if !ValidInput(action.tool, action.args) {
      RejectedAlike(s, job, t, m, action);
    } else if RequiresApproval(action.tool) {
      GatedParks(s, job, t, m, action);
    } else {
      var t1 := PlainPoised(s, job, t, m, action);
      PerformedOn(s, job, t, t1, m, action);
    }
  }

  lemma {:induction false} PerformedOn(s: Scenario, job: D.Job, e: Tables, e1: Tables, m: M.Record, action: Action)
    requires Poised(s, job, e, e1, m, action)
    ensures m.run.step < |s.actions| && s.actions[m.run.step] == action && action.CallTool?
    ensures Matches(s, job, AfterCall(s, m.run.mode, m.run.step), D.Loop(job, e), Settle(s, m))
    decreases |s.actions| - m.run.step, 0
  {
    var m' := Performed(s, job, e, e1, m, action);
    assert m.run.step < |s.actions| && action == s.actions[m.run.step] && action.CallTool? && e.run.status.Running?;
    hide Poised, Halted, Settle, D.Pass, MS.Safe, GivesUp, DesktopFault, Walk, Parted, Reused;
    if !Reused(s, m.run.step) && !GivesUp(s.faults, m.run.mode, action.tool)
        && DesktopFault(s.faults, m.run.mode, action.tool).None? {
      HeadsStep(s, job, D.Pass(job, e), m');
      assert D.Loop(job, e) == D.Loop(job, D.Pass(job, e));
      hide Heads, D.Loop, Matches;
      Lockstep(s, job, D.Pass(job, e), m');
    }
  }

  lemma HeadsStep(s: Scenario, job: D.Job, t: Tables, m: M.Record)
    requires Heads(s, job, t, m)
    ensures t.run.step == m.run.step < |s.actions|
  {
    hide MS.Safe, AttemptEvidence, MobileAttempts, Older, Comparable, AC.AllCompleted;
  }

  // ---------------------------------------------------------------- answers

  predicate ValidAnswer(answer: D.Answer) {
    1 <= |answer.actor| <= 128 && (answer.reason.Some? ==> |answer.reason.value| <= 500)
  }

  /** The mobile decision that carries the answer to what the record waits for. */
  function DecisionOf(m: M.Record, answer: D.Answer): M.Decision {
    M.Decision(answer.actor, answer.allow, m.run.step, if m.run.pending.Some? then m.run.pending.value.digest
        else OtherDigest(""), answer.reason)
  }

  /** `_approve` on a waiting record, until the run stops again. */
  ghost function MobileApprove(s: Scenario, m: M.Record, answer: D.Answer): (m': M.Record)
    requires MS.Safe(s, m)
    ensures MS.Safe(s, m')
  {
    if !m.run.status.WaitingApproval? then m
    else
      match M.Decide(m, DecisionOf(m, answer))
      case Err(_) => m
      case Ok(decided) =>
        MS.DecideSafe(s, m, DecisionOf(m, answer), decided);
        SettleSafe(s, decided);
        Settle(s, decided)
  }

  lemma {:induction false} SettleSafe(s: Scenario, m: M.Record)
    requires MS.Safe(s, m)
    ensures MS.Safe(s, Settle(s, m))
    decreases MS.Measure(s, m)
  {
    hide MS.Safe, M.Transaction, MS.Measure;
    if !M.Stopped(m.run) {
      MS.TransactionSafe(s, m);
      SettleSafe(s, M.Transaction(s, m).value);
    }
  }

  /** A denial fails both engines with the same code and no further attempt. */
  lemma DeniedAlike(s: Scenario, job: D.Job, t: Tables, m: M.Record, answer: D.Answer, token: Token)
    requires Parked(s, job, t, m) && ValidAnswer(answer) && !answer.allow
    ensures MS.Safe(s, m) && Matches(s, job, Over, D.Approve(job, t, answer, token), MobileApprove(s, m, answer))
  {
    hide *;
    ParkedView(s, job, t, m);
    var d := DecisionOf(m, answer);
    GrantDecision(s, m, answer);
    DenialTables(job, t, answer, token);
    DenialRecord(s, m, d);
    var decided := M.Decide(m, d).value;
    MS.DecideSafe(s, m, d, decided);
    DeniedHalts(s, job, m, d, decided, D.Approve(job, t, answer, token), answer);
  }

  lemma DeniedHalts(s: Scenario, job: D.Job, m: M.Record, d: M.Decision, decided: M.Record, u: Tables, answer: D.Answer)
    requires MS.Safe(s, m) && MS.Safe(s, decided) && d == DecisionOf(m, answer) && M.Decide(m, d) == Ok(decided)
    requires m.run.status.WaitingApproval?
    requires u.run.status.Failed? && u.run.result == Some(Failure(ApprovalDeniedCode, Reasoned(answer.reason)))
    requires decided.run.status.Failed? && decided.run.result == Some(M.Lost(ApprovalDeniedCode, d.reason))
    requires AttemptEvidence(u.events) == MobileAttempts(decided.trace)
    ensures Matches(s, job, Over, u, MobileApprove(s, m, answer))
  {
    hide MS.Safe, AttemptEvidence, MobileAttempts, M.Decide;
    StoppedRecord(s, decided);
  }

  lemma ParkedView(s: Scenario, job: D.Job, t: Tables, m: M.Record)
    requires Parked(s, job, t, m)
    ensures t.run.status.WaitingApproval? && t.run.pendingApproval && t.run.pendingDigest.Some?
    ensures t.run.step !in t.approvals
    ensures MS.Safe(s, m) && m.run.status.WaitingApproval? && m.run.pending.Some?
    ensures m.run.pending.value.step == m.run.step == t.run.step < 100
    ensures m.run.step !in m.decisions && AttemptEvidence(t.events) == MobileAttempts(m.trace)
  {
    hide MS.Safe, AttemptEvidence, MobileAttempts, Older, W.PreflightCode, W.Stabilise;
  }

  lemma DenialTables(job: D.Job, t: Tables, answer: D.Answer, token: Token)
    requires t.run.status.WaitingApproval? && t.run.pendingApproval && t.run.pendingDigest.Some?
    requires t.run.step !in t.approvals && !answer.allow
    ensures var u := D.Approve(job, t, answer, token);
            && u.run.status.Failed? && u.run.result == Some(Failure(ApprovalDeniedCode, Reasoned(answer.reason)))
            && AttemptEvidence(u.events) == AttemptEvidence(t.events)
  {
    hide AttemptEvidence;
    var digest, step := t.run.pendingDigest.value, t.run.step;
    var row := ApprovalRow(digest, answer.actor, false, answer.reason);
    var note := Note(t.counter + 1, Fine, ApprovalRecorded(step, digest, answer.actor, false));
    var t0 := t.(approvals := t.approvals[step := row]);
    AppendEvidence(t0, note);
    var decided := Append(t0, note);
    var run := P.Ended(decided.run, ApprovalDeniedCode, Reasoned(answer.reason), false);
    var denied := Note(0, Error, ApprovalDenied(step, digest, answer.actor, answer.reason));
    var failed := Note(0, Error, RunFailed(Failure(ApprovalDeniedCode, Reasoned(answer.reason))));
    var start := decided.(run := run.(version := decided.run.version + 1));
    AppendTwo(start, denied, failed);
    AppendEvidence(start, denied);
    AppendEvidence(Append(start, denied), failed);
  }

  lemma DenialRecord(s: Scenario, m: M.Record, d: M.Decision)
    requires M.ValidDecision(d) && !d.allow && d.step !in m.decisions
    requires m.run.status.WaitingApproval? && m.run.pending.Some? && m.run.pending.value.step == d.step
    requires m.run.pending.value.digest == d.digest
    ensures M.Decide(m, d).Ok?
    ensures var m' := M.Decide(m, d).value;
            && m'.run.status.Failed? && m'.run.result == Some(M.Lost(ApprovalDeniedCode, d.reason))
            && MobileAttempts(m'.trace) == MobileAttempts(m.trace)
  {
    hide M.Tell, MobileAttempts, M.Break;
    var m1 := m.(decisions := m.decisions[d.step := d]);
    TellAttempts(m1, M.Recorded(d));
    var m2 := M.Tell(m1, M.Recorded(d));
    var m3 := m2.(run := m2.run.(pending := None));
    TellAttempts(m3, M.Denied(d));
    BreakAttempts(M.Tell(m3, M.Denied(d)), ApprovalDeniedCode, d.reason);
  }

  lemma GrantRecord(s: Scenario, m: M.Record, d: M.Decision)
    requires M.ValidDecision(d) && d.allow && d.step !in m.decisions
    requires m.run.status.WaitingApproval? && m.run.pending.Some? && m.run.pending.value.step == d.step
    requires m.run.pending.value.digest == d.digest
    ensures M.Decide(m, d).Ok?
    ensures var m' := M.Decide(m, d).value;
            && m'.run == m.run.(status := Queued, pending := None) && m'.decisions == m.decisions[d.step := d]
            && MobileAttempts(m'.trace) == MobileAttempts(m.trace)
  {
    hide M.Tell, MobileAttempts, M.Break;
    TellAttempts(m.(decisions := m.decisions[d.step := d]), M.Recorded(d));
  }

  /** The desktop tables of a granted run as its worker enters the loop, and after it has
      announced the pending action again. */
  function Granted(job: D.Job, t: Tables, answer: D.Answer, token: Token): Tables
    requires t.run.pendingDigest.Some?
  {
    var row := ApprovalRow(t.run.pendingDigest.value, answer.actor, true, answer.reason);
    D.Enter(Append(t.(approvals := t.approvals[t.run.step := row]),
                   Note(t.counter + 1, Fine, ApprovalRecorded(t.run.step, row.digest, row.actor, true)))
            .(lease := Some(Lease(token, job.now + job.leaseSeconds))))
  }

  lemma GrantedView(job: D.Job, t: Tables, answer: D.Answer, token: Token)
    requires t.run.status.WaitingApproval? && t.run.pendingDigest.Some?
    ensures var e := Granted(job, t, answer, token);
            && e.run == t.run.(status := Status.Running, pendingApproval := false, version := t.run.version + 1)
            && AttemptEvidence(e.events) == AttemptEvidence(t.events) && e.claims == t.claims
            && e.approvals == t.approvals[t.run.step := ApprovalRow(t.run.pendingDigest.value, answer.actor, true,
                answer.reason)]
  {
    hide AttemptEvidence;
    var row := ApprovalRow(t.run.pendingDigest.value, answer.actor, true, answer.reason);
    var t0 := t.(approvals := t.approvals[t.run.step := row]);
    var note := Note(t.counter + 1, Fine, ApprovalRecorded(t.run.step, row.digest, row.actor, true));
    AppendEvidence(t0, note);
    var leased := Append(t0, note).(lease := Some(Lease(token, job.now + job.leaseSeconds)));
    var run := leased.run.(status := Status.Running, pendingApproval := false);
    SaveEvidence(leased, run, Note(0, Fine, RunRunning(Status.WaitingApproval)));
    AppendOne(leased.(run := run.(version := leased.run.version + 1)),
        Note(0, Fine, RunRunning(Status.WaitingApproval)));
  }

  lemma {:induction false} GrantExecutes(job: D.Job, t: Tables, answer: D.Answer, token: Token)
    requires t.run.status.WaitingApproval? && t.run.pendingApproval && t.run.step !in t.approvals && answer.allow
    requires t.run.pendingDigest.Some?
    ensures D.Approve(job, t, answer, token) == D.Loop(job, Granted(job, t, answer, token)).(lease := None)
  {
    hide D.Loop, D.Enter;
  }

  lemma GrantPerforms(job: D.Job, e: Tables, action: Action)
    requires e.run.status.Running? && e.run.pendingAction == Some(action) && action.CallTool? && action.key.Some?
    requires W.PreflightCode(job.faults, action).None?
    requires e.run.step in e.approvals && e.approvals[e.run.step].digest == OfAction(action)
    requires e.approvals[e.run.step].allow
    ensures var e1 := Append(e, Note(0, Fine, PolicyAction(e.run.step, action)));
            && D.Pass(job, e) == D.Perform(job, e1, action) && AttemptEvidence(e1.events) == AttemptEvidence(e.events)
            && W.ConsentCode(e1.approvals, e1.run.step, action).None?
  {
    AppendEvidence(e, Note(0, Fine, PolicyAction(e.run.step, action)));
    hide AttemptEvidence, D.Loop, D.Perform, W.PreflightCode, D.Terminate;
    assert W.Stabilise(e.run.step, action) == action;
  }

  /** A granted answer puts both engines before the first attempt of the gated call. */
  lemma GrantPoised(s: Scenario, job: D.Job, t: Tables, m: M.Record, answer: D.Answer, token: Token)
    requires Parked(s, job, t, m) && ValidAnswer(answer) && answer.allow
    ensures t.run.pendingDigest.Some? && t.run.step < |s.actions| && s.actions[t.run.step].CallTool?
    ensures M.Decide(m, DecisionOf(m, answer)).Ok?
    ensures var e := Granted(job, t, answer, token);
            var e1 := Append(e, Note(0, Fine,
                PolicyAction(t.run.step, W.Stabilise(t.run.step, s.actions[t.run.step]))));
            Poised(s, job, e, e1, M.Decide(m, DecisionOf(m, answer)).value, s.actions[t.run.step])
  {
    hide *;
    ParkedView(s, job, t, m);
    ParkedCall(s, job, t, m);
    var action := s.actions[t.run.step];
    var stable := W.Stabilise(t.run.step, action);
    var d := DecisionOf(m, answer);
    GrantedView(job, t, answer, token);
    var e := Granted(job, t, answer, token);
    var e1 := Append(e, Note(0, Fine, PolicyAction(t.run.step, stable)));
    GrantPerforms(job, e, stable);
    GrantDecision(s, m, answer);
    GrantRecord(s, m, d);
    MS.DecideSafe(s, m, d, M.Decide(m, d).value);
    AnnouncedPending(e, t.run.step, stable);
    GrantReady(s, job, t, e1, m, M.Decide(m, d).value, d, action);
    PoisedHolds(s, job, e, e1, M.Decide(m, d).value, action);
  }

  lemma GrantDecision(s: Scenario, m: M.Record, answer: D.Answer)
    requires ValidAnswer(answer) && m.run.step < 100 && m.run.pending.Some?
    ensures var d := DecisionOf(m, answer);
            && M.ValidDecision(d) && d.allow == answer.allow && d.step == m.run.step
            && d.digest == m.run.pending.value.digest
  {
  }

  lemma AnnouncedPending(e: Tables, step: nat, action: Action)
    ensures var e1 := Append(e, Note(0, Fine, PolicyAction(step, action)));
            e1.run == e.run && e1.claims == e.claims && e1.approvals == e.approvals
  {
  }

  lemma GrantReady(s: Scenario, job: D.Job, t: Tables, e1: Tables, m: M.Record, decided: M.Record, d: M.Decision,
      action: Action)
    requires t.run.step < |s.actions| && action == s.actions[t.run.step] && action.CallTool?
    requires ValidInput(action.tool, action.args)
    requires var stable := W.Stabilise(t.run.step, action);
             && W.PreflightCode(job.faults, stable).None? && W.ConsentCode(e1.approvals, e1.run.step, stable).None?
    requires e1.run.status.Running? && e1.claims == t.claims && AC.AllCompleted(t.claims)
    requires m.run.step == t.run.step && m.run.nextAttempt == 1 && d.allow && d.step == m.run.step
    requires d.digest == OfAction(action)
    requires decided.run == m.run.(status := Queued, pending := None) && decided.decisions == m.decisions[d.step := d]
    ensures Ready(job, e1, W.Stabilise(t.run.step, action)) && Trying(s, decided, action, 1)
  {
    hide AC.AllCompleted, W.PreflightCode, W.ConsentCode, ValidInput;
  }

  lemma PoisedHolds(s: Scenario, job: D.Job, e: Tables, e1: Tables, m: M.Record, action: Action)
    requires Comparable(s, job.budget) && job.actions == s.actions && job.faults == s.faults
    requires m.run.step < |s.actions| && action == s.actions[m.run.step] && action.CallTool?
    requires e.run.status.Running? && e1.run.status.Running? && e1.run.step == m.run.step && e1.run.mode == m.run.mode
    requires e1.run.policyCalls == m.run.step + 1
    requires D.Pass(job, e) == D.Perform(job, e1, W.Stabilise(m.run.step, action))
    requires Ready(job, e1, W.Stabilise(m.run.step, action))
    requires forall k :: k in e1.claims <==> Older(s, k, m.run.step)
    requires forall k :: k in e1.approvals ==> k <= m.run.step
    requires MS.Safe(s, m) && Trying(s, m, action, 1) && (forall k :: k in m.decisions ==> k <= m.run.step)
    requires AttemptEvidence(e1.events) == MobileAttempts(m.trace)
    ensures Poised(s, job, e, e1, m, action)
  {
    hide MS.Safe, AttemptEvidence, MobileAttempts, Comparable, Older, Ready, Trying, D.Pass, D.Perform, W.Stabilise;
  }

  lemma ParkedCall(s: Scenario, job: D.Job, t: Tables, m: M.Record)
    requires Parked(s, job, t, m)
    ensures Comparable(s, job.budget) && job.actions == s.actions && job.faults == s.faults && t.run.step < |s.actions|
    ensures s.actions[t.run.step].CallTool?
    ensures var action := s.actions[t.run.step];
            var stable := W.Stabilise(t.run.step, action);
            && stable.key.Some? && KeyAt(s, t.run.step) == stable.key && stable.tool == action.tool
            && RequiresApproval(action.tool) && ValidInput(action.tool, action.args)
            && W.PreflightCode(job.faults, stable).None?
            && t.run.pendingAction == Some(stable) && t.run.pendingDigest == Some(OfAction(stable))
            && t.run.policyCalls == t.run.step + 1
            && m.run.pending == Some(M.Pending(t.run.step, OfAction(action), action.tool, action.args))
    ensures AC.AllCompleted(t.claims)
    ensures forall k :: k in t.claims <==> Older(s, k, t.run.step)
    ensures forall k :: k in t.approvals ==> k < t.run.step
    ensures m.run.nextAttempt == 1 && m.run.mode == t.run.mode && (forall k :: k in m.decisions ==> k < t.run.step)
  {
    hide MS.Safe, AttemptEvidence, MobileAttempts, Older, AC.AllCompleted, W.PreflightCode, Comparable, ValidInput;
  }

  /** A granted run goes on from the first attempt of its call. */
  lemma {:induction false} GrantedAlike(s: Scenario, job: D.Job, t: Tables, m: M.Record, answer: D.Answer, token: Token)
    requires Parked(s, job, t, m) && ValidAnswer(answer) && answer.allow
    ensures t.run.step < |s.actions| && s.actions[t.run.step].CallTool?
    ensures MS.Safe(s, m)
    ensures Matches(s, job, AfterCall(s, m.run.mode, t.run.step), D.Approve(job, t, answer, token),
            MobileApprove(s, m, answer))
  {
    ParkedView(s, job, t, m);
    GrantPoised(s, job, t, m, answer, token);
    var e := Granted(job, t, answer, token);
    var action := s.actions[t.run.step];
    var e1 := Append(e, Note(0, Fine, PolicyAction(t.run.step, W.Stabilise(t.run.step, action))));
    var decided := M.Decide(m, DecisionOf(m, answer)).value;
    MS.DecideSafe(s, m, DecisionOf(m, answer), decided);
    assert MobileApprove(s, m, answer) == Settle(s, decided) by { hide MS.Safe, Settle, M.Decide; }
    hide *;
    GrantExecutes(job, t, answer, token);
    PerformedOn(s, job, e, e1, decided, action);
    DecideKeepsPlace(s, m, answer);
    LeaseDoesNotMatter(s, job, AfterCall(s, m.run.mode, t.run.step), D.Loop(job, e), Settle(s, decided));
  }

  lemma DecideKeepsPlace(s: Scenario, m: M.Record, answer: D.Answer)
    requires M.Decide(m, DecisionOf(m, answer)).Ok?
    ensures var decided := M.Decide(m, DecisionOf(m, answer)).value;
            decided.run.step == m.run.step && decided.run.mode == m.run.mode
  {
  }

  lemma LeaseDoesNotMatter(s: Scenario, job: D.Job, stop: Stop, t: Tables, m: M.Record)
    requires Matches(s, job, stop, t, m)
    ensures Matches(s, job, stop, t.(lease := None), m)
  {
    hide MS.Safe, AttemptEvidence, MobileAttempts, Older, AC.AllCompleted, W.PreflightCode, Comparable, W.Stabilise,
        ValidInput;
  }

  lemma ApproveAttempts(s: Scenario, m: M.Record, answer: D.Answer, k: nat)
    requires MS.Safe(s, m)
    ensures MobileAt(m, k) <= MobileAt(MobileApprove(s, m, answer), k)
    ensures MobileApprove(s, m, answer).run.mode == m.run.mode
  {
    var d := DecisionOf(m, answer);
    hide M.Decide, MobileAt, MS.Safe, Settle;
    if m.run.status.WaitingApproval? && M.Decide(m, d).Ok? {
      var decided := M.Decide(m, d).value;
      MS.DecideSafe(s, m, d, decided);
      DecideAttempts(m, d, decided, k);
      SettleAttempts(s, decided, k);
    }
  }

  /** What an answer does, wherever the engines are. */
  lemma AnswerMatches(s: Scenario, job: D.Job, stop: Stop, t: Tables, m: M.Record, answer: D.Answer, token: Token)
    requires Matches(s, job, stop, t, m) && MS.Safe(s, m) && ValidAnswer(answer)
    requires stop.Parks? ==> stop.step < |s.actions| && s.actions[stop.step].CallTool?
    ensures Matches(s, job, Onward(s, m.run.mode, stop, answer), D.Approve(job, t, answer, token),
            MobileApprove(s, m, answer))
  {
    hide *;
    match stop {
      case Over => OverStays(s, job, t, m, answer, token);
      case Splits(k) => SplitStays(s, job, k, t, m, answer, token);
      case Parks(k) =>
        ParksView(s, job, k, t, m);
        OnwardFrom(s, m.run.mode, k, answer);
        if answer.allow {
          GrantedAlike(s, job, t, m, answer, token);
        } else {
          DeniedAlike(s, job, t, m, answer, token);
        }
    }
  }

  lemma OverStays(s: Scenario, job: D.Job, t: Tables, m: M.Record, answer: D.Answer, token: Token)
    requires Matches(s, job, Over, t, m) && MS.Safe(s, m)
    ensures Matches(s, job, Onward(s, m.run.mode, Over, answer), D.Approve(job, t, answer, token),
            MobileApprove(s, m, answer))
  {
    hide MS.Safe, AttemptEvidence, MobileAttempts, Parked, SameResult;
  }

  lemma SplitStays(s: Scenario, job: D.Job, k: nat, t: Tables, m: M.Record, answer: D.Answer, token: Token)
    requires Matches(s, job, Splits(k), t, m) && MS.Safe(s, m)
    ensures Matches(s, job, Onward(s, m.run.mode, Splits(k), answer), D.Approve(job, t, answer, token),
            MobileApprove(s, m, answer))
  {
    hide MS.Safe, DesktopAt, MobileAt, MobileApprove, D.Approve;
    ApproveElsewhere(job, t, answer, token, k);
    ApproveAttempts(s, m, answer, k);
  }

  lemma ParksView(s: Scenario, job: D.Job, k: nat, t: Tables, m: M.Record)
    requires Matches(s, job, Parks(k), t, m)
    ensures Parked(s, job, t, m) && t.run.step == k
  {
    hide Parked, Alike;
  }

  lemma {:induction false} OnwardFrom(s: Scenario, mode: Mode, k: nat, answer: D.Answer)
    requires k < |s.actions| && s.actions[k].CallTool?
    ensures Onward(s, mode, Parks(k), answer) == if answer.allow then AfterCall(s, mode, k) else Over
  {
    hide AfterCall;
  }

  // ---------------------------------------------------------------- whole runs

  /** The desktop run after the given answers, one for each stop at which it waits. */
  function DesktopRun(s: Scenario, mode: Mode, job: D.Job, answers: seq<D.Answer>): Tables {
    if answers == [] then D.FirstStop(s, mode, job)
    else D.Approve(job, DesktopRun(s, mode, job, answers[..|answers| - 1]), answers[|answers| - 1], |answers|)
  }

  ghost function MobileRun(s: Scenario, mode: Mode, answers: seq<D.Answer>): (m: M.Record)
    ensures MS.Safe(s, m)
  {
    if answers == [] then
      MS.NewIsSafe(s, mode);
      SettleSafe(s, M.NewRecord(mode));
      Settle(s, M.NewRecord(mode))
    else MobileApprove(s, MobileRun(s, mode, answers[..|answers| - 1]), answers[|answers| - 1])
  }

  lemma {:induction false} FirstStopsMatch(s: Scenario, mode: Mode, job: D.Job)
    requires Comparable(s, job.budget) && job.actions == s.actions && job.faults == s.faults
    ensures Matches(s, job, StopAfter(s, mode, []), DesktopRun(s, mode, job, []), MobileRun(s, mode, []))
  {
    hide *;
    var t, m := FirstEntry(s, mode, job), M.NewRecord(mode);
    FirstHeads(s, mode, job);
    MS.NewIsSafe(s, mode);
    NewPlace(mode);
    Lockstep(s, job, t, m);
    FirstStops(s, mode, job);
    LeaseDoesNotMatter(s, job, Walk(s, mode, 0), D.Loop(job, t), Settle(s, m));
    FirstMobileStop(s, mode);
  }

  lemma NewPlace(mode: Mode)
    ensures M.NewRecord(mode).run.step == 0 && M.NewRecord(mode).run.mode == mode
  {
  }

  lemma {:induction false} FirstStops(s: Scenario, mode: Mode, job: D.Job)
    ensures DesktopRun(s, mode, job, []) == D.Loop(job, FirstEntry(s, mode, job)).(lease := None)
    ensures StopAfter(s, mode, []) == Walk(s, mode, 0)
  {
    hide D.Loop, D.Enter, Walk;
  }

  function FirstEntry(s: Scenario, mode: Mode, job: D.Job): Tables {
    D.Enter(Fresh(NewRun(mode, s.context)).(lease := Some(Lease(0, job.now + job.leaseSeconds))))
  }

  lemma FirstEntryView(s: Scenario, mode: Mode, job: D.Job)
    ensures var t := FirstEntry(s, mode, job);
            && t.run == NewRun(mode, s.context).(status := Status.Running, version := 2) && t.claims == map[]
            && t.approvals == map[]
            && AttemptEvidence(t.events) == []
  {
    var t0 := Fresh(NewRun(mode, s.context)).(lease := Some(Lease(0, job.now + job.leaseSeconds)));
    var run := t0.run.(status := Status.Running, pendingApproval := false);
    AppendOne(t0.(run := run.(version := 2)), Note(0, Fine, RunRunning(Status.Queued)));
    SaveEvidence(t0, run, Note(0, Fine, RunRunning(Status.Queued)));
  }

  lemma FirstHeads(s: Scenario, mode: Mode, job: D.Job)
    requires Comparable(s, job.budget) && job.actions == s.actions && job.faults == s.faults
    ensures Heads(s, job, FirstEntry(s, mode, job), M.NewRecord(mode))
  {
    FirstEntryView(s, mode, job);
    MS.NewIsSafe(s, mode);
    TellAttempts(M.Record(M.Progress(mode, Queued, 0, 1, -1, None, None), [], map[], map[]), M.Created(mode));
    assert |s.actions| > 0;
    hide MS.Safe, Comparable, FirstEntry, KeyAt;
  }

  lemma {:induction false} FirstMobileStop(s: Scenario, mode: Mode)
    ensures MS.Safe(s, M.NewRecord(mode)) && MobileRun(s, mode, []) == Settle(s, M.NewRecord(mode))
  {
    MS.NewIsSafe(s, mode);
    hide MS.Safe, Settle, M.NewRecord;
  }

  lemma {:induction false} ModeStays(s: Scenario, mode: Mode, answers: seq<D.Answer>)
    ensures MobileRun(s, mode, answers).run.mode == mode
  {
    if answers == [] {
      hide MS.Safe, Settle;
      MS.NewIsSafe(s, mode);
      SettleAttempts(s, M.NewRecord(mode), 0);
    } else {
      hide MS.Safe, MobileApprove;
      ModeStays(s, mode, answers[..|answers| - 1]);
      ApproveAttempts(s, MobileRun(s, mode, answers[..|answers| - 1]), answers[|answers| - 1], 0);
    }
  }

  /** The engines as the walk says, without their outputs. */
  lemma {:induction false} EnginesMatch(s: Scenario, mode: Mode, job: D.Job, answers: seq<D.Answer>)
    requires Comparable(s, job.budget) && job.actions == s.actions && job.faults == s.faults
    requires forall i :: 0 <= i < |answers| ==> ValidAnswer(answers[i])
    ensures Alike(DesktopRun(s, mode, job, answers), MobileRun(s, mode, answers))
            <==> !StopAfter(s, mode, answers).Splits?
    ensures Matches(s, job, StopAfter(s, mode, answers), DesktopRun(s, mode, job, answers), MobileRun(s, mode, answers))
  {
    if answers == [] {
      hide DesktopRun, MobileRun, StopAfter, Matches, Alike;
      FirstStopsMatch(s, mode, job);
    } else {
      var before, answer := answers[..|answers| - 1], answers[|answers| - 1];
      EnginesMatch(s, mode, job, before);
      ModeStays(s, mode, before);
      hide Alike, Matches, D.Approve, MobileApprove, Onward, Comparable;
      AnswerMatches(s, job, StopAfter(s, mode, before), DesktopRun(s, mode, job, before), MobileRun(s, mode, before),
          answer, |answers|);
    }
    hide DesktopRun, MobileRun, StopAfter, Comparable, Alike, Matches;
    MatchesMeans(s, job, StopAfter(s, mode, answers), DesktopRun(s, mode, job, answers), MobileRun(s, mode, answers));
  }

  /** For every comparable scenario, in both modes, after the same answers to the same pauses,
      allowing or denying, the mobile and the desktop engine have the same status, the same
      result or failure code, wait at the same step if they wait, and have made the same
      attempts, by step, tool and number, with the same closings and outputs: exactly if no call that the
      run reaches reuses a key or has transient faults planned at both attempts of the desktop.
      The walk also says where they are. */
  lemma {:induction false} EnginesAgreeExactly(s: Scenario, mode: Mode, job: D.Job, answers: seq<D.Answer>)
    requires Comparable(s, job.budget) && job.actions == s.actions && job.faults == s.faults
    requires forall i :: 0 <= i < |answers| ==> ValidAnswer(answers[i])
    ensures SameStory(DesktopRun(s, mode, job, answers), MobileRun(s, mode, answers))
            <==> !StopAfter(s, mode, answers).Splits?
    ensures Matches(s, job, StopAfter(s, mode, answers), DesktopRun(s, mode, job, answers), MobileRun(s, mode, answers))
  {
    hide DesktopRun, MobileRun, StopAfter, Comparable, Matches, MT.TraceTrue, EO.Faithful, GO.SuccessEvidence;
    EnginesMatch(s, mode, job, answers);
    DesktopRunFaithful(s, mode, job, answers);
    MobileRunTrue(s, mode, answers);
    EvidenceDelivers(s, job, DesktopRun(s, mode, job, answers), MobileRun(s, mode, answers));
    hide Alike;
    AlikeAttempts(DesktopRun(s, mode, job, answers), MobileRun(s, mode, answers));
  }

  lemma AlikeAttempts(t: Tables, m: M.Record)
    ensures Alike(t, m) ==> AttemptEvidence(t.events) == MobileAttempts(m.trace)
  {
    hide SameResult, AttemptEvidence, MobileAttempts;
  }

  /** Engines that made the same attempts delivered the same outputs. */
  lemma EvidenceDelivers(s: Scenario, job: D.Job, t: Tables, m: M.Record)
    requires job.actions == s.actions && EO.Faithful(job, t) && MT.TraceTrue(s, m)
    ensures AttemptEvidence(t.events) == MobileAttempts(m.trace) ==>
            GO.SuccessEvidence(t.events) == EO.MobileOutputs(m.trace)
  {
    EO.HonestOutputs(job.actions, t.events);
    EO.TrueDelivers(s, m);
    EO.DeliveredOutputs(s.actions, m.trace);
  }

  lemma {:induction false} DesktopRunFaithful(s: Scenario, mode: Mode, job: D.Job, answers: seq<D.Answer>)
    ensures EO.Faithful(job, DesktopRun(s, mode, job, answers))
  {
    if answers == [] {
      hide D.ExecuteOwned;
      EO.ExecuteFaithful(job, Fresh(NewRun(mode, s.context)), 0);
    } else {
      hide D.Approve, EO.Faithful;
      DesktopRunFaithful(s, mode, job, answers[..|answers| - 1]);
      EO.ApproveFaithful(job, DesktopRun(s, mode, job, answers[..|answers| - 1]), answers[|answers| - 1], |answers|);
    }
  }

  lemma {:induction false} MobileRunTrue(s: Scenario, mode: Mode, answers: seq<D.Answer>)
    ensures MT.TraceTrue(s, MobileRun(s, mode, answers))
  {
    hide MS.Safe, Settle, MT.TraceTrue, M.Decide, M.NewRecord;
    if answers == [] {
      MS.NewIsSafe(s, mode);
      MT.NewTells(s, mode);
      EO.SettleTells(s, M.NewRecord(mode));
    } else {
      var m, answer := MobileRun(s, mode, answers[..|answers| - 1]), answers[|answers| - 1];
      MobileRunTrue(s, mode, answers[..|answers| - 1]);
      if m.run.status.WaitingApproval? && M.Decide(m, DecisionOf(m, answer)).Ok? {
        var decided := M.Decide(m, DecisionOf(m, answer)).value;
        MS.DecideSafe(s, m, DecisionOf(m, answer), decided);
        MT.DecideTells(s, m, DecisionOf(m, answer), decided);
        EO.SettleTells(s, decided);
      }
    }
  }

  lemma MatchesMeans(s: Scenario, job: D.Job, stop: Stop, t: Tables, m: M.Record)
    requires Matches(s, job, stop, t, m)
    ensures Alike(t, m) <==> !stop.Splits?
  {
    hide Parked, SameResult, AttemptEvidence, MobileAttempts;
  }

  /** No call of the scenario reuses a key or is given up in this mode. */
  predicate NoneParts(s: Scenario, mode: Mode) {
    forall k :: 0 <= k < |s.actions| && s.actions[k].CallTool? ==>
      !Reused(s, k) && !GivesUp(s.faults, mode, s.actions[k].tool)
  }

  lemma {:induction false} WalkNeverSplits(s: Scenario, mode: Mode, k: nat)
    requires NoneParts(s, mode)
    ensures !Walk(s, mode, k).Splits?
    ensures k < |s.actions| && s.actions[k].CallTool? ==> !AfterCall(s, mode, k).Splits?
    decreases |s.actions| - k
  {
    hide GivesUp, DesktopFault, Reused;
    if k < |s.actions| {
      WalkNeverSplits(s, mode, k + 1);
    }
  }

  lemma {:induction false} NeverSplits(s: Scenario, mode: Mode, answers: seq<D.Answer>)
    requires NoneParts(s, mode)
    ensures !StopAfter(s, mode, answers).Splits?
  {
    hide Walk, AfterCall, NoneParts;
    if answers == [] {
      WalkNeverSplits(s, mode, 0);
    } else {
      var before := StopAfter(s, mode, answers[..|answers| - 1]);
      NeverSplits(s, mode, answers[..|answers| - 1]);
      if before.Parks? {
        WalkNeverSplits(s, mode, before.step);
      }
    }
  }

  lemma {:induction false} FaultIsPlanned(faults: seq<FaultRule>, tool: Tool, n: nat)
    requires FaultFor(faults, tool, n).Some?
    ensures exists i :: 0 <= i < |faults| && faults[i].tool == tool && faults[i].attempt == n
  {
    if faults[0].tool == tool && faults[0].attempt == n {
    } else {
      FaultIsPlanned(faults[1..], tool, n);
      var i :| 0 <= i < |faults| - 1 && faults[1..][i].tool == tool && faults[1..][i].attempt == n;
      assert faults[i + 1].tool == tool && faults[i + 1].attempt == n;
    }
  }

  /** No two calls share a key. */
  predicate KeysOnce(s: Scenario) {
    forall j, k :: 0 <= j < k < |s.actions| && KeyAt(s, j).Some? ==> KeyAt(s, k) != KeyAt(s, j)
  }

  /** The suites' scenarios, whose faults all hit first attempts, and all fragile runs, with keys used
      once: the engines agree under any answers. */
  lemma {:induction false} EnginesAgree(s: Scenario, mode: Mode, job: D.Job, answers: seq<D.Answer>)
    requires Comparable(s, job.budget) && job.actions == s.actions && job.faults == s.faults && KeysOnce(s)
    requires mode.Fragile? || forall i :: 0 <= i < |s.faults| ==> s.faults[i].attempt != 2
    requires forall i :: 0 <= i < |answers| ==> ValidAnswer(answers[i])
    ensures SameStory(DesktopRun(s, mode, job, answers), MobileRun(s, mode, answers))
  {
    hide Comparable, SameStory, DesktopRun, MobileRun, StopAfter, FaultFor, KeyAt;
    forall k | 0 <= k < |s.actions| && s.actions[k].CallTool?
      ensures !Reused(s, k) && !GivesUp(s.faults, mode, s.actions[k].tool)
    {
      if GivesUp(s.faults, mode, s.actions[k].tool) {
        FaultIsPlanned(s.faults, s.actions[k].tool, 2);
      }
    }
    NeverSplits(s, mode, answers);
    EnginesAgreeExactly(s, mode, job, answers);
  }

  // ---------------------------------------------------------------- the bounded loop

  /** The same run as the app makes it, each stop by one call of `_advance`; None when a call
      runs out of passes. */
  function AppRun(s: Scenario, mode: Mode, answers: seq<D.Answer>): Option<M.Record> {
    if answers == [] then Returned(M.Advance(s, M.NewRecord(mode), M.PASS_LIMIT))
    else
      match AppRun(s, mode, answers[..|answers| - 1])
      case None => None
      case Some(m) => AppApprove(s, m, answers[|answers| - 1])
  }

  function Returned(advanced: (M.Record, Result<M.Progress, M.Failure>)): Option<M.Record> {
    if advanced.1.Ok? then Some(advanced.0) else None
  }

  /** `_approve`, for the action the run waits for. */
  function AppApprove(s: Scenario, m: M.Record, answer: D.Answer): Option<M.Record> {
    if !m.run.status.WaitingApproval? then Some(m)
    else
      match M.Decide(m, DecisionOf(m, answer))
      case Err(_) => Some(m)
      case Ok(decided) => Returned(M.Advance(s, decided, M.PASS_LIMIT))
  }

  lemma {:induction false} AdvanceReturns(s: Scenario, m: M.Record)
    requires MS.Safe(s, m)
    ensures var app := Returned(M.Advance(s, m, M.PASS_LIMIT));
            (app.Some? ==> app.value == Settle(s, m)) && (|s.actions| <= 15 ==> app.Some?)
  {
    assert MS.Measure(s, m) <= 4 * |s.actions| + 3;
    hide M.Advance, MS.Safe, MS.Measure, Settle;
    AdvanceSettles(s, m, M.PASS_LIMIT);
    MS.EnoughPasses(s, m, M.PASS_LIMIT);
  }

  /** After any answers, the mobile run compared above is what the app's own bounded loop
      leaves, whenever its calls return; for scenarios of up to fifteen actions they do. */
  lemma {:induction false} MobileRunIsAdvance(s: Scenario, mode: Mode, answers: seq<D.Answer>)
    ensures AppRun(s, mode, answers).Some? ==> AppRun(s, mode, answers).value == MobileRun(s, mode, answers)
    ensures |s.actions| <= 15 ==> AppRun(s, mode, answers).Some?
  {
    hide M.Advance, M.Decide, MS.Safe, Settle, Returned, M.NewRecord;
    if answers == [] {
      MS.NewIsSafe(s, mode);
      AdvanceReturns(s, M.NewRecord(mode));
    } else {
      var before, answer := answers[..|answers| - 1], answers[|answers| - 1];
      MobileRunIsAdvance(s, mode, before);
      var m := MobileRun(s, mode, before);
      if M.Decide(m, DecisionOf(m, answer)).Ok? {
        MS.DecideSafe(s, m, DecisionOf(m, answer), M.Decide(m, DecisionOf(m, answer)).value);
        AdvanceReturns(s, M.Decide(m, DecisionOf(m, answer)).value);
      }
    }
  }

  // ---------------------------------------------------------------- a scenario on which the engines part

  /** One read that times out twice, then an end. */
  predicate TimesOutTwice(s: Scenario, job: D.Job) {
    && s.actions == [CallTool(GetDeployment, NoArguments, None), Finish("done", [], Named("diagnosed"))]
    && s.faults == [FaultRule(GetDeployment, 1, Timeout), FaultRule(GetDeployment, 2, Timeout)]
    && job.actions == s.actions && job.faults == s.faults && job.budget >= 2
  }

  lemma DesktopGivesUp(s: Scenario, job: D.Job)
    requires TimesOutTwice(s, job)
    ensures D.FirstStop(s, Resilient, job).run.status.Failed?
  {
    var action := s.actions[0];
    var t := FirstEntry(s, Resilient, job);
    AnnounceEvidence(t, action);
    var t1 := Append(D.Reserve(t), Note(0, Fine, PolicyAction(0, action)));
    FirstEntryView(s, Resilient, job);
    assert s.faults[1..] == [FaultRule(GetDeployment, 2, Timeout)];
    assert FaultFor(job.faults, GetDeployment, 1) == Some(Timeout)
        && FaultFor(job.faults, GetDeployment, 2) == Some(Timeout);
    assert W.PlanRegistered(job.faults);
    hide AttemptEvidence, Append, D.Reserve, D.Save, FirstEntry;
    assert D.Pass(job, t) == D.Perform(job, t1, action);
    var t0 := AC.NewCall(t1, action, job.faults, t1.counter, job.now, job.claimSeconds);
    hide W.AttemptsFrom, W.Call;
    AC.LoopResult(t0, action, job.faults);
    assert D.Pass(job, t).run.status.Failed?;
    hide D.Pass, D.Perform;
    StoppedTables(job, t);
    hide D.FirstStop, D.Loop;
    FirstStopLoops(s, job);
  }

  lemma {:induction false} FirstStopLoops(s: Scenario, job: D.Job)
    ensures D.FirstStop(s, Resilient, job).run == D.Loop(job, FirstEntry(s, Resilient, job)).run
  {
    hide D.Loop, D.Enter;
  }

  /** The mobile engine after `n` of its transactions, all of which commit. */
  lemma AdvanceOnce(s: Scenario, m: M.Record, passes: nat)
    requires passes > 0 && !M.Stopped(m.run) && M.Transaction(s, m).Some?
    ensures M.Advance(s, m, passes) == M.Advance(s, M.Transaction(s, m).value, passes - 1)
  {
    hide M.Transaction;
  }

  lemma OnlyTwoTimeouts(s: Scenario, job: D.Job)
    requires TimesOutTwice(s, job)
    ensures FaultFor(s.faults, GetDeployment, 1) == Some(Timeout)
    ensures FaultFor(s.faults, GetDeployment, 2) == Some(Timeout)
    ensures FaultFor(s.faults, GetDeployment, 3).None?
  {
    assert s.faults[1..] == [FaultRule(GetDeployment, 2, Timeout)];
    assert FaultFor(s.faults[1..][1..], GetDeployment, 3).None?;
    assert FaultFor(s.faults[1..], GetDeployment, 3).None?;
  }

  /** The run after one attempt of the retried read. */
  function AfterTry(s: Scenario, m: M.Record, n: nat): M.Progress {
    var run := m.run.(status := Status.Running, announced := m.run.step);
    match FaultFor(s.faults, GetDeployment, n)
    case None => run.(step := m.run.step + 1, nextAttempt := 1, pending := None)
    case Some(kind) => MS.AfterFault(run, AttemptId(m.run.step, GetDeployment, n), kind)
  }

  lemma TriesOnceRun(s: Scenario, job: D.Job, m: M.Record, n: nat, next: M.Record)
    requires TimesOutTwice(s, job) && Trying(s, m, s.actions[0], n) && m.run.step == 0
    requires m.run.mode.Resilient? && 1 <= n <= 3 && next.run == AfterTry(s, m, n)
    ensures !M.Stopped(next.run) && next.run.mode.Resilient?
    ensures if n == 3 then next.run.step == 1 else next.run.step == 0 && Trying(s, next, s.actions[0], n + 1)
  {
    OnlyTwoTimeouts(s, job);
    hide FaultFor;
  }

  lemma TryingView(s: Scenario, job: D.Job, m: M.Record, n: nat)
    requires TimesOutTwice(s, job) && Trying(s, m, s.actions[0], n)
    ensures !M.Stopped(m.run) && s.actions[0].CallTool? && s.actions[0].tool == GetDeployment
  {
  }

  /** One transaction of the retried read: it times out and tries again, or delivers and moves on. */
  lemma TriesOnce(s: Scenario, job: D.Job, m: M.Record, n: nat, passes: nat) returns (next: M.Record)
    requires TimesOutTwice(s, job) && MS.Safe(s, m) && Trying(s, m, s.actions[0], n) && m.run.step == 0
    requires m.run.mode.Resilient? && 1 <= n <= 3 && passes > 0
    ensures MS.Safe(s, next) && M.Advance(s, m, passes) == M.Advance(s, next, passes - 1)
    ensures !M.Stopped(next.run) && next.run.mode.Resilient?
    ensures if n == 3 then next.run.step == 1 else next.run.step == 0 && Trying(s, next, s.actions[0], n + 1)
  {
    TryingView(s, job, m, n);
    TransactionTries(s, m, s.actions[0], n);
    assert M.Transaction(s, m).value.run == AfterTry(s, m, n);
    hide *;
    MS.TransactionSafe(s, m);
    AdvanceOnce(s, m, passes);
    next := M.Transaction(s, m).value;
    TriesOnceRun(s, job, m, n, next);
  }

  lemma {:induction false} MobileTriesAgain(s: Scenario, job: D.Job)
    requires TimesOutTwice(s, job)
    ensures M.Advance(s, M.NewRecord(Resilient), M.PASS_LIMIT).0.run.status.Succeeded?
  {
    var m0 := M.NewRecord(Resilient);
    MS.NewIsSafe(s, Resilient);
    assert Trying(s, m0, s.actions[0], 1) && m0.run.mode.Resilient?;
    hide M.NewRecord, MS.Safe, M.Transaction, M.Advance, M.Stopped;
    var m1 := TriesOnce(s, job, m0, 1, 64);
    var m2 := TriesOnce(s, job, m1, 2, 63);
    var m3 := TriesOnce(s, job, m2, 3, 62);
    MobileFinishes(s, m3);
    AdvanceOnce(s, m3, 61);
    EndsStopped(M.Transaction(s, m3).value.run);
    MS.StoppedStays(s, M.Transaction(s, m3).value, 60);
  }

  lemma EndsStopped(run: M.Progress)
    ensures Terminal(run.status) ==> M.Stopped(run)
  {
  }

  lemma MobileFinishes(s: Scenario, m: M.Record)
    requires !M.Stopped(m.run) && m.run.step < |s.actions| && s.actions[m.run.step].Finish?
    ensures M.Transaction(s, m).Some? && M.Transaction(s, m).value.run.status.Succeeded?
  {
    PrologueAttempts(s, m);
    hide M.Begin, M.Announce, MobileAttempts;
  }

  /** Such a scenario: the desktop gives up after two attempts, the mobile engine tries a third
      time and succeeds. */
  lemma {:induction false} SecondFaultSeparates(s: Scenario, job: D.Job)
    requires TimesOutTwice(s, job)
    ensures D.FirstStop(s, Resilient, job).run.status.Failed?
    ensures M.Advance(s, M.NewRecord(Resilient), M.PASS_LIMIT).0.run.status.Succeeded?
  {
    DesktopGivesUp(s, job);
    MobileTriesAgain(s, job);
  }
}