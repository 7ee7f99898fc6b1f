/** How a run ends: where its cursor stands, which result it has, and what every failure goes back to. */
module ProtocolCursor {
  import opened Domain
  import opened Rows
  import opened Gateway
  import opened Protocol
  import opened ProtocolCore
  import opened ProtocolProgress

  /** The worker is about to carry out an action that ends the run. */
  predicate EndsByAction(pc: Pc) {
    pc.Announced? && !pc.action.CallTool?
  }

  /** The result that a worker ends its run with. */
  predicate EndsWith(pc: Pc, result: RunResult) {
    match pc
    case AtHead => result == Failure(ActionBudgetExhausted, Bare)
    case Announced(Finish(summary, refs, outcome)) => result == Outcome(outcome, summary, refs)
    case Announced(Fail(code, explanation)) => result == Failure(code, Explained(explanation))
    case Returned(_, CallFailed(code, _, _)) => result == Failure(code, Bare)
    case Failing(code, detail) => result == Failure(code, detail)
    case Denying(_, _, _, reason) => result == Failure(ApprovalDeniedCode, Reasoned(reason))
    case _ => false
  }

  lemma EndingPlan(cfg: Config, w: Worker, plan: Plan)
    requires WorkerOk(cfg, w) && Planned(cfg, w) == Some(plan) && Terminal(plan.run.status)
    ensures plan.run.step == w.run.step + (if EndsByAction(w.pc) then 1 else 0)
    ensures plan.run.result.Some? && MoveOf(plan, w.run) != Advance
    ensures EndsWith(w.pc, plan.run.result.value)
    ensures plan.run.status.Succeeded? <==> w.pc.Announced? && w.pc.action.Finish?
    ensures plan.run.pendingAction.None? && plan.run.pendingDigest.None?
  {
  }

  /** In every interleaving a run ends with one save of one worker.  Its result is that of the worker's
      own `finish` or `fail`, of the failed call, of the failure it was about to record, of the denial, or
      the exhausted budget.  Its cursor stands one past its checkpoints exactly if it ended by its own
      action, and otherwise at the step that failed; nothing is pending any more. */
  lemma EndsMoveTheCursor(cfg: Config, s: State, step: Step, s': State)
    requires Invariant(cfg, s) && Next(cfg, s, step) == Some(s')
    requires !Terminal(s.t.run.status) && Terminal(s'.t.run.status)
    ensures step.DoCommit? && step.token in s.workers
    ensures var pc, run, checkpoints := s.workers[step.token].pc, s'.t.run, |CheckpointSteps(s'.t.events)|;
            && checkpoints == s.t.run.step && run.step == checkpoints + (if EndsByAction(pc) then 1 else 0)
            && run.result.Some? && EndsWith(pc, run.result.value)
            && (run.status.Succeeded? <==> pc.Announced? && pc.action.Finish?)
            && run.pendingAction.None? && run.pendingDigest.None?
  {
    if step.DoCommit? {
      var plan := CommitView(cfg, s, step.token, step.now, s');
      var w := s.workers[step.token];
      InvariantViews(cfg, s, step.token);
      var start := s.t.(run := plan.run.(version := s.t.run.version + 1));
      AppendAllKeeps(start, plan.notes);
      PlanMoves(cfg, w, plan);
      FittingNotes(start, plan, w.run);
      assert Saved(cfg, s, step.token, plan, s') ==> w.run == s.t.run;
      hide Next, Commit, Planned, AppendAll, Invariant, NotesFit, WorkerOk, CheckpointSteps, MoveOf;
      EndingPlan(cfg, w, plan);
    } else {
      OthersKeepRun(cfg, s, step, s');
      hide Next, Invariant;
    }
  }

  lemma InvariantViews(cfg: Config, s: State, token: Token)
    requires Invariant(cfg, s) && token in s.workers
    ensures WorkerOk(cfg, s.workers[token])
    ensures !Terminal(s.t.run.status) ==> |CheckpointSteps(s.t.events)| == s.t.run.step
  {
    hide WorkerOk, CheckpointSteps, Tickets, Coherent;
  }

  // ---------------------------------------------------------------- progress

  /** The run after a call has answered: one step on, the answer kept under its step, nothing pending. */
  predicate Moved(before: Run, after: Run, output: Output) {
    && after.step == before.step + 1 && after.status == before.status && after.mode == before.mode
    && after.policyCalls == before.policyCalls && after.result == before.result
    && after.context.base == before.context.base
    && before.step in after.context.results && after.context.results[before.step] == output
    && (forall k :: k in after.context.results && k != before.step ==>
          k in before.context.results && after.context.results[k] == before.context.results[k])
    && (forall k :: k in before.context.results ==> k in after.context.results)
    && !after.pendingApproval && after.pendingAction.None? && after.pendingDigest.None?
  }

  lemma AdvancingPlan(cfg: Config, w: Worker, plan: Plan)
    requires WorkerOk(cfg, w) && Planned(cfg, w) == Some(plan)
    requires plan.run.step != w.run.step && !Terminal(plan.run.status)
    ensures w.pc.Returned? && w.pc.result.CallOk?
    ensures var result := w.pc.result;
            && Moved(w.run, plan.run, result.output)
            && plan.notes == [Note(0, Fine, Checkpointed(w.run.step, result.attempts, w.run.step + 1, result.cached,
                                                         OfOutput(result.output), OfContext(plan.run.context)))]
  {
  }

  /** In every interleaving the cursor of a run that goes on moves only by the save of a worker whose call
      answered: by one step, with the answer kept under that step and every other answer as it was, and
      with a checkpoint that tells the attempts, the output, whether it was cached, and the new context. */
  lemma AdvancesStoreTheAnswer(cfg: Config, s: State, step: Step, s': State)
    requires Invariant(cfg, s) && Next(cfg, s, step) == Some(s')
    requires s'.t.run.step != s.t.run.step && !Terminal(s'.t.run.status)
    ensures step.DoCommit? && step.token in s.workers
    ensures var pc, events := s.workers[step.token].pc, s'.t.events;
            && pc.Returned? && pc.result.CallOk? && Moved(s.t.run, s'.t.run, pc.result.output)
            && |events| == |s.t.events| + 1 && events[..|s.t.events|] == s.t.events
            && events[|s.t.events|].note.status.Fine?
            && events[|s.t.events|].note.body
               == Checkpointed(s.t.run.step, pc.result.attempts, s.t.run.step + 1, pc.result.cached,
                               OfOutput(pc.result.output), OfContext(s'.t.run.context))
  {
    if step.DoCommit? {
      var plan := CommitView(cfg, s, step.token, step.now, s');
      var w := s.workers[step.token];
      InvariantViews(cfg, s, step.token);
      AppendAllKeeps(s.t.(run := plan.run.(version := s.t.run.version + 1)), plan.notes);
      assert Saved(cfg, s, step.token, plan, s') ==> w.run == s.t.run;
      hide Next, Commit, Planned, AppendAll, Invariant, WorkerOk;
      AdvancingPlan(cfg, w, plan);
    } else {
      OthersKeepRun(cfg, s, step, s');
      hide Next, Invariant;
    }
  }

  // ---------------------------------------------------------------- causes

  /** What lets a worker stand before a failure: a policy that raised, a preflight failure that the
      trace has just been told of, or the decision row of its step. */
  predicate HasCause(cfg: Config, s: State, w: Worker, failing: Pc, s': State)
    requires failing.Failing?
  {
    var code, step := failing.code, w.run.step;
    match w.pc
    case Invoked => failing == Failing(PolicyError, Explained("PolicyExhaustedError"))
    case Announced(action) =>
      && action.CallTool? && failing.detail.Bare?
      && |s'.t.events| == |s.t.events| + 1
      && s'.t.events[|s.t.events|].note.body
         == PreflightFailed(step, action.tool, OfAction(Stabilise(step, action)), code)
      && (code == UnknownTool <==> !Registered(action.tool))
      && (code == InvalidInput <==> Registered(action.tool) && !ValidInput(action.tool, action.args))
      && (code == InvalidFaultPlan <==> Registered(action.tool) && ValidInput(action.tool, action.args))
    case Consulting(action) =>
      && failing.detail.Bare? && step in s.t.approvals
      && (code == ApprovalMismatch <==> s.t.approvals[step].digest != OfAction(action))
      && (code == ApprovalDeniedCode <==>
           s.t.approvals[step].digest == OfAction(action) && !s.t.approvals[step].allow)
      && (code == ApprovalMismatch || code == ApprovalDeniedCode)
    case Cleared(action) =>
      action.CallTool? && failing.detail.Bare?
      && (PreflightCode(cfg.faults, action) == Some(code) || ConsentCode(s.t.approvals, step, action) == Some(code))
    case _ => false
  }

  /** In every interleaving a worker comes to a failure by one step, and for its cause. */
  lemma FailuresHaveTheirCause(cfg: Config, s: State, step: Step, s': State, token: Token)
    requires Next(cfg, s, step) == Some(s') && token in s'.workers && s'.workers[token].pc.Failing?
    ensures token in s.workers
    ensures s'.workers[token].pc == s.workers[token].pc || HasCause(cfg, s, s.workers[token], s'.workers[token].pc, s')
  {
    hide HasCause;
    match step {
      case DoThink(at, choice) =>
        if at == token { ThoughtHasCause(cfg, s, s.workers[at], choice, s'); }
      case DoSay(at, saying) =>
        if at == token { SaidHasCause(cfg, s, s.workers[at], saying, s'); }
      case DoCommit(at, now) =>
        var plan := CommitView(cfg, s, at, now, s');
        PlansLeadOn(cfg, s.workers[at], plan);
        hide Commit, Planned, AppendAll;
      case _ =>
        hide Commit, Said, Thought, Planned, Unclaimed, ClaimTool, SettleCall, FailTool, AppendAll;
    }
  }

  lemma PlansLeadOn(cfg: Config, w: Worker, plan: Plan)
    requires Planned(cfg, w) == Some(plan)
    ensures !plan.next.Failing?
  {
  }

  lemma ThoughtHasCause(cfg: Config, s: State, w: Worker, choice: Option<Action>, s': State)
    requires Thought(cfg, s.t, w, choice).Some? && Thought(cfg, s.t, w, choice).value.Failing?
    ensures HasCause(cfg, s, w, Thought(cfg, s.t, w, choice).value, s')
  {
    hide PreflightCode, ConsentCode;
  }

  lemma SaidHasCause(cfg: Config, s: State, w: Worker, saying: Saying, s': State)
    requires Said(cfg, w, s.t.counter, saying).Some? && Said(cfg, w, s.t.counter, saying).value.next.Failing?
    requires s'.t == Append(s.t, Said(cfg, w, s.t.counter, saying).value.note)
    ensures HasCause(cfg, s, w, Said(cfg, w, s.t.counter, saying).value.next, s')
            || Said(cfg, w, s.t.counter, saying).value.next == w.pc
  {
  }

  /** A worker at the head of its loop may ask the policy exactly if neither the steps taken nor the calls
      started have used up the budget, and its reservation then passes both, also on a row whose count
      of calls is behind its cursor. */
  lemma ReservationsPassTheCursor(cfg: Config, w: Worker, plan: Plan)
    requires w.pc.AtHead? && Planned(cfg, w) == Some(plan)
    ensures plan.next.Reserved? <==> w.run.step < cfg.budget && w.run.policyCalls < cfg.budget
    ensures plan.next.Reserved? ==>
              && plan.run.policyCalls > w.run.step && plan.run.policyCalls > w.run.policyCalls
              && (plan.run.policyCalls == w.run.step + 1 || plan.run.policyCalls == w.run.policyCalls + 1)
              && plan.run == w.run.(policyCalls := plan.run.policyCalls) && plan.notes == []
    ensures !plan.next.Reserved? ==>
              plan.run.status.Failed? && plan.run.result == Some(Failure(ActionBudgetExhausted, Bare))
  {
  }

  // ---------------------------------------------------------------- pauses

  /** In every reachable state a run is flagged for approval exactly while it waits; what it then waits
      with is a gated call with its key and that call's own fingerprint; and before it starts and after
      it ends nothing is pending. */
  lemma {:induction false} PausesAreRemembered(cfg: Config, mode: Mode, context: Context, steps: seq<Step>, s: State)
    requires Execution(cfg, Start(mode, context), steps) == Some(s)
    ensures var run := s.t.run;
            && (run.pendingApproval <==> run.status.WaitingApproval?)
            && (run.status.WaitingApproval? ==>
                 && run.pendingAction.Some? && run.pendingAction.value.CallTool?
                 && RequiresApproval(run.pendingAction.value.tool) && run.pendingAction.value.key.Some?
                 && run.pendingDigest == Some(OfAction(run.pendingAction.value)))
            && (run.status.Queued? || Terminal(run.status) ==> run.pendingAction.None?)
  {
    InvariantHolds(cfg, mode, context, steps, s);
    hide Execution, Progress, Coherent, Tickets;
  }
}
