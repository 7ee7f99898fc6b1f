/** Any number of workers driving one run through the store (runtime/orchestrator.py,
    runtime/service.py, tools/gateway.py over storage/store.py).

    Each store transaction is one step.  Between two steps of a worker any other worker,
    client or heartbeat may act, any worker may crash, and every clock reading is arbitrary.
    A worker is one `_execute_owned` or `_deny` call; its lease token is fresh. */
module Protocol {
  import opened Domain
  import opened Rows
  import opened Gateway

  datatype Config = Config(budget: nat, leaseSeconds: nat, claimSeconds: nat, faults: seq<FaultRule>)

  /** Where a worker stands.  `Option<Token>` is the token of its tool claim, if it made one. */
  datatype Pc =
    | AtEntry
    | AtHead
    | Reserved
    | Invoked
    | Chosen(action: Action)
    | Announced(action: Action)
    | Consulting(action: Action)
    | Pausing(action: Action)
    | Cleared(action: Action)
    | Calling(action: Action)
    | Attempting(action: Action, attempt: nat, claim: Option<Token>)
    | InAttempt(action: Action, attempt: nat, claim: Option<Token>, span: Span)
    | Settling(action: Action, result: CallResult, claim: Option<Token>)
    | Cancelling(action: Action, claim: Option<Token>)
    | Returned(action: Action, result: CallResult)
    | Failing(code: Code, detail: FailureDetail)
    | Denying(step: nat, digest: Digest, actor: string, reason: Option<string>)
    | Leaving

  /** A worker holds the run as its last read or save returned it. */
  datatype Worker = Worker(pc: Pc, run: Run)

  /** `saves` is the owner of each committed save in version order; `tickets` the value of
      `policy_calls_started` under which each policy invocation was made. */
  datatype State = State(
    t: Tables, workers: map<Token, Worker>, tokens: set<Token>, claimTokens: set<Token>,
    saves: seq<Token>, tickets: seq<nat>)

  function Start(mode: Mode, context: Context): State {
    State(Fresh(NewRun(mode, context)), map[], {}, {}, [], [])
  }

  // ---------------------------------------------------------------- fenced saves

  datatype Plan = Plan(run: Run, notes: seq<Note>, next: Pc)

  function Ended(run: Run, code: Code, detail: FailureDetail, advance: bool): Run {
    run.(status := Status.Failed, step := run.step + (if advance then 1 else 0), pendingApproval := false,
         pendingAction := None, pendingDigest := None, result := Some(Failure(code, detail)))
  }

  function FailPlan(run: Run, code: Code, detail: FailureDetail, advance: bool): Option<Plan> {
    if !Allowed(run.status, Status.Failed) then None
    else Some(Plan(Ended(run, code, detail, advance), [Note(0, Error, RunFailed(Failure(code, detail)))], AtHead))
  }

  function CheckpointRun(run: Run, output: Output): Run {
    run.(step := run.step + 1, context := run.context.(results := run.context.results[run.step := output]),
         pendingApproval := false, pendingAction := None, pendingDigest := None)
  }

  /** The save a worker attempts next, if its next act is a save. */
  function Planned(cfg: Config, w: Worker): Option<Plan> {
    var run := w.run;
    match w.pc
    case AtEntry =>
      if run.status.Queued? || run.status.WaitingApproval?
      then Some(Plan(run.(status := Status.Running, pendingApproval := false), [Note(0, Fine, RunRunning(run.status))],
          AtHead))
      else None
    case AtHead =>
      if !run.status.Running? || run.pendingAction.Some? then None
      else
        var used := if run.step > run.policyCalls then run.step else run.policyCalls;
        if used >= cfg.budget then FailPlan(run, ActionBudgetExhausted, Bare, false)
        else Some(Plan(run.(policyCalls := used + 1), [], Reserved))
    case Announced(Finish(summary, refs, outcome)) =>
      if !Allowed(run.status, Status.Succeeded) then None
      else
        var result := Outcome(outcome, summary, refs);
        Some(Plan(run.(status := Status.Succeeded, step := run.step + 1, pendingAction := None, pendingDigest := None,
                       result := Some(result)), [Note(0, Fine, RunSucceeded(result))], AtHead))
    case Announced(Fail(code, explanation)) => FailPlan(run, code, Explained(explanation), true)
    case Pausing(action) =>
      if !action.CallTool? || !Allowed(run.status, Status.WaitingApproval) then None
      else Some(Plan(run.(status := Status.WaitingApproval, pendingApproval := true, pendingAction := Some(action),
                          pendingDigest := Some(OfAction(action))),
                     [Note(0, Fine, WaitingFor(run.step, action.tool, OfAction(action)))], AtHead))
    case Returned(action, CallOk(output, attempts, cached)) =>
      var run' := CheckpointRun(run, output);
      Some(Plan(run', [Note(0, Fine,
          Checkpointed(run.step, attempts, run'.step, cached, OfOutput(output), OfContext(run'.context)))], AtHead))
    case Returned(action, CallFailed(code, _, _)) => FailPlan(run, code, Bare, false)
    case Failing(code, detail) => FailPlan(run, code, detail, false)
    case Denying(step, digest, actor, reason) =>
      if !run.status.WaitingApproval? then None
      else Some(Plan(Ended(run, ApprovalDeniedCode, Reasoned(reason), false),
                     [Note(0, Error, ApprovalDenied(step, digest, actor, reason)),
                      Note(0, Error, RunFailed(Failure(ApprovalDeniedCode, Reasoned(reason))))], Leaving))
    case _ => None
  }

  /** Try the planned save; losing the lease or the version race ends the worker. */
  function Commit(cfg: Config, s: State, token: Token, now: int): Option<State> {
    if token !in s.workers then None
    else
      var w := s.workers[token];
      match Planned(cfg, w)
      case None => None
      case Some(plan) =>
        match SaveOwned(s.t, plan.run, plan.notes, token, w.run.version, now)
        case Err(_) => Some(s.(workers := s.workers[token := w.(pc := Leaving)]))
        case Ok(t) =>
          Some(s.(t := t, workers := s.workers[token := Worker(plan.next, t.run)], saves := s.saves + [token]))
  }

  // ---------------------------------------------------------------- steps that only read

  /** The worker's next position when its next act changes no row.  `choice` is what the
      policy returns; None is an exception. */
  function Thought(cfg: Config, t: Tables, w: Worker, choice: Option<Action>): Option<Pc> {
    var run := w.run;
    match w.pc
    case AtEntry => if Terminal(run.status) then Some(AtHead) else None
    case AtHead =>
      if !run.status.Running? then Some(Leaving)
      else if run.pendingAction.Some? then Some(Chosen(run.pendingAction.value))
      else None
    case Invoked => Some(if choice.Some? then Chosen(choice.value)
        else Failing(PolicyError, Explained("PolicyExhaustedError")))
    case Announced(action) =>
      if !action.CallTool? then None
      else
        var stable := Stabilise(run.step, action);
        if PreflightCode(cfg.faults, stable).Some? then None
        else Some(if RequiresApproval(stable.tool) then Consulting(stable) else Cleared(stable))
    case Consulting(action) =>
      if !action.CallTool? then None
      else if run.step !in t.approvals then Some(Pausing(action))
      else if t.approvals[run.step].digest != OfAction(action) then Some(Failing(ApprovalMismatch, Bare))
      else if !t.approvals[run.step].allow then Some(Failing(ApprovalDeniedCode, Bare))
      else Some(Cleared(action))
    case Cleared(action) =>
      if !action.CallTool? then None
      else
        var failure, consent := PreflightCode(cfg.faults, action), ConsentCode(t.approvals, run.step, action);
        Some(if failure.Some? then Failing(failure.value, Bare)
             else if consent.Some? then Failing(consent.value, Bare)
             else if action.key.None? then Attempting(action, 1, None)
             else Calling(action))
    case Settling(action, result, None) => Some(Returned(action, result))
    case Cancelling(_, None) => Some(Leaving)
    case Denying(_, _, _, _) => if run.status.WaitingApproval? then None else Some(Leaving)
    case _ => None
  }

  function Think(cfg: Config, s: State, token: Token, choice: Option<Action>): Option<State> {
    if token !in s.workers then None
    else
      match Thought(cfg, s.t, s.workers[token], choice)
      case None => None
      case Some(pc) => Some(s.(workers := s.workers[token := s.workers[token].(pc := pc)]))
  }

  /** `next_action` is entered: the reservation is spent. */
  function Invoke(s: State, token: Token): Option<State> {
    if token !in s.workers || !s.workers[token].pc.Reserved? then None
    else Some(s.(workers := s.workers[token := s.workers[token].(pc := Invoked)],
                 tickets := s.tickets + [s.workers[token].run.policyCalls]))
  }

  // ---------------------------------------------------------------- events outside any lease

  datatype Saying =
    | Plain
    | SayFault(kind: FaultKind)
    | SayRejected
    | SaySucceeded(output: Output)
    | SayFailed(code: Code, transient: bool)
    | SayCancelled

  datatype Speech = Speech(note: Note, next: Pc)

  /** An event a worker appends without its lease being looked at.  An attempt gets a span of
      its own, drawn from the event counter. */
  function Said(cfg: Config, w: Worker, counter: nat, saying: Saying): Option<Speech> {
    var run := w.run;
    match w.pc
    case AtEntry => if run.status.Running? then Some(Speech(Note(0, Fine, RunRunning(Status.Running)), AtHead))
        else None
    case Chosen(action) => Some(Speech(Note(0, Fine, PolicyAction(run.step, action)), Announced(action)))
    case Announced(action) =>
      if !action.CallTool? then None
      else
        var stable := Stabilise(run.step, action);
        var failure := PreflightCode(cfg.faults, stable);
        if failure.None? then None
        else Some(Speech(Note(0, Error, PreflightFailed(run.step, stable.tool, OfAction(stable), failure.value)),
                         Failing(failure.value, Bare)))
    case Attempting(action, n, claim) =>
      if !action.CallTool? then None
      else if saying.SayCancelled? && n > 1
          then Some(Speech(Note(0, Error, RetryCancelled(action.tool, n - 1)), Cancelling(action, claim)))
      else Some(Speech(Started(AttemptId(run.step, action.tool, n), counter + 1),
          InAttempt(action, n, claim, counter + 1)))
    case InAttempt(action, n, claim, span) =>
      if !action.CallTool? then None
      else
        var id := AttemptId(run.step, action.tool, n);
        (match saying
         case SayFault(kind) => Some(Speech(Note(span, Error, FaultInjected(id, kind)), w.pc))
         case SayRejected => Some(Speech(Note(span, Error, OutputRejected(id)), w.pc))
         case SaySucceeded(output) => Some(Speech(SucceededNote(id, span, output),
             Settling(action, CallOk(output, n, false), claim)))
         case SayFailed(code, transient) =>
           Some(Speech(FailedNote(id, span, code, transient),
                       if transient && n < Limit(run.mode) then Attempting(action, n + 1, claim)
                       else Settling(action, CallFailed(code, n, transient), claim)))
         case SayCancelled =>
           Some(Speech(Note(span, Error, AttemptClosed(id, ClosedCancelled, None, None, None)),
               Cancelling(action, claim)))
         case Plain => None)
    case _ => None
  }

  function Say(cfg: Config, s: State, token: Token, saying: Saying): Option<State> {
    if token !in s.workers then None
    else
      match Said(cfg, s.workers[token], s.t.counter, saying)
      case None => None
      case Some(speech) =>
        Some(s.(t := Append(s.t, speech.note), workers := s.workers[token := s.workers[token].(pc := speech.next)]))
  }

  // ---------------------------------------------------------------- tool claims

  function ClaimKey(cfg: Config, s: State, token: Token, claim: Token, now: int): Option<State> {
    if token !in s.workers || claim in s.claimTokens || !s.workers[token].pc.Calling? then None
    else
      var w := s.workers[token];
      var action := w.pc.action;
      if !action.CallTool? || action.key.None? then None
      else
        var (t, answer) := ClaimTool(s.t, action.key.value, claim, OfRequest(action.tool, action.args), true, now,
            cfg.claimSeconds);
        var next := if Granted(answer, claim) then Attempting(action, 1, Some(claim))
            else Returned(action, Unclaimed(action, answer));
        Some(s.(t := t, claimTokens := s.claimTokens + {claim}, workers := s.workers[token := w.(pc := next)]))
  }

  /** Complete or fail the claim.  A failure that can no longer be recorded is an exception. */
  function Settle(s: State, token: Token): Option<State> {
    if token !in s.workers then None
    else
      var w := s.workers[token];
      match w.pc
      case Settling(action, result, Some(claim)) =>
        if !action.CallTool? || action.key.None? then None
        else if result.CallOk? then
          var (t, settled) := SettleCall(s.t, action, result, claim);
          Some(s.(t := t, workers := s.workers[token := w.(pc := Returned(action, settled))]))
        else
          (match FailTool(s.t, action.key.value, claim, FailureDisposition(action.tool, result.retryable))
           case Ok(t) => Some(s.(t := t, workers := s.workers[token := w.(pc := Returned(action, result))]))
           case Err(_) => Some(s.(workers := s.workers[token := w.(pc := Leaving)])))
      case Cancelling(action, Some(claim)) =>
        if !action.CallTool? || action.key.None? then None
        else
          (match FailTool(s.t, action.key.value, claim, Disposition.Retryable)
           case Ok(t) => Some(s.(t := t, workers := s.workers[token := w.(pc := Leaving)]))
           case Err(_) => Some(s.(workers := s.workers[token := w.(pc := Leaving)])))
      case _ => None
  }

  // ---------------------------------------------------------------- leases, decisions, crashes

  /** `claim_run_execution` under a token no execution used before. */
  function Begin(cfg: Config, s: State, token: Token, now: int, pc: Pc): Option<State> {
    if token in s.tokens then None
    else
      match ClaimRun(s.t, token, now, cfg.leaseSeconds)
      case Err(_) => Some(s.(tokens := s.tokens + {token}))
      case Ok(t) => Some(s.(t := t, tokens := s.tokens + {token}, workers := s.workers[token := Worker(pc, t.run)]))
  }

  /** `_deny` runs after its decision row exists, for the step and digest it read. */
  predicate MayDeny(t: Tables, pc: Pc) {
    && pc.Denying? && pc.step in t.approvals
    && !t.approvals[pc.step].allow && t.approvals[pc.step].digest == pc.digest
  }

  datatype Step =
    | DoBegin(token: Token, now: int)
    | DoBeginDenial(token: Token, now: int, pc: Pc)
    | DoCommit(token: Token, now: int)
    | DoThink(token: Token, choice: Option<Action>)
    | DoInvoke(token: Token)
    | DoSay(token: Token, saying: Saying)
    | DoClaim(token: Token, claim: Token, now: int)
    | DoSettle(token: Token)
    | DoRenew(token: Token, now: int)
    | DoRelease(token: Token)
    | DoAbort(token: Token)
    | DoCrash(token: Token)
    | DoDecide(step: nat, row: ApprovalRow)
    | DoReject(cause: string)

  /** The state after one step; None when the step is not possible. */
  function Next(cfg: Config, s: State, step: Step): Option<State> {
    match step
    case DoBegin(token, now) => Begin(cfg, s, token, now, AtEntry)
    case DoBeginDenial(token, now, pc) => if MayDeny(s.t, pc) then Begin(cfg, s, token, now, pc) else None
    case DoCommit(token, now) => Commit(cfg, s, token, now)
    case DoThink(token, choice) => Think(cfg, s, token, choice)
    case DoInvoke(token) => Invoke(s, token)
    case DoSay(token, saying) => Say(cfg, s, token, saying)
    case DoClaim(token, claim, now) => ClaimKey(cfg, s, token, claim, now)
    case DoSettle(token) => Settle(s, token)
    case DoRenew(token, now) =>
      (match RenewRun(s.t, token, now, cfg.leaseSeconds)
       case Ok(t) => Some(s.(t := t))
       case Err(_) => Some(s))
    case DoRelease(token) =>
      if token !in s.workers || !s.workers[token].pc.Leaving? then None
      else
        var gone := s.(workers := s.workers - {token});
        (match ReleaseRun(s.t, token)
         case Ok(t) => Some(gone.(t := t))
         case Err(_) => Some(gone))
    case DoAbort(token) =>
      if token !in s.workers then None else Some(s.(workers := s.workers[token := s.workers[token].(pc := Leaving)]))
    case DoCrash(token) => if token !in s.workers then None else Some(s.(workers := s.workers - {token}))
    case DoDecide(at, row) =>
      (match Record(s.t, at, row, true)
       case Ok(t) => Some(s.(t := t))
       case Err(_) => Some(s))
    case DoReject(cause) => Some(s.(t := Append(s.t, Note(0, Error, RequestRejected(cause)))))
  }

  function Execution(cfg: Config, s: State, steps: seq<Step>): Option<State> {
    if steps == [] then Some(s)
    else
      match Execution(cfg, s, steps[..|steps| - 1])
      case None => None
      case Some(m) => Next(cfg, m, steps[|steps| - 1])
  }
}
