/** The vocabulary shared by every other module: actions, tools, runs and trace events.

    JSON payloads are typed here.  A payload that lacks a field, or carries one of the wrong
    type, is the body `Unreadable`.  SHA-256 over canonical JSON is an injective constructor of
    `Digest`, and the well-known error-code strings are the named constructors of `Code`. */
module Domain {
  datatype Option<+T> = None | Some(value: T)

  datatype Result<+T, +E> = Ok(value: T) | Err(error: E)

  type Token = nat
  type Span = nat

  datatype Mode = Fragile | Resilient

  // ---------------------------------------------------------------- tools

  datatype Tool = GetServiceHealth | SearchRecentLogs | GetDeployment | PrepareRollback | Unlisted(name: string)

  /** The `arguments` dictionary: `{}`, `{"deployment_id": <str>}`, or anything else. */
  datatype Arguments = NoArguments | ForDeployment(id: string) | OtherArguments(text: string)

  datatype LogEntry = LogEntry(level: string, message: string)

  /** One constructor per output model; `Unmodelled` is a value no output model accepts. */
  datatype Output =
    | Health(service: string, health: string)
    | Logs(entries: seq<LogEntry>)
    | Deployment(id: string, version: string)
    | Rollback(id: string, prepared: bool)
    | Unmodelled(text: string)

  const MALFORMED := Unmodelled("__arl_malformed_output__")
  const DEPLOYMENT_ID := "deploy-2026-09-04-001"

  predicate Registered(tool: Tool) {
    !tool.Unlisted?
  }

  predicate IsWrite(tool: Tool) {
    tool.PrepareRollback?
  }

  predicate RequiresApproval(tool: Tool) {
    tool.PrepareRollback?
  }

  /** The tool's input model accepts the arguments. */
  predicate ValidInput(tool: Tool, args: Arguments) {
    match tool
    case PrepareRollback => args.ForDeployment? && 1 <= |args.id| <= 128
    case Unlisted(_) => false
    case _ => args.NoArguments?
  }

  /** The tool's output model accepts the value. */
  predicate ValidOutput(tool: Tool, output: Output) {
    match tool
    case GetServiceHealth => output.Health?
    case SearchRecentLogs => output.Logs?
    case GetDeployment => output.Deployment?
    case PrepareRollback => output.Rollback?
    case Unlisted(_) => false
  }

  /** What the incident backend answers to a valid first call. */
  function BackendOutput(tool: Tool, args: Arguments): Output {
    match tool
    case GetServiceHealth => Health("checkout", "degraded")
    case SearchRecentLogs => Logs([LogEntry("ERROR", "checkout timeout contacting ledger")])
    case GetDeployment => Deployment(DEPLOYMENT_ID, "2026.09.04.1")
    case PrepareRollback => Rollback(if args.ForDeployment? then args.id else "", true)
    case Unlisted(_) => MALFORMED
  }

  /** The independent fixture the gate compares with: only the golden deployment is known. */
  function FixtureOutput(tool: Tool, args: Arguments): Option<Output> {
    match tool
    case GetServiceHealth => if args.NoArguments? then Some(Health("checkout", "degraded")) else None
    case SearchRecentLogs =>
      if args.NoArguments? then Some(Logs([LogEntry("ERROR", "checkout timeout contacting ledger")])) else None
    case GetDeployment =>
      if args.NoArguments? then Some(Deployment(DEPLOYMENT_ID, "2026.09.04.1")) else None
    case PrepareRollback =>
      if args == ForDeployment(DEPLOYMENT_ID) then Some(Rollback(DEPLOYMENT_ID, true)) else None
    case Unlisted(_) => None
  }

  // ---------------------------------------------------------------- codes and faults

  datatype Code =
    | ToolTimeout | RateLimited | ToolFault | InvalidOutput | ToolExecutionFailed
    | UnknownTool | InvalidInput | InvalidFaultPlan | IdempotencyKeyRequired
    | ApprovalRequired | ApprovalMismatch | ApprovalDeniedCode
    | IdempotencyConflict | IdempotencyIndeterminate | IdempotencyTerminal | IdempotencyInProgress
    | InvalidCachedOutput | ResultSerializationFailed
    | ActionBudgetExhausted | PolicyError | ScenarioExhausted
    | MissingTerminalOutcome
    | Named(text: string)

  datatype FaultKind = Timeout | RateLimit | ToolError | MalformedOutput

  predicate Transient(kind: FaultKind) {
    !kind.MalformedOutput?
  }

  function FaultCode(kind: FaultKind): Code {
    match kind
    case Timeout => ToolTimeout
    case RateLimit => RateLimited
    case ToolError => ToolFault
    case MalformedOutput => InvalidOutput
  }

  datatype FaultRule = FaultRule(tool: Tool, attempt: nat, kind: FaultKind)

  /** First matching rule wins. */
  function FaultFor(rules: seq<FaultRule>, tool: Tool, attempt: nat): Option<FaultKind> {
    if rules == [] then None
    else if rules[0].tool == tool && rules[0].attempt == attempt then Some(rules[0].kind)
    else FaultFor(rules[1..], tool, attempt)
  }

  // ---------------------------------------------------------------- actions

  /** The actor of the approval that the evaluation runner supplies. */
  const REVIEWER := "evaluation-reviewer"

  /** An idempotency key: supplied by the policy, or derived by the runtime from the run's
      cursor, the tool and the arguments. */
  datatype Key = Explicit(text: string) | Derived(step: nat, tool: Tool, args: Arguments)

  datatype Action =
    | CallTool(tool: Tool, args: Arguments, key: Option<Key>)
    | Finish(summary: string, refs: seq<string>, outcome: Code)
    | Fail(code: Code, explanation: string)

  datatype Kind = CallKind | FinishKind | FailKind

  function KindOf(action: Action): Kind {
    match action
    case CallTool(_, _, _) => CallKind
    case Finish(_, _, _) => FinishKind
    case Fail(_, _) => FailKind
  }

  /** The context dictionary: everything but `tool_results`, and `tool_results` by step. */
  datatype Context = Context(base: string, results: map<nat, Output>)

  datatype Digest =
    | OfAction(action: Action)
    | OfOutput(output: Output)
    | OfContext(context: Context)
    | OfRequest(tool: Tool, args: Arguments)
    | OtherDigest(text: string)

  /** A scripted workflow with its fault plan. */
  datatype Scenario = Scenario(
    actions: seq<Action>, faults: seq<FaultRule>, context: Context, approvalSupplied: bool)

  // ---------------------------------------------------------------- runs

  datatype Status = Queued | Running | WaitingApproval | Succeeded | Failed

  predicate Terminal(status: Status) {
    status.Succeeded? || status.Failed?
  }

  predicate Allowed(before: Status, after: Status) {
    match before
    case Queued => after.Running?
    case Running => !after.Queued?
    case WaitingApproval => after.Running? || after.Failed?
    case Succeeded => false
    case Failed => false
  }

  datatype FailureDetail = Bare | Explained(text: string) | Reasoned(reason: Option<string>)

  datatype RunResult =
    | Outcome(outcome: Code, summary: string, refs: seq<string>)
    | Failure(code: Code, detail: FailureDetail)
    | OtherResult(text: string)

  datatype Run = Run(
    mode: Mode,
    status: Status,
    step: nat,
    policyCalls: nat,
    context: Context,
    pendingApproval: bool,
    pendingAction: Option<Action>,
    pendingDigest: Option<Digest>,
    result: Option<RunResult>,
    version: nat)

  function NewRun(mode: Mode, context: Context): Run {
    Run(mode, Queued, 0, 0, context, false, None, None, None, 0)
  }

  // ---------------------------------------------------------------- trace events

  datatype AttemptId = AttemptId(step: nat, tool: Tool, attempt: nat)

  datatype Closing = ClosedOk | ClosedError | ClosedCancelled

  datatype Body =
    | RunRunning(from: Status)
    | PolicyAction(step: nat, action: Action)
    | AttemptStarted(id: AttemptId)
    | AttemptClosed(id: AttemptId, closing: Closing, code: Option<Code>, transient: Option<bool>,
        output: Option<Output>)
    | FaultInjected(id: AttemptId, kind: FaultKind)
    | OutputRejected(id: AttemptId)
    | PreflightFailed(step: nat, tool: Tool, digest: Digest, failure: Code)
    | WaitingFor(step: nat, tool: Tool, digest: Digest)
    | ApprovalRecorded(step: nat, digest: Digest, actor: string, allow: bool)
    | ApprovalDenied(step: nat, digest: Digest, actor: string, reason: Option<string>)
    | Checkpointed(step: nat, attempt: nat, next: nat, cached: bool, outputDigest: Digest, contextDigest: Digest)
    | RetryCancelled(tool: Tool, after: nat)
    | RunSucceeded(result: RunResult)
    | RunFailed(result: RunResult)
    | RequestRejected(cause: string)
    | Unreadable(text: string)

  datatype EventStatus = Fine | Error | OtherStatus(text: string)

  /** An event as the recorder builds it; the store adds the sequence number. */
  datatype Note = Note(span: Span, status: EventStatus, body: Body)

  datatype Event = Event(sequence: nat, note: Note)

  function Started(id: AttemptId, span: Span): Note {
    Note(span, Fine, AttemptStarted(id))
  }

  function SucceededNote(id: AttemptId, span: Span, output: Output): Note {
    Note(span, Fine, AttemptClosed(id, ClosedOk, None, None, Some(output)))
  }

  function FailedNote(id: AttemptId, span: Span, code: Code, transient: bool): Note {
    Note(span, Error, AttemptClosed(id, ClosedError, Some(code), Some(transient), None))
  }
}
