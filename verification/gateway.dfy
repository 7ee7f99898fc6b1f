/** The tool gateway: stabilise, preflight, claim, attempt, settle (tools/gateway.py). */
module Gateway {
  import opened Domain
  import opened Rows
  import opened Store

  datatype CallResult =
    | CallOk(output: Output, attempts: nat, cached: bool)
    | CallFailed(code: Code, attempts: nat, retryable: bool)

  /** `max_attempts`: one in fragile mode, the definitions' default of two in resilient mode. */
  function Limit(mode: Mode): nat {
    if mode.Fragile? then 1 else 2
  }

  /** A write without a key gets one derived from the run's cursor, the tool and its arguments. */
  function Stabilise(step: nat, action: Action): (stable: Action)
    requires action.CallTool?
    ensures stable.CallTool? && stable.tool == action.tool && stable.args == action.args
    ensures action.key.Some? ==> stable == action
    ensures IsWrite(action.tool) ==> stable.key.Some?
    ensures !IsWrite(action.tool) ==> stable == action
  {
    if action.key.Some? || !(IsWrite(action.tool) || RequiresApproval(action.tool)) then action
    else action.(key := Some(Derived(step, action.tool, action.args)))
  }

  predicate PlanRegistered(faults: seq<FaultRule>) {
    forall i :: 0 <= i < |faults| ==> Registered(faults[i].tool)
  }

  /** The part of `preflight` that needs no approval, in its order. */
  function PreflightCode(faults: seq<FaultRule>, action: Action): Option<Code>
    requires action.CallTool?
  {
    if !Registered(action.tool) then Some(UnknownTool)
    else if !ValidInput(action.tool, action.args) then Some(InvalidInput)
    else if !PlanRegistered(faults) then Some(InvalidFaultPlan)
    else if (IsWrite(action.tool) || RequiresApproval(action.tool)) && action.key.None?
        then Some(IdempotencyKeyRequired)
    else None
  }

  /** The approval part of `preflight`, read from the decision rows at this moment. */
  function ConsentCode(approvals: map<nat, ApprovalRow>, step: nat, action: Action): Option<Code>
    requires action.CallTool?
  {
    if !RequiresApproval(action.tool) then None
    else if step !in approvals then Some(ApprovalRequired)
    else if approvals[step].digest != OfAction(action) then Some(ApprovalMismatch)
    else if !approvals[step].allow then Some(ApprovalDeniedCode)
    else None
  }

  /** How a failed call leaves its claim: writes are never handed out again. */
  function FailureDisposition(tool: Tool, retryable: bool): Disposition {
    if IsWrite(tool) then Indeterminate else if retryable then Retryable else TerminalFailure
  }

  // ---------------------------------------------------------------- the retry loop

  /** What one attempt records between its start and its end. */
  function AttemptNotes(id: AttemptId, span: Span, fault: Option<FaultKind>, output: Output): seq<Note> {
    match fault
    case None => [Started(id, span), SucceededNote(id, span, output)]
    case Some(kind) =>
      if Transient(kind)
      then [Started(id, span), Note(span, Error, FaultInjected(id, kind)), FailedNote(id, span, FaultCode(kind), true)]
      else [Started(id, span), Note(span, Error, FaultInjected(id, kind)), Note(span, Error, OutputRejected(id)),
            FailedNote(id, span, InvalidOutput, false)]
  }

  function OneAttempt(t: Tables, action: Action, faults: seq<FaultRule>, n: nat): Tables
    requires action.CallTool?
  {
    AppendAll(t, AttemptNotes(AttemptId(t.run.step, action.tool, n), t.counter + 1,
                              FaultFor(faults, action.tool, n), BackendOutput(action.tool, action.args)))
  }

  /** The attempts from the `n`-th on: stop at the first success or final failure. */
  function AttemptsFrom(t: Tables, action: Action, faults: seq<FaultRule>, n: nat): (Tables, CallResult)
    requires action.CallTool? && Registered(action.tool) && 1 <= n <= Limit(t.run.mode)
    decreases Limit(t.run.mode) - n
  {
    var fault := FaultFor(faults, action.tool, n);
    var t' := OneAttempt(t, action, faults, n);
    if fault.None? then (t', CallOk(BackendOutput(action.tool, action.args), n, false))
    else if Transient(fault.value) && n < Limit(t.run.mode) then
      AppendAllKeeps(t, AttemptNotes(AttemptId(t.run.step, action.tool, n), t.counter + 1, fault,
          BackendOutput(action.tool, action.args)));
      AttemptsFrom(t', action, faults, n + 1)
    else (t', CallFailed(FaultCode(fault.value), n, Transient(fault.value)))
  }

  /** `call`, for a worker that is not cancelled, with the given tool-claim token. */
  function Call(t: Tables, action: Action, faults: seq<FaultRule>, token: Token, now: int, seconds: nat): (Tables,
      CallResult)
    requires action.CallTool?
  {
    var failure := PreflightCode(faults, action);
    var consent := ConsentCode(t.approvals, t.run.step, action);
    if failure.Some? then (t, CallFailed(failure.value, 0, false))
    else if consent.Some? then (t, CallFailed(consent.value, 0, false))
    else if action.key.None? then AttemptsFrom(t, action, faults, 1)
    else
      var (claimed, answer) := ClaimTool(t, action.key.value, token, OfRequest(action.tool, action.args), true, now,
          seconds);
      if Granted(answer, token) then
        var (tried, result) := AttemptsFrom(claimed, action, faults, 1);
        SettleCall(tried, action, result, token)
      else (claimed, Unclaimed(action, answer))
  }

  /** The answer to a caller that was not granted the claim. */
  function Unclaimed(action: Action, answer: ClaimAnswer): CallResult
    requires action.CallTool?
  {
    match answer
    case ConflictsWith(_) => CallFailed(IdempotencyConflict, 0, false)
    case Holds(row) =>
      match row.state
      case Completed =>
        if row.payload.Some? && ValidOutput(action.tool, row.payload.value) then CallOk(row.payload.value, 0, true)
        else CallFailed(InvalidCachedOutput, 0, false)
      case FailedClaim =>
        CallFailed(if row.disposition == Some(Indeterminate) then IdempotencyIndeterminate
            else IdempotencyTerminal, 0, false)
      case Claimed => CallFailed(IdempotencyInProgress, 0, false)
  }

  /** `_persist_claim_result`.  A failure that can no longer be recorded leaves `call` by an
      exception; the caller's result then never exists, and the tables are unchanged. */
  function SettleCall(t: Tables, action: Action, result: CallResult, token: Token): (Tables, CallResult)
    requires action.CallTool? && action.key.Some?
  {
    match result
    case CallOk(output, attempts, _) =>
      (match CompleteTool(t, action.key.value, output, token)
       case Ok(t') => (t', result)
       case Err(_) =>
         (t, CallFailed(if IsWrite(action.tool) then IdempotencyIndeterminate else ResultSerializationFailed,
                        attempts, !IsWrite(action.tool))))
    case CallFailed(_, _, retryable) =>
      (match FailTool(t, action.key.value, token, FailureDisposition(action.tool, retryable))
       case Ok(t') => (t', result)
       case Err(_) => (t, result))
  }

  /** The same attempt, event by event. */
  lemma {:induction false} OneAttemptByEvents(t: Tables, action: Action, faults: seq<FaultRule>, n: nat)
    requires action.CallTool?
    ensures var id, span, fault := AttemptId(t.run.step, action.tool, n), t.counter + 1,
            FaultFor(faults, action.tool, n);
            var started := Append(t, Started(id, span));
            var output := BackendOutput(action.tool, action.args);
            OneAttempt(t, action, faults, n) == (
              if fault.None? then Append(started, SucceededNote(id, span, output))
              else
                var faulted := Append(started, Note(span, Error, FaultInjected(id, fault.value)));
                if Transient(fault.value) then Append(faulted, FailedNote(id, span, FaultCode(fault.value), true))
                else Append(Append(faulted, Note(span, Error, OutputRejected(id))),
                    FailedNote(id, span, InvalidOutput, false)))
  {
    hide Append;
    var id, span, fault := AttemptId(t.run.step, action.tool, n), t.counter + 1, FaultFor(faults, action.tool, n);
    var output := BackendOutput(action.tool, action.args);
    match fault {
      case None => AppendTwo(t, Started(id, span), SucceededNote(id, span, output));
      case Some(kind) =>
        if Transient(kind) {
          AppendThree(t, Started(id, span), Note(span, Error, FaultInjected(id, kind)),
              FailedNote(id, span, FaultCode(kind), true));
        } else {
          AppendFour(t, Started(id, span), Note(span, Error, FaultInjected(id, kind)),
              Note(span, Error, OutputRejected(id)),
                     FailedNote(id, span, InvalidOutput, false));
        }
    }
  }

  lemma OneAttemptKeepsRun(t: Tables, action: Action, faults: seq<FaultRule>, n: nat)
    requires action.CallTool?
    ensures var t' := OneAttempt(t, action, faults, n); t' == t.(counter := t'.counter, events := t'.events)
  {
    AppendAllKeeps(t, AttemptNotes(AttemptId(t.run.step, action.tool, n), t.counter + 1,
                                   FaultFor(faults, action.tool, n), BackendOutput(action.tool, action.args)));
  }

  lemma OneAttemptGrows(t: Tables, action: Action, faults: seq<FaultRule>, n: nat)
    requires action.CallTool?
    ensures var t' := OneAttempt(t, action, faults, n);
            t'.counter >= t.counter && |t.events| <= |t'.events| && t'.events[..|t.events|] == t.events
  {
    AppendAllKeeps(t, AttemptNotes(AttemptId(t.run.step, action.tool, n), t.counter + 1,
                                   FaultFor(faults, action.tool, n), BackendOutput(action.tool, action.args)));
  }
}
