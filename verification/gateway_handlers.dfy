/** A gateway call under any handler (tools/gateway.py): it may answer, time out, raise or be
    cancelled, and so may the wait before a retry.  `Gateway` has the same call for the incident
    backend, whose handlers answer at once. */
module GatewayHandlers {
  import opened Domain
  import opened Evidence
  import opened Rows
  import opened Store
  import opened Gateway

  /** What a handler does when it is invoked; `Raised` is one of the gateway's own errors, with its
      code, and `Crashed` any other exception. */
  datatype Handled = Gave(output: Output) | TimedOut | Raised(code: Code, transient: bool) | Crashed | Interrupted

  /** One round of the loop: the handler, and whether the wait after it is left alone. */
  datatype Moment = Moment(handled: Handled, rested: bool)

  datatype Ending = Works(output: Output) | Rejects | Breaks(code: Code, transient: bool) | Cancels

  /** How an attempt ends; an injected fault keeps the handler from running. */
  function EndingOf(tool: Tool, fault: Option<FaultKind>, handled: Handled): Ending {
    match fault
    case Some(kind) => if Transient(kind) then Breaks(FaultCode(kind), true) else Rejects
    case None =>
      match handled
      case Gave(output) => if ValidOutput(tool, output) then Works(output) else Rejects
      case TimedOut => Breaks(ToolTimeout, true)
      case Raised(code, transient) => Breaks(code, transient)
      case Crashed => Breaks(ToolExecutionFailed, false)
      case Interrupted => Cancels
  }

  function CancelledNote(id: AttemptId, span: Span): Note {
    Note(span, Error, AttemptClosed(id, ClosedCancelled, None, None, None))
  }

  function Opened(t: Tables, id: AttemptId, fault: Option<FaultKind>): Tables {
    var started := Append(t, Started(id, t.counter + 1));
    if fault.Some? then Append(started, Note(t.counter + 1, Error, FaultInjected(id, fault.value))) else started
  }

  function Closed(t: Tables, id: AttemptId, span: Span, ending: Ending): Tables {
    match ending
    case Works(output) => Append(t, SucceededNote(id, span, output))
    case Rejects => Append(Append(t, Note(span, Error, OutputRejected(id))), FailedNote(id, span, InvalidOutput, false))
    case Breaks(code, transient) => Append(t, FailedNote(id, span, code, transient))
    case Cancels => Append(t, CancelledNote(id, span))
  }

  function Trial(t: Tables, action: Action, faults: seq<FaultRule>, n: nat, handled: Handled): Tables
    requires action.CallTool?
  {
    var id, fault := AttemptId(t.run.step, action.tool, n), FaultFor(faults, action.tool, n);
    Closed(Opened(t, id, fault), id, t.counter + 1, EndingOf(action.tool, fault, handled))
  }

  /** The attempts from the `n`-th on; None is a cancellation. */
  function Tries(t: Tables, action: Action, faults: seq<FaultRule>, moments: seq<Moment>, n: nat): (Tables,
      Option<CallResult>)
    requires action.CallTool? && 1 <= n <= Limit(t.run.mode) <= |moments|
    decreases Limit(t.run.mode) - n
  {
    var t' := Trial(t, action, faults, n, moments[n - 1].handled);
    match EndingOf(action.tool, FaultFor(faults, action.tool, n), moments[n - 1].handled)
    case Works(output) => (t', Some(CallOk(output, n, false)))
    case Rejects => (t', Some(CallFailed(InvalidOutput, n, false)))
    case Cancels => (t', None)
    case Breaks(code, transient) =>
      if !transient || n == Limit(t.run.mode) then (t', Some(CallFailed(code, n, transient)))
      else if !moments[n - 1].rested then (Append(t', Note(0, Error, RetryCancelled(action.tool, n))), None)
      else Tries(t', action, faults, moments, n + 1)
  }

  /** `call`, with the given tool-claim token; None is a cancellation. */
  function CallWith(t: Tables, action: Action, faults: seq<FaultRule>, moments: seq<Moment>, token: Token, now: int,
      seconds: nat)
    : (Tables, Option<CallResult>)
    requires action.CallTool? && Limit(t.run.mode) <= |moments|
  {
    var failure := PreflightCode(faults, action);
    var consent := ConsentCode(t.approvals, t.run.step, action);
    if failure.Some? then (t, Some(CallFailed(failure.value, 0, false)))
    else if consent.Some? then (t, Some(CallFailed(consent.value, 0, false)))
    else if action.key.None? then Tries(t, action, faults, moments, 1)
    else
      var (claimed, answer) := ClaimTool(t, action.key.value, token, OfRequest(action.tool, action.args), true, now,
          seconds);
      if Granted(answer, token)
      then Settled(Tries(claimed, action, faults, moments, 1), action, token)
      else (claimed, Some(Unclaimed(action, answer)))
  }

  /** The claim after the attempts: completed, failed, or given back by a cancelled caller. */
  function Settled(tried: (Tables, Option<CallResult>), action: Action, token: Token): (Tables, Option<CallResult>)
    requires action.CallTool? && action.key.Some?
  {
    match tried.1
    case Some(result) =>
      var (t, settled) := SettleCall(tried.0, action, result, token);
      (t, Some(settled))
    case None =>
      match FailTool(tried.0, action.key.value, token, Retryable)
      case Ok(t) => (t, None)
      case Err(_) => tried
  }

  // ---------------------------------------------------------------- what the attempts look like

  lemma TrialKeeps(t: Tables, action: Action, faults: seq<FaultRule>, n: nat, handled: Handled)
    requires action.CallTool?
    ensures var t' := Trial(t, action, faults, n, handled); t' == t.(counter := t'.counter, events := t'.events)
  {
    hide EndingOf, FaultFor;
  }

  lemma {:induction false} TriesKeep(t: Tables, action: Action, faults: seq<FaultRule>, moments: seq<Moment>, n: nat)
    requires action.CallTool? && 1 <= n <= Limit(t.run.mode) <= |moments|
    ensures var t' := Tries(t, action, faults, moments, n).0; t' == t.(counter := t'.counter, events := t'.events)
    decreases Limit(t.run.mode) - n
  {
    hide Trial, EndingOf, FaultFor;
    var moment := moments[n - 1];
    TrialKeeps(t, action, faults, n, moment.handled);
    var ending := EndingOf(action.tool, FaultFor(faults, action.tool, n), moment.handled);
    if ending.Breaks? && ending.transient && n < Limit(t.run.mode) && moment.rested {
      TriesKeep(Trial(t, action, faults, n, moment.handled), action, faults, moments, n + 1);
    }
  }

  /** The closings of a chain of attempts: numbered on from `n`, all but the last failed in a way
      that can pass, the last as the result says. */
  predicate Chained(closings: seq<Attempt>, step: nat, tool: Tool, n: nat, limit: nat, result: Option<CallResult>) {
    && 1 <= |closings| <= limit - n + 1
    && (forall i :: 0 <= i < |closings| ==> closings[i].id == AttemptId(step, tool, n + i))
    && (forall i :: 0 <= i < |closings| - 1 ==> closings[i].closing.ClosedError? && closings[i].transient == Some(true))
    && var last := closings[|closings| - 1];
       match result
       case Some(CallOk(_, attempts, cached)) => last.closing.ClosedOk? && attempts == last.id.attempt && !cached
       case Some(CallFailed(code, attempts, retryable)) =>
         && last.closing.ClosedError? && last.code == Some(code) && last.transient == Some(retryable)
         && attempts == last.id.attempt
         && (retryable ==> attempts == limit)
       case None =>
         || last.closing.ClosedCancelled?
         || (last.closing.ClosedError? && last.transient == Some(true) && last.id.attempt < limit)
  }

  function ClosingWith(id: AttemptId, ending: Ending): Attempt {
    match ending
    case Works(_) => Attempt(id, ClosedOk, None, None)
    case Rejects => Attempt(id, ClosedError, Some(InvalidOutput), Some(false))
    case Breaks(code, transient) => Attempt(id, ClosedError, Some(code), Some(transient))
    case Cancels => Attempt(id, ClosedCancelled, None, None)
  }

  lemma {:induction false} TrialCloses(t: Tables, action: Action, faults: seq<FaultRule>, n: nat, handled: Handled)
    requires action.CallTool?
    ensures var id := AttemptId(t.run.step, action.tool, n);
            AttemptEvidence(Trial(t, action, faults, n, handled).events)
            == AttemptEvidence(t.events)
                + [ClosingWith(id, EndingOf(action.tool, FaultFor(faults, action.tool, n), handled))]
  {
    hide AttemptEvidence, EndingOf, FaultFor, Append;
    var id, fault, span := AttemptId(t.run.step, action.tool, n), FaultFor(faults, action.tool, n), t.counter + 1;
    AppendEvidence(t, Started(id, span));
    if fault.Some? {
      AppendEvidence(Append(t, Started(id, span)), Note(span, Error, FaultInjected(id, fault.value)));
    }
    var inside := Opened(t, id, fault);
    match EndingOf(action.tool, fault, handled)
    case Works(output) => AppendEvidence(inside, SucceededNote(id, span, output));
    case Rejects =>
      AppendEvidence(inside, Note(span, Error, OutputRejected(id)));
      AppendEvidence(Append(inside, Note(span, Error, OutputRejected(id))), FailedNote(id, span, InvalidOutput, false));
    case Breaks(code, transient) => AppendEvidence(inside, FailedNote(id, span, code, transient));
    case Cancels => AppendEvidence(inside, CancelledNote(id, span));
  }

  /** Whatever the handlers do, the attempts of one call form such a chain, within the limit of
      the mode, and only a transient failure is ever retried. */
  lemma {:induction false} AttemptsAreChained(t: Tables, action: Action, faults: seq<FaultRule>, moments: seq<Moment>,
      n: nat) returns (closings: seq<Attempt>)
    requires action.CallTool? && 1 <= n <= Limit(t.run.mode) <= |moments|
    ensures var (t', result) := Tries(t, action, faults, moments, n);
            && AttemptEvidence(t'.events) == AttemptEvidence(t.events) + closings
            && Chained(closings, t.run.step, action.tool, n, Limit(t.run.mode), result)
    decreases Limit(t.run.mode) - n
  {
    hide AttemptEvidence, EndingOf, FaultFor, Trial;
    var moment, id := moments[n - 1], AttemptId(t.run.step, action.tool, n);
    var ending, t1 := EndingOf(action.tool, FaultFor(faults, action.tool, n), moment.handled),
        Trial(t, action, faults, n, moment.handled);
    TrialCloses(t, action, faults, n, moment.handled);
    TrialKeeps(t, action, faults, n, moment.handled);
    closings := [ClosingWith(id, ending)];
    if ending.Breaks? && ending.transient && n < Limit(t.run.mode) {
      if moment.rested {
        var rest := AttemptsAreChained(t1, action, faults, moments, n + 1);
        closings := closings + rest;
        assert AttemptEvidence(t.events) + closings == (AttemptEvidence(t.events) + [ClosingWith(id, ending)]) + rest;
      } else {
        AppendEvidence(t1, Note(0, Error, RetryCancelled(action.tool, n)));
      }
    }
  }

  // ---------------------------------------------------------------- the incident backend

  /** The backend answers every invocation at once, and nobody interrupts it. */
  function BackendMoments(action: Action): seq<Moment>
    requires action.CallTool?
  {
    var answer := Moment(Gave(BackendOutput(action.tool, action.args)), true);
    [answer, answer]
  }

  lemma BackendTrial(t: Tables, action: Action, faults: seq<FaultRule>, n: nat)
    requires action.CallTool? && Registered(action.tool)
    ensures Trial(t, action, faults, n, Gave(BackendOutput(action.tool, action.args)))
            == OneAttempt(t, action, faults, n)
  {
    OneAttemptByEvents(t, action, faults, n);
    assert ValidOutput(action.tool, BackendOutput(action.tool, action.args));
    hide OneAttempt, FaultFor, BackendOutput, ValidOutput, Append;
  }

  lemma {:induction false} BackendTries(t: Tables, action: Action, faults: seq<FaultRule>, n: nat)
    requires action.CallTool? && Registered(action.tool) && 1 <= n <= Limit(t.run.mode)
    ensures var (t', result) := AttemptsFrom(t, action, faults, n);
            Tries(t, action, faults, BackendMoments(action), n) == (t', Some(result))
    decreases Limit(t.run.mode) - n
  {
    BackendTrial(t, action, faults, n);
    OneAttemptKeepsRun(t, action, faults, n);
    assert ValidOutput(action.tool, BackendOutput(action.tool, action.args));
    hide OneAttempt, Trial, FaultFor, BackendOutput, ValidOutput;
    var fault := FaultFor(faults, action.tool, n);
    if fault.Some? && Transient(fault.value) && n < Limit(t.run.mode) {
      BackendTries(OneAttempt(t, action, faults, n), action, faults, n + 1);
    }
  }

  /** With the backend's handlers the call is the one of `Gateway`. */
  lemma BackendCall(t: Tables, action: Action, faults: seq<FaultRule>, token: Token, now: int, seconds: nat)
    requires action.CallTool?
    ensures var (t', result) := Call(t, action, faults, token, now, seconds);
            CallWith(t, action, faults, BackendMoments(action), token, now, seconds) == (t', Some(result))
  {
    hide AttemptsFrom, Tries, SettleCall, Unclaimed, ConsentCode;
    if PreflightCode(faults, action).None? {
      BackendTries(t, action, faults, 1);
      if action.key.Some? {
        BackendTries(ClaimTool(t, action.key.value, token, OfRequest(action.tool, action.args), true, now, seconds).0,
            action, faults, 1);
      }
    }
  }

  // ---------------------------------------------------------------- the same in place

  /** `_attempts`: the retry loop over the store, recording each event as it happens. */
  method Attempts(store: RunStore, id: RunId, action: Action, faults: seq<FaultRule>, moments: seq<Moment>)
    returns (result: Option<CallResult>)
    requires id in store.rows && action.CallTool? && Registered(action.tool)
    requires Limit(store.rows[id].run.mode) <= |moments|
    modifies store
    ensures var (t, expected) := Tries(old(store.rows)[id], action, faults, moments, 1);
            store.rows == old(store.rows)[id := t] && result == expected
  {
    hide Trial, EndingOf;
    var attempt, max := 1, if store.rows[id].run.mode.Fragile? then 1 else 2;
    ghost var rows0 := store.rows;
    while true
      invariant 1 <= attempt <= max == Limit(rows0[id].run.mode)
      invariant id in store.rows && store.rows[id].run == rows0[id].run && store.rows == rows0[id := store.rows[id]]
      invariant Tries(store.rows[id], action, faults, moments, attempt) == Tries(rows0[id], action, faults, moments, 1)
      decreases max - attempt
    {
      TrialKeeps(store.rows[id], action, faults, attempt, moments[attempt - 1].handled);
      var ending := AttemptOnce(store, id, action, faults, attempt, moments[attempt - 1].handled);
      match ending {
        case Works(output) => return Some(CallOk(output, attempt, false));
        case Rejects => return Some(CallFailed(InvalidOutput, attempt, false));
        case Cancels => return None;
        case Breaks(code, transient) =>
          if !transient || attempt == max {
            return Some(CallFailed(code, attempt, transient));
          }
          if !moments[attempt - 1].rested {
            var event := store.AppendEvent(id, Note(0, Error, RetryCancelled(action.tool, attempt)));
            return None;
          }
      }
      attempt := attempt + 1;
    }
  }

  /** The body of the loop: one attempt, its injected fault, its output check and its closing. */
  method AttemptOnce(store: RunStore, id: RunId, action: Action, faults: seq<FaultRule>, attempt: nat, handled: Handled)
    returns (ending: Ending)
    requires id in store.rows && action.CallTool? && Registered(action.tool)
    modifies store
    ensures store.rows == old(store.rows)[id := Trial(old(store.rows)[id], action, faults, attempt, handled)]
    ensures ending == EndingOf(action.tool, FaultFor(faults, action.tool, attempt), handled)
  {
    hide Append;
    var aid, span := AttemptId(store.rows[id].run.step, action.tool, attempt), store.rows[id].counter + 1;
    var event := store.AppendEvent(id, Started(aid, span));
    var injected, raw := FaultFor(faults, action.tool, attempt), MALFORMED;
    if injected.Some? {
      event := store.AppendEvent(id, Note(span, Error, FaultInjected(aid, injected.value)));
      if Transient(injected.value) {
        event := store.AppendEvent(id, FailedNote(aid, span, FaultCode(injected.value), true));
        return Breaks(FaultCode(injected.value), true);
      }
    } else {
      match handled {
        case Gave(output) => raw := output;
        case TimedOut =>
          event := store.AppendEvent(id, FailedNote(aid, span, ToolTimeout, true));
          return Breaks(ToolTimeout, true);
        case Raised(code, transient) =>
          event := store.AppendEvent(id, FailedNote(aid, span, code, transient));
          return Breaks(code, transient);
        case Crashed =>
          event := store.AppendEvent(id, FailedNote(aid, span, ToolExecutionFailed, false));
          return Breaks(ToolExecutionFailed, false);
        case Interrupted =>
          event := store.AppendEvent(id, CancelledNote(aid, span));
          return Cancels;
      }
    }
    if !ValidOutput(action.tool, raw) {
      event := store.AppendEvent(id, Note(span, Error, OutputRejected(aid)));
      event := store.AppendEvent(id, FailedNote(aid, span, InvalidOutput, false));
      return Rejects;
    }
    event := store.AppendEvent(id, SucceededNote(aid, span, raw));
    ending := Works(raw);
  }

  /** `call`: preflight with approval, claim, attempts, settle; a cancelled call gives its claim back. */
  method CallTool(store: RunStore, id: RunId, action: Action, faults: seq<FaultRule>, moments: seq<Moment>,
      token: Token, now: int)
    returns (result: Option<CallResult>)
    requires id in store.rows && action.CallTool? && Limit(store.rows[id].run.mode) <= |moments|
    modifies store
    ensures var (t, expected) := CallWith(old(store.rows)[id], action, faults, moments, token, now, store.claimSeconds);
            store.rows == old(store.rows)[id := t] && result == expected
  {
    hide Tries, ClaimTool;
    var run, approvals := store.rows[id].run, store.rows[id].approvals;
    var failure := PreflightCode(faults, action);
    if failure.Some? {
      return Some(CallFailed(failure.value, 0, false));
    }
    var consent := ConsentCode(approvals, run.step, action);
    if consent.Some? {
      return Some(CallFailed(consent.value, 0, false));
    }
    if action.key.None? {
      result := Attempts(store, id, action, faults, moments);
      return;
    }
    GrantClaims(store.rows[id], action.key.value, token, OfRequest(action.tool, action.args), true, now,
        store.claimSeconds);
    var claim := store.ClaimToolExecution(id, action.key.value, token, OfRequest(action.tool, action.args), true, now);
    var answer := claim.value;
    if !Granted(answer, token) {
      return Some(Unclaimed(action, answer));
    }
    TriesKeep(store.rows[id], action, faults, moments, 1);
    result := Attempts(store, id, action, faults, moments);
    assert ClaimedBy(store.rows[id], action.key.value, token);
    if result.None? {
      var given := store.FailToolExecution(id, action.key.value, token, Retryable);
    } else {
      var settled := PersistClaimResult(store, id, action, result.value, token);
      result := Some(settled.value);
    }
  }

  lemma GrantClaims(t: Tables, key: Key, token: Token, request: Digest, reclaim: bool, now: int, seconds: nat)
    ensures var (t', answer) := ClaimTool(t, key, token, request, reclaim, now, seconds);
            t'.run == t.run && (Granted(answer, token) ==> ClaimedBy(t', key, token))
  {
  }

  /** `_persist_claim_result`.  A failure that can no longer be recorded is an exception. */
  method PersistClaimResult(store: RunStore, id: RunId, action: Action, tried: CallResult, token: Token)
    returns (settled: Result<CallResult, StoreError>)
    requires id in store.rows && action.CallTool? && action.key.Some?
    modifies store
    ensures tried.CallFailed? && !ClaimedBy(old(store.rows)[id], action.key.value, token) ==>
              settled == Err(ClaimLost) && store.rows == old(store.rows)
    ensures tried.CallOk? || ClaimedBy(old(store.rows)[id], action.key.value, token) ==>
              var (t', expected) := SettleCall(old(store.rows)[id], action, tried, token);
              store.rows == old(store.rows)[id := t'] && settled == Ok(expected)
  {
    match tried
    case CallOk(output, attempts, _) =>
      var done := store.CompleteToolResult(id, action.key.value, output, token);
      settled := Ok(if done.Ok? then tried
                    else CallFailed(if IsWrite(action.tool) then IdempotencyIndeterminate
                        else ResultSerializationFailed,
                                    attempts, !IsWrite(action.tool)));
    case CallFailed(_, _, retryable) =>
      var done := store.FailToolExecution(id, action.key.value, token, FailureDisposition(action.tool, retryable));
      settled := if done.Ok? then Ok(tried) else Err(done.error);
  }
}
