/** What a caller of the gateway is told, and what the claim of its key allows afterwards
    (tools/gateway.py over storage/store.py). */
module GatewayOutcomes {
  import opened Domain
  import opened Evidence
  import opened Rows
  import opened Gateway
  import opened GatewayHandlers
  import opened Claims

  // ---------------------------------------------------------------- before a call

  /** Keys derived by the runtime never meet: not those of two steps, two tools or two requests, and
      no derived key meets one that the policy spells out. */
  lemma DerivedKeysAreApart(i: nat, a: Action, j: nat, b: Action)
    requires a.CallTool? && b.CallTool? && a.key.None? && b.key.None? && IsWrite(a.tool) && IsWrite(b.tool)
    ensures Stabilise(i, a).key == Stabilise(j, b).key <==> i == j && a.tool == b.tool && a.args == b.args
    ensures Stabilise(i, a).key.Some? && Stabilise(i, a).key.value.Derived?
  {
  }

  /** Preflight reports the first thing wrong: the tool, the input, the plan.  A stable action never
      lacks its key. */
  lemma PreflightReportsTheFirst(faults: seq<FaultRule>, step: nat, action: Action)
    requires action.CallTool?
    ensures var code := PreflightCode(faults, Stabilise(step, action));
            && (code == Some(UnknownTool) <==> !Registered(action.tool))
            && (code == Some(InvalidInput) <==> Registered(action.tool) && !ValidInput(action.tool, action.args))
            && (code == Some(InvalidFaultPlan) <==>
                  && Registered(action.tool) && ValidInput(action.tool, action.args)
                  && exists i :: 0 <= i < |faults| && !Registered(faults[i].tool))
            && (code.Some? ==> code.value.UnknownTool? || code.value.InvalidInput? || code.value.InvalidFaultPlan?)
    ensures PreflightCode([], action) == Some(IdempotencyKeyRequired)
            <==> && Registered(action.tool) && ValidInput(action.tool, action.args)
                 && action.key.None? && (IsWrite(action.tool) || RequiresApproval(action.tool))
  {
  }

  /** Consent is missing, given to another action, refused, or there: in that order. */
  lemma ConsentReportsTheRow(approvals: map<nat, ApprovalRow>, step: nat, action: Action)
    requires action.CallTool? && RequiresApproval(action.tool)
    ensures ConsentCode(approvals, step, action) == Some(ApprovalRequired) <==> step !in approvals
    ensures step in approvals ==>
              var row, code := approvals[step], ConsentCode(approvals, step, action);
              && (code.None? <==> row.digest == OfAction(action) && row.allow)
              && (code == Some(ApprovalMismatch) <==> row.digest != OfAction(action))
              && (code == Some(ApprovalDeniedCode) <==> row.digest == OfAction(action) && !row.allow)
  {
  }

  /** The rule at `i` is the first one for this attempt of the tool. */
  predicate FirstPlan(rules: seq<FaultRule>, i: int, tool: Tool, attempt: nat, kind: FaultKind) {
    && 0 <= i < |rules| && rules[i] == FaultRule(tool, attempt, kind)
    && forall j :: 0 <= j < i ==> rules[j].tool != tool || rules[j].attempt != attempt
  }

  /** Of the rules for one attempt of a tool the first decides, and no rule for another attempt or tool
      ever does. */
  lemma {:induction false} FirstRuleDecides(rules: seq<FaultRule>, tool: Tool, attempt: nat, kind: FaultKind)
    ensures FaultFor(rules, tool, attempt) == Some(kind)
            <==> exists i :: FirstPlan(rules, i, tool, attempt, kind)
  {
    if rules != [] {
      FirstRuleDecides(rules[1..], tool, attempt, kind);
      if FaultFor(rules, tool, attempt) == Some(kind) {
        if rules[0] == FaultRule(tool, attempt, kind) {
          assert FirstPlan(rules, 0, tool, attempt, kind);
        } else {
          var i :| FirstPlan(rules[1..], i, tool, attempt, kind);
          assert forall j :: 1 <= j < i + 1 ==> rules[j] == rules[1..][j - 1];
          assert FirstPlan(rules, i + 1, tool, attempt, kind);
        }
      }
      if exists i :: FirstPlan(rules, i, tool, attempt, kind) {
        var i :| FirstPlan(rules, i, tool, attempt, kind);
        if i > 0 {
          assert forall j :: 0 <= j < i - 1 ==> rules[1..][j] == rules[j + 1];
          assert FirstPlan(rules[1..], i - 1, tool, attempt, kind);
        }
      }
    }
  }

  // ---------------------------------------------------------------- what handlers lead to

  /** The only attempt of a fragile call, under no fault: each behaviour of its handler has its own
      answer, and only a time-out or an error that says so is worth repeating. */
  lemma {:induction false} HandlersAreAnswered(t: Tables, action: Action, faults: seq<FaultRule>, moments: seq<Moment>)
    requires action.CallTool? && t.run.mode.Fragile? && moments != [] && FaultFor(faults, action.tool, 1).None?
    ensures var result := Tries(t, action, faults, moments, 1).1;
            match moments[0].handled
            case Gave(output) =>
              result == Some(if ValidOutput(action.tool, output) then CallOk(output, 1, false)
                  else CallFailed(InvalidOutput, 1, false))
            case TimedOut => result == Some(CallFailed(ToolTimeout, 1, true))
            case Raised(code, transient) => result == Some(CallFailed(code, 1, transient))
            case Crashed => result == Some(CallFailed(ToolExecutionFailed, 1, false))
            case Interrupted => result == None
  {
    hide Trial, ValidOutput;
  }

  /** A resilient call repeats exactly a first attempt that failed for a reason that can pass, after
      its wait; the second attempt then decides like the only one of a fragile call. */
  lemma {:induction false} SecondTriesDecide(t: Tables, action: Action, faults: seq<FaultRule>, moments: seq<Moment>)
    requires action.CallTool? && t.run.mode.Resilient? && |moments| >= 2
    requires FaultFor(faults, action.tool, 1).None? && FaultFor(faults, action.tool, 2).None?
    ensures var result := Tries(t, action, faults, moments, 1).1;
            match moments[0].handled
            case Gave(output) =>
              result == Some(if ValidOutput(action.tool, output) then CallOk(output, 1, false)
                  else CallFailed(InvalidOutput, 1, false))
            case Crashed => result == Some(CallFailed(ToolExecutionFailed, 1, false))
            case Interrupted => result == None
            case Raised(code, false) => result == Some(CallFailed(code, 1, false))
            case _ =>
              if !moments[0].rested then result == None
              else
                match moments[1].handled
                case Gave(output) =>
                  result == Some(if ValidOutput(action.tool, output) then CallOk(output, 2, false)
                      else CallFailed(InvalidOutput, 2, false))
                case TimedOut => result == Some(CallFailed(ToolTimeout, 2, true))
                case Raised(code, transient) => result == Some(CallFailed(code, 2, transient))
                case Crashed => result == Some(CallFailed(ToolExecutionFailed, 2, false))
                case Interrupted => result == None
  {
    TrialKeeps(t, action, faults, 1, moments[0].handled);
    var t1 := Trial(t, action, faults, 1, moments[0].handled);
    var second := Tries(t1, action, faults, moments, 2);
    hide Trial, ValidOutput, FaultFor;
  }

  /** The events of one attempt after its start, in the order and with the codes that the trace has. */
  function Told(id: AttemptId, span: Span, fault: Option<FaultKind>, handled: Handled): seq<Note> {
    var rejected := [Note(span, Error, OutputRejected(id)), FailedNote(id, span, InvalidOutput, false)];
    match (fault, handled)
    case (Some(MalformedOutput), _) => [Note(span, Error, FaultInjected(id, MalformedOutput))] + rejected
    case (Some(kind), _) =>
      [Note(span, Error, FaultInjected(id, kind)), FailedNote(id, span, FaultCode(kind), true)]
    case (None, Gave(output)) => if ValidOutput(id.tool, output) then [SucceededNote(id, span, output)] else rejected
    case (None, TimedOut) => [FailedNote(id, span, ToolTimeout, true)]
    case (None, Raised(code, transient)) => [FailedNote(id, span, code, transient)]
    case (None, Crashed) => [FailedNote(id, span, ToolExecutionFailed, false)]
    case (None, Interrupted) => [Note(span, Error, AttemptClosed(id, ClosedCancelled, None, None, None))]
  }

  /** An attempt is told whole and in one span that no earlier event has: its start, the fault that was
      injected, the rejection of an output, and its one closing. */
  lemma {:induction false} AttemptsAreToldWhole(t: Tables, action: Action, faults: seq<FaultRule>, n: nat,
      handled: Handled)
    requires action.CallTool? && Contiguous(t)
    ensures var id, span := AttemptId(t.run.step, action.tool, n), t.counter + 1;
            var notes := [Started(id, span)] + Told(id, span, FaultFor(faults, action.tool, n), handled);
            var t' := Trial(t, action, faults, n, handled);
            && t' == t.(counter := t'.counter, events := t'.events) && Contiguous(t')
            && |t'.events| == |t.events| + |notes| && t'.events[..|t.events|] == t.events
            && (forall i :: 0 <= i < |notes| ==> t'.events[|t.events| + i].note == notes[i])
  {
    var id, span := AttemptId(t.run.step, action.tool, n), t.counter + 1;
    TrialAppends(t, action, faults, n, handled);
    AppendAllKeeps(t, [Started(id, span)] + Told(id, span, FaultFor(faults, action.tool, n), handled));
    hide Trial, Told, FaultFor, AppendAll;
  }

  lemma {:induction false} TrialAppends(t: Tables, action: Action, faults: seq<FaultRule>, n: nat, handled: Handled)
    requires action.CallTool?
    ensures var id, span := AttemptId(t.run.step, action.tool, n), t.counter + 1;
            Trial(t, action, faults, n, handled)
            == AppendAll(t, [Started(id, span)] + Told(id, span, FaultFor(faults, action.tool, n), handled))
  {
    hide FaultFor, ValidOutput, Append, AppendAll;
    var id, span, fault := AttemptId(t.run.step, action.tool, n), t.counter + 1, FaultFor(faults, action.tool, n);
    var told := Told(id, span, fault, handled);
    if |told| == 1 {
      AppendTwo(t, Started(id, span), told[0]);
      assert [Started(id, span)] + told == [Started(id, span), told[0]];
    } else if |told| == 2 {
      AppendThree(t, Started(id, span), told[0], told[1]);
      assert [Started(id, span)] + told == [Started(id, span), told[0], told[1]];
    } else {
      AppendFour(t, Started(id, span), told[0], told[1], told[2]);
      assert [Started(id, span)] + told == [Started(id, span), told[0], told[1], told[2]];
    }
  }

  /** A cancelled call says so last: its attempt was closed as cancelled, or the wait after a failed one
      was cut short; every other call ends with the closing of its last attempt. */
  lemma {:induction false} CancellationsAreTold(t: Tables, action: Action, faults: seq<FaultRule>, moments: seq<Moment>,
      n: nat)
    requires action.CallTool? && 1 <= n <= Limit(t.run.mode) <= |moments|
    ensures var (t', result) := Tries(t, action, faults, moments, n);
            && t'.events != []
            && var last := t'.events[|t'.events| - 1].note.body;
               match result
               case Some(answer) =>
                 last.AttemptClosed? && !last.closing.ClosedCancelled? && last.id.attempt == answer.attempts
               case None =>
                 || (last.AttemptClosed? && last.closing.ClosedCancelled?)
                 || (last.RetryCancelled? && last.tool == action.tool && n <= last.after < Limit(t.run.mode))
    decreases Limit(t.run.mode) - n
  {
    hide Trial, EndingOf, FaultFor;
    var t1 := Trial(t, action, faults, n, moments[n - 1].handled);
    TrialKeeps(t, action, faults, n, moments[n - 1].handled);
    LastTold(t, action, faults, n, moments[n - 1].handled);
    var ending := EndingOf(action.tool, FaultFor(faults, action.tool, n), moments[n - 1].handled);
    if ending.Breaks? && ending.transient && n < Limit(t.run.mode) && moments[n - 1].rested {
      CancellationsAreTold(t1, action, faults, moments, n + 1);
    }
  }

  lemma {:induction false} LastTold(t: Tables, action: Action, faults: seq<FaultRule>, n: nat, handled: Handled)
    requires action.CallTool?
    ensures var t' := Trial(t, action, faults, n, handled);
            && t'.events != []
            && var last := t'.events[|t'.events| - 1].note.body;
               last.AttemptClosed? && last.id.attempt == n
               && (last.closing.ClosedCancelled?
                   <==> EndingOf(action.tool, FaultFor(faults, action.tool, n), handled).Cancels?)
  {
    hide FaultFor, EndingOf;
  }

  // ---------------------------------------------------------------- what a used key answers

  /** The caller may use the key: nothing in the plan, the input or the approvals stands against it. */
  predicate MayCall(t: Tables, action: Action, faults: seq<FaultRule>) {
    && action.CallTool? && action.key.Some?
    && PreflightCode(faults, action).None? && ConsentCode(t.approvals, t.run.step, action).None?
  }

  /** A key that somebody holds, has completed, or used for another request makes no attempt and
      changes nothing: the caller is told so, or gets the stored output if it still fits the tool. */
  lemma UsedKeysAnswer(t: Tables, action: Action, faults: seq<FaultRule>, moments: seq<Moment>, token: Token, now: int,
      seconds: nat)
    requires MayCall(t, action, faults) && Limit(t.run.mode) <= |moments| && action.key.value in t.claims
    ensures var row, answer := t.claims[action.key.value], CallWith(t, action, faults, moments, token, now, seconds);
            && (row.request != OfRequest(action.tool, action.args) ==>
                  answer == (t, Some(CallFailed(IdempotencyConflict, 0, false))))
            && (row.request == OfRequest(action.tool, action.args) ==>
                 && (row.state.Claimed? && now < row.expires && row.owner != token ==>
                       answer == (t, Some(CallFailed(IdempotencyInProgress, 0, false))))
                 && (row.state.Completed? && row.payload.Some? && ValidOutput(action.tool, row.payload.value) ==>
                       answer == (t, Some(CallOk(row.payload.value, 0, true))))
                 && (row.state.Completed? && (row.payload.None? || !ValidOutput(action.tool, row.payload.value)) ==>
                       answer == (t, Some(CallFailed(InvalidCachedOutput, 0, false))))
                 && (row.state.FailedClaim? && row.disposition == Some(Indeterminate) ==>
                       answer == (t, Some(CallFailed(IdempotencyIndeterminate, 0, false))))
                 && (row.state.FailedClaim? && row.disposition != Some(Indeterminate)
                     && row.disposition != Some(Retryable) ==>
                       answer == (t, Some(CallFailed(IdempotencyTerminal, 0, false)))))
  {
    hide Tries, PreflightCode, ConsentCode, ValidOutput;
  }

  /** A result whose claim was lost on the way is no success: a write may have happened, a read may
      be repeated. */
  lemma LostResultsAreNoSuccess(t: Tables, action: Action, output: Output, attempts: nat, token: Token)
    requires action.CallTool? && action.key.Some? && !ClaimedBy(t, action.key.value, token)
    ensures SettleCall(t, action, CallOk(output, attempts, false), token)
            == (t, if IsWrite(action.tool) then CallFailed(IdempotencyIndeterminate, attempts, false)
                   else CallFailed(ResultSerializationFailed, attempts, true))
  {
  }

  // ---------------------------------------------------------------- what a failed call leaves behind

  /** A call that made an attempt held the claim of its key, and left it as its result says. */
  lemma FailureLeavesRow(t: Tables, action: Action, faults: seq<FaultRule>, moments: seq<Moment>, token: Token,
      now: int,
      seconds: nat)
    requires action.CallTool? && action.key.Some? && Limit(t.run.mode) <= |moments|
    requires var result := CallWith(t, action, faults, moments, token, now, seconds).1;
             result == None || (result.value.CallFailed? && result.value.attempts >= 1)
    ensures MayCall(t, action, faults)
    ensures var (t', result) := CallWith(t, action, faults, moments, token, now, seconds);
            && action.key.value in t'.claims
            && var row := t'.claims[action.key.value];
               && row.request == OfRequest(action.tool, action.args) && row.state.FailedClaim?
               && row.disposition == Some(
                    if result == None then Retryable
                    else if IsWrite(action.tool) then Indeterminate
                    else if result.value.retryable then Retryable else Rows.TerminalFailure)
  {
    var (claimed, answer) := ClaimTool(t, action.key.value, token, OfRequest(action.tool, action.args), true, now,
        seconds);
    TriesKeep(claimed, action, faults, moments, 1);
    TriedAtLeastOnce(claimed, action, faults, moments);
    hide Tries, PreflightCode, ConsentCode, ValidOutput, Settled;
    if Granted(answer, token) {
      SettlingLeavesRow(Tries(claimed, action, faults, moments, 1), action, token);
    }
  }

  /** How the holder of a claim leaves it when its attempts failed or were cancelled. */
  lemma SettlingLeavesRow(tried: (Tables, Option<CallResult>), action: Action, token: Token)
    requires action.CallTool? && action.key.Some? && ClaimedBy(tried.0, action.key.value, token)
    requires var result := Settled(tried, action, token).1; result == None || result.value.CallFailed?
    ensures Settled(tried, action, token).1 == tried.1
    ensures var (t', result) := Settled(tried, action, token);
            && action.key.value in t'.claims
            && var row := t'.claims[action.key.value];
               && row.request == tried.0.claims[action.key.value].request && row.state.FailedClaim?
               && row.disposition == Some(
                    if result == None then Retryable
                    else if IsWrite(action.tool) then Indeterminate
                    else if result.value.retryable then Retryable else Rows.TerminalFailure)
  {
  }

  lemma {:induction false} TriedAtLeastOnce(t: Tables, action: Action, faults: seq<FaultRule>, moments: seq<Moment>)
    requires action.CallTool? && Limit(t.run.mode) <= |moments|
    ensures var result := Tries(t, action, faults, moments, 1).1;
            result.Some? && result.value.CallFailed? ==> result.value.attempts >= 1
  {
    var closings := AttemptsAreChained(t, action, faults, moments, 1);
    hide Tries;
  }

  /** A keyed write whose attempts failed, in whatever way, is never attempted again: whoever calls
      with its key and request later, after any use of the claim in between, is told that nobody
      knows whether it happened. */
  lemma {:induction false} FailedWritesStayUnknown(t: Tables, action: Action, faults: seq<FaultRule>,
      moments: seq<Moment>, token: Token,
      now: int, seconds: nat, ops: seq<ClaimOp>, t2: Tables, plan: seq<FaultRule>, tries: seq<Moment>, other: Token,
      later: int, more: nat)
    requires action.CallTool? && action.key.Some? && IsWrite(action.tool) && Limit(t.run.mode) <= |moments|
    requires var result := CallWith(t, action, faults, moments, token, now, seconds).1;
             result.Some? && result.value.CallFailed? && result.value.attempts >= 1
    requires var t1 := CallWith(t, action, faults, moments, token, now, seconds).0;
             t2.claims == Replay(t1, action.key.value, ops).t.claims
    requires MayCall(t2, action, plan) && Limit(t2.run.mode) <= |tries|
    ensures CallWith(t2, action, plan, tries, other, later, more)
            == (t2, Some(CallFailed(IdempotencyIndeterminate, 0, false)))
  {
    FailureLeavesRow(t, action, faults, moments, token, now, seconds);
    var t1 := CallWith(t, action, faults, moments, token, now, seconds).0;
    ClaimsAreSettledOnce(t1, action.key.value, [], ops);
    assert [] + ops == ops;
    hide CallWith, MayCall, Replay;
    UsedKeysAnswer(t2, action, plan, tries, other, later, more);
  }

  /** A keyed read is another matter: after a final failure its key answers for good, after one that
      can pass the next caller is granted the claim. */
  lemma FailedReadsMayReturn(t: Tables, action: Action, faults: seq<FaultRule>, moments: seq<Moment>, token: Token,
      now: int, seconds: nat, t2: Tables, plan: seq<FaultRule>, tries: seq<Moment>, other: Token, later: int, more: nat)
    requires action.CallTool? && action.key.Some? && !IsWrite(action.tool) && Limit(t.run.mode) <= |moments|
    requires var result := CallWith(t, action, faults, moments, token, now, seconds).1;
             result.Some? && result.value.CallFailed? && result.value.attempts >= 1
    requires t2.claims == CallWith(t, action, faults, moments, token, now, seconds).0.claims
    requires MayCall(t2, action, plan) && Limit(t2.run.mode) <= |tries|
    ensures var retryable := CallWith(t, action, faults, moments, token, now, seconds).1.value.retryable;
            var answer := ClaimTool(t2, action.key.value, other, OfRequest(action.tool, action.args), true, later,
                more).1;
            && (retryable ==> Granted(answer, other))
            && (!retryable ==>
                 CallWith(t2, action, plan, tries, other, later, more)
                     == (t2, Some(CallFailed(IdempotencyTerminal, 0, false))))
  {
    FailureLeavesRow(t, action, faults, moments, token, now, seconds);
    hide CallWith, MayCall;
    UsedKeysAnswer(t2, action, plan, tries, other, later, more);
  }

  // ---------------------------------------------------------------- giving a claim back

  /** A claim given back is granted to whoever asks next, whoever held it before, with a lease of
      its own and nothing left of the old one; but only to a caller that may reclaim. */
  lemma GivenBackIsGrantedAgain(t: Tables, key: Key, token: Token, request: Digest, reclaim: bool, now: int,
      seconds: nat,
      other: Token, later: int, more: nat)
    requires Granted(ClaimTool(t, key, token, request, reclaim, now, seconds).1, token)
    ensures var claimed := ClaimTool(t, key, token, request, reclaim, now, seconds).0;
            && FailTool(claimed, key, token, Retryable).Ok?
            && var freed := FailTool(claimed, key, token, Retryable).value;
               var row := ClaimRow(Claimed, other, request, None, None, later + more);
               && ClaimTool(freed, key, other, request, true, later, more)
                   == (freed.(claims := freed.claims[key := row]), Holds(row))
               && ClaimTool(freed, key, other, request, false, later, more) == (freed, Holds(freed.claims[key]))
               && !Granted(Holds(freed.claims[key]), other)
  {
  }

  /** So a cancelled call can be repeated: uninterrupted and without faults it succeeds. */
  lemma CancelledCallsCanBeRepeated(t: Tables, action: Action, faults: seq<FaultRule>, moments: seq<Moment>,
      token: Token,
      now: int, seconds: nat, t2: Tables, other: Token, later: int, more: nat)
    requires action.CallTool? && Limit(t.run.mode) <= |moments|
    requires CallWith(t, action, faults, moments, token, now, seconds).1 == None
    requires t2.claims == CallWith(t, action, faults, moments, token, now, seconds).0.claims
    requires ConsentCode(t2.approvals, t2.run.step, action).None?
    ensures CallWith(t2, action, [], BackendMoments(action), other, later, more).1
            == Some(CallOk(BackendOutput(action.tool, action.args), 1, false))
  {
    assert PreflightCode(faults, action).None?;
    assert PreflightCode([], action).None?;
    var request := OfRequest(action.tool, action.args);
    if action.key.Some? {
      FailureLeavesRow(t, action, faults, moments, token, now, seconds);
      var claimed := ClaimTool(t2, action.key.value, other, request, true, later, more).0;
      FirstTryWorks(claimed, action);
    } else {
      FirstTryWorks(t2, action);
    }
    hide Tries, PreflightCode, ConsentCode, BackendOutput;
  }

  lemma {:induction false} FirstTryWorks(t: Tables, action: Action)
    requires action.CallTool? && Registered(action.tool)
    ensures Tries(t, action, [], BackendMoments(action), 1).1
            == Some(CallOk(BackendOutput(action.tool, action.args), 1, false))
  {
    assert ValidOutput(action.tool, BackendOutput(action.tool, action.args));
    hide Trial, BackendOutput, ValidOutput;
  }
}
