/** What the retry loop's events do to the gate's ledger of attempts. */
module AgreementLedger {
  import opened Domain
  import opened Evidence
  import opened Gate

  /** Everything the ledger knows lies before attempt `n` of the call. */
  predicate Before(id: AttemptId, call: Call, n: nat) {
    id.step < call.step || (CallOf(id) == call && 1 <= id.attempt < n)
  }

  predicate AllBefore(l: Ledger, call: Call, n: nat) {
    && (forall i :: 0 <= i < |l.attempts| ==> Before(l.attempts[i].id, call, n))
    && (forall i :: 0 <= i < |l.faults| ==> Before(l.faults[i].id, call, n))
    && (forall i :: 0 <= i < |l.rejections| ==> Before(l.rejections[i], call, n))
    && (forall id :: id in l.startedAt ==> Before(id, call, n))
    && (forall c :: c in l.last ==> c.step < call.step || c == call)
  }

  /** Everything the ledger knows lies below the step. */
  predicate AllBelow(l: Ledger, step: nat) {
    && (forall i :: 0 <= i < |l.attempts| ==> l.attempts[i].id.step < step)
    && (forall i :: 0 <= i < |l.faults| ==> l.faults[i].id.step < step)
    && (forall i :: 0 <= i < |l.rejections| ==> l.rejections[i].step < step)
    && (forall id :: id in l.startedAt ==> id.step < step)
    && (forall c :: c in l.last ==> c.step < step)
  }

  lemma BelowNext(l: Ledger, call: Call, n: nat)
    requires AllBefore(l, call, n)
    ensures AllBelow(l, call.step + 1)
  {
  }

  /** The last attempt recorded is the newest of its call, and may be retried. */
  predicate Retryable(l: Ledger, call: Call, n: nat) {
    && call in l.last && l.last[call].id == AttemptId(call.step, call.tool, n)
    && l.last[call].closing.ClosedError? && l.last[call].transient == Some(true)
    && l.attempts != [] && l.attempts[|l.attempts| - 1] == l.last[call]
  }

  /** Attempt `n` of the call may start now. */
  predicate Trying(l: Ledger, call: Call, n: nat) {
    && 1 <= n && l.started == {} && AttemptSemantics(l) && AllBefore(l, call, n)
    && (if n == 1 then call !in l.last else Retryable(l, call, n - 1))
  }

  /** The ledger after one whole attempt, under an injected fault or none. */
  function Attempted(l: Ledger, sequence: nat, span: Span, id: AttemptId, fault: Option<FaultKind>): Ledger {
    var open := Open(l, sequence, span, id);
    match fault
    case None => Close(open, Attempt(id, ClosedOk, None, None))
    case Some(kind) =>
      Close(open.(faults := open.faults + [Fault(id, kind)],
                  rejections := if Transient(kind) then open.rejections else open.rejections + [id]),
            Attempt(id, ClosedError, Some(FaultCode(kind)), Some(Transient(kind))))
  }

  predicate StartsKept(l: Ledger, l': Ledger, step: nat, after: nat) {
    && (forall id :: id in l.startedAt ==> id in l'.startedAt && l'.startedAt[id] == l.startedAt[id])
    && (forall id :: id in l'.startedAt && id !in l.startedAt ==> id.step == step && l'.startedAt[id] > after)
  }

  // ---------------------------------------------------------------- the semantics survive

  lemma FreshCounts(l: Ledger, call: Call, n: nat, id: AttemptId)
    requires AllBefore(l, call, n) && id == AttemptId(call.step, call.tool, n)
    ensures forall kind :: multiset(l.faults)[Fault(id, kind)] == 0
    ensures multiset(l.rejections)[id] == 0
  {
    assert forall i :: 0 <= i < |l.faults| ==> l.faults[i].id != id;
    assert forall kind :: Fault(id, kind) !in l.faults;
    assert id !in l.rejections;
  }

  lemma CountsElsewhere(faults: seq<Fault>, fault: Fault, other: AttemptId)
    requires other != fault.id
    ensures forall kind :: multiset(faults + [fault])[Fault(other, kind)] == multiset(faults)[Fault(other, kind)]
  {
  }

  lemma SameExplained(l: Ledger, l': Ledger, a: Attempt)
    requires AttemptExplained(l.faults, l.rejections, a)
    requires forall kind :: multiset(l'.faults)[Fault(a.id, kind)] == multiset(l.faults)[Fault(a.id, kind)]
    requires multiset(l'.rejections)[a.id] == multiset(l.rejections)[a.id]
    ensures AttemptExplained(l'.faults, l'.rejections, a)
  {
    assert MatchingFaults(l'.faults, a) == MatchingFaults(l.faults, a);
  }

  lemma NewExplained(l: Ledger, call: Call, n: nat, sequence: nat, span: Span, id: AttemptId, fault: Option<FaultKind>)
    requires AllBefore(l, call, n) && id == AttemptId(call.step, call.tool, n)
    ensures var l' := Attempted(l, sequence, span, id, fault);
            AttemptExplained(l'.faults, l'.rejections, l'.attempts[|l.attempts|])
  {
    FreshCounts(l, call, n, id);
    hide AllBefore;
    var l' := Attempted(l, sequence, span, id, fault);
    if fault.Some? && Transient(fault.value) {
      var a := l'.attempts[|l.attempts|];
      assert multiset(l'.faults) == multiset(l.faults) + multiset{Fault(id, fault.value)};
      assert MatchingFaults(l'.faults, a) == {fault.value};
    }
  }

  lemma OldExplained(l: Ledger, call: Call, n: nat, sequence: nat, span: Span, id: AttemptId, fault: Option<FaultKind>,
      i: nat)
    requires AllBefore(l, call, n) && id == AttemptId(call.step, call.tool, n)
    requires i < |l.attempts| && AttemptExplained(l.faults, l.rejections, l.attempts[i])
    ensures var l' := Attempted(l, sequence, span, id, fault);
            AttemptExplained(l'.faults, l'.rejections, l.attempts[i])
  {
    var l' := Attempted(l, sequence, span, id, fault);
    assert Before(l.attempts[i].id, call, n);
    hide AllBefore, AttemptExplained;
    if fault.Some? {
      CountsElsewhere(l.faults, Fault(id, fault.value), l.attempts[i].id);
    }
    SameExplained(l, l', l.attempts[i]);
  }

  lemma {:induction false} OfCallNone(attempts: seq<Attempt>, call: Call)
    requires forall i :: 0 <= i < |attempts| ==> CallOf(attempts[i].id) != call
    ensures OfCall(attempts, call) == []
  {
    if attempts != [] {
      OfCallNone(attempts[..|attempts| - 1], call);
    }
  }

  lemma {:induction false} OfCallAppend(attempts: seq<Attempt>, a: Attempt, call: Call)
    ensures OfCall(attempts + [a], call) == OfCall(attempts, call) + (if CallOf(a.id) == call then [a] else [])
  {
    assert (attempts + [a])[..|attempts|] == attempts;
  }

  /** The new attempt continues the chain of its own call and touches no other. */
  lemma {:induction false} ChainsExtend(l: Ledger, call: Call, n: nat, a: Attempt, other: Call)
    requires Trying(l, call, n) && a.id == AttemptId(call.step, call.tool, n)
    requires RetryChain(OfCall(l.attempts, other))
    ensures RetryChain(OfCall(l.attempts + [a], other))
  {
    OfCallAppend(l.attempts, a, other);
    if other == call {
      if n == 1 {
        forall i | 0 <= i < |l.attempts|
          ensures CallOf(l.attempts[i].id) != call
        {
          assert Before(l.attempts[i].id, call, n);
        }
        OfCallNone(l.attempts, call);
      } else {
        assert Retryable(l, call, n - 1);
        hide AttemptSemantics, AllBefore;
        var last := l.attempts[|l.attempts| - 1];
        OfCallAppend(l.attempts[..|l.attempts| - 1], last, call);
        assert l.attempts == l.attempts[..|l.attempts| - 1] + [last];
      }
    }
  }

  lemma SemanticsExtend(l: Ledger, call: Call, n: nat, sequence: nat, span: Span, id: AttemptId,
      fault: Option<FaultKind>)
    requires Trying(l, call, n) && id == AttemptId(call.step, call.tool, n)
    ensures AttemptSemantics(Attempted(l, sequence, span, id, fault))
  {
    var l' := Attempted(l, sequence, span, id, fault);
    var a := l'.attempts[|l.attempts|];
    assert l'.attempts == l.attempts + [a] && a.id == id;
    hide Attempted, RetryChain, AttemptExplained, OfCall;
    forall i | 0 <= i < |l'.attempts|
      ensures AttemptExplained(l'.faults, l'.rejections, l'.attempts[i])
      ensures RetryChain(OfCall(l'.attempts, CallOf(l'.attempts[i].id)))
    {
      if i < |l.attempts| {
        assert AttemptExplained(l.faults, l.rejections, l.attempts[i]);
        OldExplained(l, call, n, sequence, span, id, fault, i);
        ChainsExtend(l, call, n, a, CallOf(l.attempts[i].id));
      } else {
        NewExplained(l, call, n, sequence, span, id, fault);
        OwnChain(l, call, n, a);
      }
    }
  }

  lemma {:induction false} OwnChain(l: Ledger, call: Call, n: nat, a: Attempt)
    requires Trying(l, call, n) && a.id == AttemptId(call.step, call.tool, n)
    ensures RetryChain(OfCall(l.attempts + [a], call))
  {
    if n == 1 {
      forall i | 0 <= i < |l.attempts|
        ensures CallOf(l.attempts[i].id) != call
      {
        assert Before(l.attempts[i].id, call, n);
      }
      OfCallNone(l.attempts, call);
    } else {
      assert Retryable(l, call, n - 1);
      assert RetryChain(OfCall(l.attempts, CallOf(l.attempts[|l.attempts| - 1].id)));
    }
    ChainsExtend(l, call, n, a, call);
  }

  lemma AllBeforeExtend(l: Ledger, call: Call, n: nat, sequence: nat, span: Span, id: AttemptId,
      fault: Option<FaultKind>)
    requires 1 <= n && AllBefore(l, call, n) && id == AttemptId(call.step, call.tool, n)
    ensures AllBefore(Attempted(l, sequence, span, id, fault), call, n + 1)
  {
  }

  /** One attempt later: everything is before the next one, which may start if this one
      failed in a way that can pass. */
  lemma AttemptedView(l: Ledger, call: Call, n: nat, sequence: nat, span: Span, id: AttemptId, fault: Option<FaultKind>)
    requires Trying(l, call, n) && id == AttemptId(call.step, call.tool, n)
    ensures var l' := Attempted(l, sequence, span, id, fault);
            && l'.started == {} && AttemptSemantics(l') && AllBefore(l', call, n + 1)
            && l'.attempts != [] && l'.attempts[|l'.attempts| - 1].closing.ClosedOk? == fault.None?
            && (fault.Some? ==> l'.attempts[|l'.attempts| - 1].closing.ClosedError?)
            && id in l'.startedAt && l'.startedAt == l.startedAt[id := sequence]
            && (fault.Some? && Transient(fault.value) ==> Trying(l', call, n + 1))
  {
    SemanticsExtend(l, call, n, sequence, span, id, fault);
    AllBeforeExtend(l, call, n, sequence, span, id, fault);
    hide AttemptSemantics, AllBefore;
  }
}
