/** What acceptance says about retries and about the outputs that reach the context. */
module GateRetries {
  import opened Domain
  import opened Evidence
  import opened Gate
  import opened GateSoundness
  import opened GateOrder

  // ---------------------------------------------------------------- accepted prefixes

  /** `h` is the automaton's state after the first `n` events of an accepted case. */
  predicate Prefix(c: Case, frozen: Frozen, n: nat, h: State)
    requires n <= |c.items|
  {
    && ClaimsOf(c, frozen).Some?
    && Fold(ByStep(frozen.actions), frozen.context, c.mode, Events(c.items)[..n]) == Live(h)
  }

  lemma PrefixExists(c: Case, frozen: Frozen, n: nat) returns (h: State)
    requires ClaimsOf(c, frozen).Some? && n <= |c.items|
    ensures Prefix(c, frozen, n, h)
    ensures Anchored(ByStep(frozen.actions), h) && !Abandoned(h) && Serial(h, Events(c.items)[..n])
    ensures Tracks(ByStep(frozen.actions), h, Events(c.items)[..n])
  {
    var plan, events := ByStep(frozen.actions), Events(c.items);
    var g := Fold(plan, frozen.context, c.mode, events).state;
    if Fold(plan, frozen.context, c.mode, events[..n]).Refused? {
      RefusalIsFinal(plan, frozen.context, c.mode, events, n);
    }
    h := Fold(plan, frozen.context, c.mode, events[..n]).state;
    assert !Abandoned(g);
    hide Step, Fold, Tracks, Serial, Anchored, Abandoned, ClaimsOf, ByStep;
    NeverAbandoned(plan, frozen.context, c.mode, events, n, g, h);
    FoldAnchored(plan, frozen.context, c.mode, events[..n], h);
    FoldSerial(plan, frozen.context, c.mode, events[..n], h);
    FoldTracks(plan, frozen.context, c.mode, events[..n], h);
  }

  /** Consecutive prefixes are related by one step of the automaton. */
  lemma PrefixStep(c: Case, frozen: Frozen, n: nat, h: State, h': State)
    requires n < |c.items| && Prefix(c, frozen, n, h) && Prefix(c, frozen, n + 1, h')
    ensures Step(ByStep(frozen.actions), frozen.context, c.mode, h, c.items[n].event) == Live(h')
    ensures Events(c.items)[..n] + [c.items[n].event] == Events(c.items)[..n + 1]
  {
    hide Step, ByStep;
    assert Events(c.items)[..n + 1][..n] == Events(c.items)[..n];
  }

  // ---------------------------------------------------------------- retries

  predicate ChainOk(mode: Mode, l: Ledger, call: Call) {
    var chain := OfCall(l.attempts, call);
    && (call in l.last <==> chain != [])
    && (chain != [] ==> l.last[call] == chain[|chain| - 1])
    && (forall i :: 0 <= i < |chain| ==> chain[i].id == AttemptId(call.step, call.tool, i + 1))
    && RetryChain(chain)
    && |chain| <= MaxAttempts(mode)
  }

  ghost predicate Numbered(plan: Plan, mode: Mode, l: Ledger) {
    && (forall call :: ChainOk(mode, l, call))
    && (forall id :: id in l.started ==>
      id.attempt <= MaxAttempts(mode) && id.step in plan && plan[id.step].tool == Some(id.tool))
    && (forall i :: 0 <= i < |l.attempts| ==>
      l.attempts[i].id.step in plan && plan[l.attempts[i].id.step].tool == Some(l.attempts[i].id.tool))
  }

  lemma {:induction false} OfCallExtended(attempts: seq<Attempt>, a: Attempt, call: Call)
    ensures OfCall(attempts + [a], call) == OfCall(attempts, call) + (if CallOf(a.id) == call then [a] else [])
  {
    assert (attempts + [a])[..|attempts|] == attempts;
  }

  lemma ChainClosed(mode: Mode, l: Ledger, a: Attempt, call: Call)
    requires ChainOk(mode, l, call)
    requires CallOf(a.id) == call ==>
               a.id.attempt == NextAttempt(l, call) && Retryable(l, call) && a.id.attempt <= MaxAttempts(mode)
    ensures ChainOk(mode, Close(l, a), call)
  {
    OfCallExtended(l.attempts, a, call);
    hide OfCall;
    var chain, chain' := OfCall(l.attempts, call), OfCall(Close(l, a).attempts, call);
    if CallOf(a.id) == call {
      assert chain' == chain + [a];
      assert a.id.attempt == |chain| + 1;
    }
  }

  lemma NumberedClosed(plan: Plan, mode: Mode, g: State, events: seq<Event>, a: Attempt)
    requires Numbered(plan, mode, g.ledger) && Serial(g, events) && a.id in g.ledger.started
    ensures Numbered(plan, mode, Close(g.ledger, a))
  {
    assert OneOpen(g, events, a.id);
    forall call ensures ChainOk(mode, Close(g.ledger, a), call) {
      assert ChainOk(mode, g.ledger, call);
      hide ChainOk;
      ChainClosed(mode, g.ledger, a, call);
    }
  }

  lemma NumberedKept(plan: Plan, mode: Mode, l: Ledger, l': Ledger)
    requires Numbered(plan, mode, l)
    requires l'.attempts == l.attempts && l'.last == l.last
    requires forall id :: id in l'.started - l.started ==>
               id.attempt <= MaxAttempts(mode) && id.step in plan && plan[id.step].tool == Some(id.tool)
    ensures Numbered(plan, mode, l')
  {
    forall call ensures ChainOk(mode, l', call) {
      assert ChainOk(mode, l, call);
    }
  }

  lemma NumberedStep(plan: Plan, context: Context, mode: Mode, g: State, events: seq<Event>, event: Event, g': State)
    requires Anchored(plan, g) && Serial(g, events) && Numbered(plan, mode, g.ledger)
    requires Step(plan, context, mode, g, event) == Live(g')
    ensures Numbered(plan, mode, g'.ledger)
  {
    StepView(plan, context, mode, g, event, g');
    hide Step, Serial, Numbered, RetryChain;
    if event.note.body.AttemptClosed? {
      NumberedClosed(plan, mode, g, events, ClosingOf(event.note.body));
    } else {
      NumberedKept(plan, mode, g.ledger, g'.ledger);
    }
  }

  lemma NumberedInit(plan: Plan, mode: Mode, context: Context)
    ensures Numbered(plan, mode, Init(context).ledger)
  {
  }

  lemma {:induction false} PrefixNumbered(c: Case, frozen: Frozen, n: nat, h: State)
    requires n <= |c.items| && Prefix(c, frozen, n, h)
    ensures Numbered(ByStep(frozen.actions), c.mode, h.ledger)
  {
    hide Step, Numbered, ByStep, ClaimsOf, Serial, Anchored, Abandoned, Tracks;
    if n == 0 {
      NumberedInit(ByStep(frozen.actions), c.mode, frozen.context);
    } else {
      hide Fold;
      var before := PrefixExists(c, frozen, n - 1);
      PrefixNumbered(c, frozen, n - 1, before);
      PrefixStep(c, frozen, n - 1, before, h);
      NumberedStep(ByStep(frozen.actions), frozen.context, c.mode, before, Events(c.items)[..n - 1],
          c.items[n - 1].event, h);
    }
  }

  /** The failure is that of exactly one recorded fault, recorded exactly once. */
  ghost predicate ExplainedByOneFault(faults: seq<Fault>, a: Attempt) {
    exists kind ::
      && multiset(faults)[Fault(a.id, kind)] == 1
      && a.code == Some(FaultCode(kind)) && a.transient == Some(Transient(kind))
      && (forall other :: other != kind ==>
        !(multiset(faults)[Fault(a.id, other)] == 1 && a.code == Some(FaultCode(other))))
  }

  lemma OneFault(faults: seq<Fault>, rejections: seq<AttemptId>, a: Attempt)
    requires AttemptExplained(faults, rejections, a) && a.closing.ClosedError? && a.transient == Some(true)
    ensures ExplainedByOneFault(faults, a)
  {
    var kinds := MatchingFaults(faults, a);
    var kind :| kind in kinds;
    assert kinds - {kind} == {};
    forall other | other != kind
      ensures !(multiset(faults)[Fault(a.id, other)] == 1 && a.code == Some(FaultCode(other)))
    {
      assert other !in kinds;
    }
  }

  lemma {:induction false} InChain(attempts: seq<Attempt>, call: Call, i: nat) returns (j: nat)
    requires i < |OfCall(attempts, call)|
    ensures j < |attempts| && attempts[j] == OfCall(attempts, call)[i] && CallOf(attempts[j].id) == call
  {
    var before := attempts[..|attempts| - 1];
    if i < |OfCall(before, call)| {
      j := InChain(before, call, i);
    } else {
      j := |attempts| - 1;
    }
  }

  lemma {:induction false} ChainExplained(plan: Plan, mode: Mode, l: Ledger, call: Call)
    requires Numbered(plan, mode, l) && AttemptSemantics(l)
    ensures var chain := OfCall(l.attempts, call);
            && |chain| <= MaxAttempts(mode)
            && (chain != [] ==> call.step in plan && plan[call.step].tool == Some(call.tool))
            && (forall i :: 0 <= i < |chain| ==> chain[i].id == AttemptId(call.step, call.tool, i + 1))
            && (forall i :: 0 <= i < |chain| - 1 ==>
              && chain[i].closing.ClosedError? && chain[i].transient == Some(true)
              && ExplainedByOneFault(l.faults, chain[i]))
  {
    assert ChainOk(mode, l, call);
    hide OfCall, AttemptExplained, ExplainedByOneFault;
    var chain := OfCall(l.attempts, call);
    if chain != [] {
      var j := InChain(l.attempts, call, 0);
    }
    forall i | 0 <= i < |chain| - 1
      ensures chain[i].closing.ClosedError? && chain[i].transient == Some(true)
              && ExplainedByOneFault(l.faults, chain[i])
    {
      assert Retried(chain[i], chain[i + 1]);
      var j := InChain(l.attempts, call, i);
      OneFault(l.faults, l.rejections, chain[i]);
    }
  }

  /** In an accepted trace the attempts of every call are numbered 1, 2, ... up to the mode's
      limit, use the tool frozen for their step, and each one that was retried failed with a
      transient code that exactly one fault of the trace explains. */
  lemma {:induction false} RetriesAreExplained(c: Case, frozen: Frozen, call: Call)
    requires ClaimsOf(c, frozen).Some?
    ensures var claims := ClaimsOf(c, frozen).value;
            var chain := OfCall(claims.attempts, call);
            && |chain| <= MaxAttempts(c.mode)
            && (chain != [] ==> call.step in ByStep(frozen.actions)
                                && ByStep(frozen.actions)[call.step].tool == Some(call.tool))
            && (forall i :: 0 <= i < |chain| ==> chain[i].id == AttemptId(call.step, call.tool, i + 1))
            && (forall i :: 0 <= i < |chain| - 1 ==>
              && chain[i].closing.ClosedError? && chain[i].transient == Some(true)
              && ExplainedByOneFault(FaultEvidence(Events(c.items)), chain[i]))
  {
    GateAgreesWithRunner(c, frozen);
    var h := PrefixExists(c, frozen, |c.items|);
    assert Events(c.items)[..|c.items|] == Events(c.items);
    PrefixNumbered(c, frozen, |c.items|, h);
    assert ClaimsOf(c, frozen).value.attempts == h.ledger.attempts && AttemptSemantics(h.ledger)
           && h.ledger.faults == FaultEvidence(Events(c.items));
    hide *;
    ChainExplained(ByStep(frozen.actions), c.mode, h.ledger, call);
  }
}
