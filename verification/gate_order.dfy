/** What acceptance says about the order of a trace: attempts never overlap, retries are
    numbered and explained, and every success is checkpointed at once with its own output. */
module GateOrder {
  import opened Domain
  import opened Evidence
  import opened Gate
  import opened GateSoundness

  // ---------------------------------------------------------------- attempts left behind

  /** An open attempt of a step the trace has moved past: nothing can close it any more. */
  predicate Abandoned(g: State) {
    exists id :: id in g.ledger.started && id.step < g.cursor.lastStep
  }

  predicate Anchored(plan: Plan, g: State) {
    var u := g.cursor;
    && (u.active.Some? ==>
      && u.active.value.step == u.lastStep && u.active.value.step in plan
      && plan[u.active.value.step].tool == Some(u.active.value.tool))
    && (forall id :: id in g.ledger.started ==> id.step <= u.lastStep)
  }

  lemma AnchoredStep(plan: Plan, context: Context, mode: Mode, g: State, event: Event, g': State)
    requires Anchored(plan, g)
    requires Step(plan, context, mode, g, event) == Live(g')
    ensures Anchored(plan, g')
    ensures Abandoned(g) ==> Abandoned(g')
  {
    StepView(plan, context, mode, g, event, g');
    hide Step;
    if Abandoned(g) {
      var id :| id in g.ledger.started && id.step < g.cursor.lastStep;
      assert id in g'.ledger.started && id.step < g'.cursor.lastStep;
    }
  }

  lemma {:induction false} FoldAnchored(plan: Plan, context: Context, mode: Mode, events: seq<Event>, g: State)
    requires Fold(plan, context, mode, events) == Live(g)
    ensures Anchored(plan, g)
  {
    hide Step;
    if events != [] {
      hide Anchored;
      var before, event := events[..|events| - 1], events[|events| - 1];
      var h := Fold(plan, context, mode, before).state;
      FoldAnchored(plan, context, mode, before, h);
      AnchoredStep(plan, context, mode, h, event, g);
    }
  }

  /** If nothing is abandoned at the end, nothing was abandoned at any prefix. */
  lemma {:induction false} NeverAbandoned(plan: Plan, context: Context, mode: Mode, events: seq<Event>, n: nat,
      g: State, h: State)
    requires n <= |events|
    requires Fold(plan, context, mode, events) == Live(g) && !Abandoned(g)
    requires Fold(plan, context, mode, events[..n]) == Live(h)
    ensures !Abandoned(h)
    decreases |events|
  {
    hide Step, Abandoned;
    if n == |events| {
      assert events[..n] == events;
    } else {
      var before, event := events[..|events| - 1], events[|events| - 1];
      var m := Fold(plan, context, mode, before).state;
      FoldAnchored(plan, context, mode, before, m);
      AnchoredStep(plan, context, mode, m, event, g);
      assert before[..n] == events[..n];
      NeverAbandoned(plan, context, mode, before, n, m, h);
    }
  }

  // ---------------------------------------------------------------- one attempt at a time

  function NextAttempt(l: Ledger, call: Call): nat {
    if call in l.last then l.last[call].id.attempt + 1 else 1
  }

  predicate Retryable(l: Ledger, call: Call) {
    call in l.last ==> l.last[call].closing.ClosedError? && l.last[call].transient == Some(true)
  }

  predicate OneOpen(g: State, events: seq<Event>, id: AttemptId) {
    && g.ledger.started == {id}
    && StartedIds(events) == Ids(AttemptEvidence(events)) + [id]
    && g.cursor.active == Some(CallOf(id))
    && id.attempt == NextAttempt(g.ledger, CallOf(id))
    && Retryable(g.ledger, CallOf(id))
  }

  predicate NoneOpen(g: State, events: seq<Event>) {
    g.ledger.started == {} && StartedIds(events) == Ids(AttemptEvidence(events))
  }

  predicate Serial(g: State, events: seq<Event>) {
    && (NoneOpen(g, events) || exists id :: id in g.ledger.started && OneOpen(g, events, id))
    && (g.delivery.pending.Some? ==> g.ledger.started == {})
  }

  lemma {:induction false} IdsOfExtended(attempts: seq<Attempt>, a: Attempt)
    ensures Ids(attempts + [a]) == Ids(attempts) + [a.id]
  {
    assert (attempts + [a])[..|attempts|] == attempts;
  }

  lemma SerialStarted(mode: Mode, g: State, events: seq<Event>, event: Event, g': State)
    requires event.note.body.AttemptStarted?
    requires Serial(g, events) && g.delivery.pending.None?
    requires var id := event.note.body.id; g.cursor.active == Some(CallOf(id)) && MayStart(mode, g.ledger, id)
    requires g' == g.(ledger := Open(g.ledger, event.sequence, event.note.span, event.note.body.id))
    ensures Serial(g', events + [event])
  {
    Extend(events, event);
    assert NoneOpen(g, events);
    assert OneOpen(g', events + [event], event.note.body.id);
  }

  lemma SerialClosed(g: State, events: seq<Event>, event: Event, g': State)
    requires event.note.body.AttemptClosed?
    requires Serial(g, events) && OfOpenAttempt(g, event.note, event.note.body.id)
    requires g'.ledger == Close(g.ledger, ClosingOf(event.note.body)) && g'.cursor == g.cursor
    ensures Serial(g', events + [event])
  {
    Extend(events, event);
    IdsOfExtended(AttemptEvidence(events), ClosingOf(event.note.body));
    assert NoneOpen(g', events + [event]);
  }

  lemma SerialStep(plan: Plan, context: Context, mode: Mode, g: State, events: seq<Event>, event: Event, g': State)
    requires Anchored(plan, g) && Serial(g, events)
    requires Step(plan, context, mode, g, event) == Live(g') && !Abandoned(g')
    ensures Serial(g', events + [event])
  {
    hide Step;
    StepView(plan, context, mode, g, event, g');
    DeliveryView(plan, context, mode, g, event, g');
    var body := event.note.body;
    if body.AttemptStarted? {
      SerialStarted(mode, g, events, event, g');
    } else if body.AttemptClosed? {
      SerialClosed(g, events, event, g');
    } else {
      Extend(events, event);
      hide StartedIds, AttemptEvidence;
      if g.ledger.started == {} {
        assert NoneOpen(g', events + [event]);
      } else {
        var id :| id in g.ledger.started && OneOpen(g, events, id);
        assert id in g'.ledger.started && OneOpen(g', events + [event], id);
      }
    }
  }

  lemma {:induction false} FoldSerial(plan: Plan, context: Context, mode: Mode, events: seq<Event>, g: State)
    requires Fold(plan, context, mode, events) == Live(g) && !Abandoned(g)
    ensures Serial(g, events)
  {
    hide Step;
    if events != [] {
      hide Serial, Abandoned;
      var before, event := events[..|events| - 1], events[|events| - 1];
      var h := Fold(plan, context, mode, before).state;
      FoldAnchored(plan, context, mode, before, h);
      NeverAbandoned(plan, context, mode, events, |before|, g, h);
      FoldSerial(plan, context, mode, before, h);
      SerialStep(plan, context, mode, h, before, event, g);
      assert before + [event] == events;
    }
  }

  /** In an accepted trace, at every prefix, the attempts started are exactly the attempts
      closed, in the same order, followed by at most one that is still open. */
  lemma AttemptsNeverOverlap(c: Case, frozen: Frozen, n: nat)
    requires ClaimsOf(c, frozen).Some? && n <= |c.items|
    ensures var prefix := Events(c.items)[..n];
            var started, closed := StartedIds(prefix), Ids(AttemptEvidence(prefix));
            && closed <= started
            && |started| <= |closed| + 1
            && (n == |c.items| ==> started == closed)
  {
    var plan, events := ByStep(frozen.actions), Events(c.items);
    var g := Fold(plan, frozen.context, c.mode, events).state;
    var verdict := Fold(plan, frozen.context, c.mode, events[..n]);
    if verdict.Refused? {
      RefusalIsFinal(plan, frozen.context, c.mode, events, n);
    }
    var h := verdict.state;
    hide Step, StartedIds, AttemptEvidence, Fold;
    NeverAbandoned(plan, frozen.context, c.mode, events, n, g, h);
    FoldSerial(plan, frozen.context, c.mode, events[..n], h);
    assert events[..|c.items|] == events;
  }
}
