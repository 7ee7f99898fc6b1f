/** What acceptance says about outputs: every success is the fixture's, is the only one of its
    step, and is checkpointed by the very next event together with the rebuilt context. */
module GateOutputs {
  import opened Domain
  import opened Evidence
  import opened Gate
  import opened GateSoundness
  import opened GateOrder
  import opened GateRetries

  predicate IsSuccess(body: Body) {
    body.AttemptClosed? && body.closing.ClosedOk? && body.output.Some?
  }

  /** The outputs of the successes of a trace, in trace order. */
  function SuccessEvidence(events: seq<Event>): seq<Accepted> {
    if events == [] then []
    else
      var rest := SuccessEvidence(events[..|events| - 1]);
      var body := events[|events| - 1].note.body;
      if IsSuccess(body) then rest + [Accepted(body.id.step, body.id.tool, body.output.value)] else rest
  }

  /** `tool_results` after the given successes. */
  function Results(initial: map<nat, Output>, accepted: seq<Accepted>): map<nat, Output> {
    if accepted == [] then initial
    else
      var a := accepted[|accepted| - 1];
      Results(initial, accepted[..|accepted| - 1])[a.step := a.output]
  }

  predicate Climbing(accepted: seq<Accepted>) {
    forall i, j :: 0 <= i < j < |accepted| ==> accepted[i].step < accepted[j].step
  }

  /** What has been checkpointed, plus the success still waiting for its checkpoint. */
  function Outstanding(d: Delivery): seq<Accepted> {
    if d.pending.None? then d.accepted
    else d.accepted + [Accepted(d.pending.value.id.step, d.pending.value.id.tool, d.pending.value.output)]
  }

  predicate Done(plan: Plan, g: State, a: Accepted) {
    && a.step <= g.cursor.lastStep
    && a.step in plan && plan[a.step].tool == Some(a.tool) && plan[a.step].expected == Some(OfOutput(a.output))
    && Call(a.step, a.tool) in g.ledger.last && g.ledger.last[Call(a.step, a.tool)].closing.ClosedOk?
  }

  predicate Delivers(plan: Plan, initial: map<nat, Output>, g: State, events: seq<Event>) {
    var all := SuccessEvidence(events);
    && Outstanding(g.delivery) == all
    && g.delivery.outputs == Results(initial, g.delivery.accepted)
    && Climbing(all)
    && (forall i :: 0 <= i < |all| ==> Done(plan, g, all[i]))
    && (g.delivery.pending.Some? ==>
      && events != [] && IsSuccess(events[|events| - 1].note.body)
      && events[|events| - 1].note.body.id == g.delivery.pending.value.id
      && events[|events| - 1].note.body.output.value == g.delivery.pending.value.output)
  }

  lemma {:induction false} SuccessExtended(events: seq<Event>, event: Event)
    ensures SuccessEvidence(events + [event]) == SuccessEvidence(events) + (
              var body := event.note.body;
              if IsSuccess(body) then [Accepted(body.id.step, body.id.tool, body.output.value)] else [])
  {
    assert (events + [event])[..|events|] == events;
  }

  lemma {:induction false} ResultsExtended(initial: map<nat, Output>, accepted: seq<Accepted>, a: Accepted)
    ensures Results(initial, accepted + [a]) == Results(initial, accepted)[a.step := a.output]
  {
    assert (accepted + [a])[..|accepted|] == accepted;
  }

  /** Starting, failing or moving on leaves every finished call finished. */
  lemma DoneKept(plan: Plan, context: Context, mode: Mode, g: State, events: seq<Event>, event: Event, g': State,
      a: Accepted)
    requires Anchored(plan, g) && Serial(g, events) && Done(plan, g, a)
    requires Step(plan, context, mode, g, event) == Live(g')
    ensures Done(plan, g', a)
    ensures event.note.body.AttemptClosed? ==> a.step < event.note.body.id.step
  {
    StepView(plan, context, mode, g, event, g');
    hide Step;
    if event.note.body.AttemptClosed? {
      assert OneOpen(g, events, event.note.body.id);
    }
  }

  lemma SuccessDelivers(plan: Plan, context: Context, mode: Mode, g: State, events: seq<Event>, event: Event, g': State)
    requires Anchored(plan, g) && Serial(g, events) && Delivers(plan, context.results, g, events)
    requires event.note.body.AttemptClosed? && event.note.body.closing.ClosedOk?
    requires Step(plan, context, mode, g, event) == Live(g')
    ensures Delivers(plan, context.results, g', events + [event])
  {
    StepView(plan, context, mode, g, event, g');
    DeliveryView(plan, context, mode, g, event, g');
    SuccessExtended(events, event);
    hide Step, SuccessEvidence, Serial;
    var body := event.note.body;
    var all := SuccessEvidence(events);
    forall i | 0 <= i < |all|
      ensures all[i].step < body.id.step && Done(plan, g', all[i])
    {
      DoneKept(plan, context, mode, g, events, event, g', all[i]);
    }
    assert g.delivery.pending.None?;
    var a := Accepted(body.id.step, body.id.tool, body.output.value);
    assert Done(plan, g', a);
    assert SuccessEvidence(events + [event]) == all + [a];
  }

  lemma OtherDelivers(plan: Plan, context: Context, mode: Mode, g: State, events: seq<Event>, event: Event, g': State)
    requires Anchored(plan, g) && Serial(g, events) && Delivers(plan, context.results, g, events)
    requires !(event.note.body.AttemptClosed? && event.note.body.closing.ClosedOk?)
    requires Step(plan, context, mode, g, event) == Live(g')
    ensures Delivers(plan, context.results, g', events + [event])
  {
    StepView(plan, context, mode, g, event, g');
    DeliveryView(plan, context, mode, g, event, g');
    SuccessExtended(events, event);
    hide Step, SuccessEvidence, Serial, Done;
    var all := SuccessEvidence(events);
    assert SuccessEvidence(events + [event]) == all;
    forall i | 0 <= i < |all|
      ensures Done(plan, g', all[i])
    {
      DoneKept(plan, context, mode, g, events, event, g', all[i]);
    }
    if event.note.body.Checkpointed? {
      var s := g.delivery.pending.value;
      ResultsExtended(context.results, g.delivery.accepted, Accepted(s.id.step, s.id.tool, s.output));
    }
  }

  lemma InitDelivers(plan: Plan, context: Context)
    ensures Delivers(plan, context.results, Init(context), [])
  {
  }

  lemma {:induction false} PrefixDelivers(c: Case, frozen: Frozen, n: nat, h: State)
    requires n <= |c.items| && Prefix(c, frozen, n, h)
    ensures Delivers(ByStep(frozen.actions), frozen.context.results, h, Events(c.items)[..n])
  {
    hide Step, ByStep, ClaimsOf, Serial, Anchored, Abandoned, Tracks, Delivers;
    if n == 0 {
      InitDelivers(ByStep(frozen.actions), frozen.context);
      assert Events(c.items)[..0] == [];
    } else {
      hide Fold;
      var before := PrefixExists(c, frozen, n - 1);
      var event := c.items[n - 1].event;
      PrefixDelivers(c, frozen, n - 1, before);
      PrefixStep(c, frozen, n - 1, before, h);
      if event.note.body.AttemptClosed? && event.note.body.closing.ClosedOk? {
        SuccessDelivers(ByStep(frozen.actions), frozen.context, c.mode, before, Events(c.items)[..n - 1], event, h);
      } else {
        OtherDelivers(ByStep(frozen.actions), frozen.context, c.mode, before, Events(c.items)[..n - 1], event, h);
      }
    }
  }

  /** The accepted outputs of an accepted trace are its successes in order, one per step and
      at strictly growing steps, each the fixture's output for the action frozen there. */
  lemma AcceptedOutputsAreTheSuccesses(c: Case, frozen: Frozen)
    requires ClaimsOf(c, frozen).Some?
    ensures var accepted := ClaimsOf(c, frozen).value.accepted;
            && accepted == SuccessEvidence(Events(c.items))
            && Climbing(accepted)
            && (forall i :: 0 <= i < |accepted| ==>
              && accepted[i].step in ByStep(frozen.actions)
              && ByStep(frozen.actions)[accepted[i].step].tool == Some(accepted[i].tool)
              && ByStep(frozen.actions)[accepted[i].step].expected == Some(OfOutput(accepted[i].output)))
  {
    var h := PrefixExists(c, frozen, |c.items|);
    assert Events(c.items)[..|c.items|] == Events(c.items);
    PrefixDelivers(c, frozen, |c.items|, h);
    assert ClaimsOf(c, frozen).value.accepted == h.delivery.accepted && h.delivery.pending.None?;
    hide ClaimsOf, Fold, Step, Serial, Tracks, Anchored, Prefix, Events, ByStep, Abandoned, SuccessEvidence;
  }

  predicate ChecksSuccess(context: Context, success: Body, upTo: seq<Accepted>, checkpoint: Body)
    requires IsSuccess(success)
  {
    && checkpoint.Checkpointed?
    && checkpoint.step == success.id.step && checkpoint.attempt == success.id.attempt
    && checkpoint.next == success.id.step + 1
    && checkpoint.outputDigest == OfOutput(success.output.value)
    && checkpoint.contextDigest == OfContext(context.(results := Results(context.results, upTo)))
  }

  lemma {:induction false} CheckpointStep(plan: Plan, context: Context, mode: Mode, g: State, events: seq<Event>,
      event: Event, g': State)
    requires Delivers(plan, context.results, g, events)
    requires event.note.body.Checkpointed?
    requires Step(plan, context, mode, g, event) == Live(g')
    ensures events != [] && IsSuccess(events[|events| - 1].note.body)
    ensures ChecksSuccess(context, events[|events| - 1].note.body, SuccessEvidence(events), event.note.body)
  {
    DeliveryView(plan, context, mode, g, event, g');
    hide Step, SuccessEvidence, Climbing, Done;
    var s := g.delivery.pending.value;
    ResultsExtended(context.results, g.delivery.accepted, Accepted(s.id.step, s.id.tool, s.output));
  }

  /** In an accepted trace a checkpoint directly follows a success, and records that success's
      step, attempt and output and the context rebuilt from all successes so far. */
  lemma CheckpointFollowsSuccess(c: Case, frozen: Frozen, n: nat)
    requires ClaimsOf(c, frozen).Some? && n < |c.items| && c.items[n].event.note.body.Checkpointed?
    ensures n > 0 && IsSuccess(c.items[n - 1].event.note.body)
    ensures ChecksSuccess(frozen.context, c.items[n - 1].event.note.body, SuccessEvidence(Events(c.items)[..n]),
                          c.items[n].event.note.body)
  {
    var h := PrefixExists(c, frozen, n);
    var h' := PrefixExists(c, frozen, n + 1);
    hide ClaimsOf, Fold, Step, Serial, Tracks, Anchored, ByStep, Abandoned, SuccessEvidence, ChecksSuccess;
    PrefixStep(c, frozen, n, h, h');
    PrefixDelivers(c, frozen, n, h);
    CheckpointStep(ByStep(frozen.actions), frozen.context, c.mode, h, Events(c.items)[..n], c.items[n].event, h');
  }

  lemma SuccessBlocks(plan: Plan, context: Context, mode: Mode, g: State, event: Event, g': State, next: Event)
    requires event.note.body.AttemptClosed? && event.note.body.closing.ClosedOk?
    requires Step(plan, context, mode, g, event) == Live(g')
    ensures g'.delivery.pending.Some?
    ensures !next.note.body.Checkpointed? ==> Step(plan, context, mode, g', next).Refused?
  {
    DeliveryView(plan, context, mode, g, event, g');
  }

  lemma EndIsSettled(c: Case, frozen: Frozen, h: State)
    requires Prefix(c, frozen, |c.items|, h)
    ensures Settled(h)
  {
    hide Step, ByStep;
    assert Events(c.items)[..|c.items|] == Events(c.items);
  }

  /** In an accepted trace the event after a success exists and is its checkpoint. */
  lemma SuccessIsCheckpointedAtOnce(c: Case, frozen: Frozen, n: nat)
    requires ClaimsOf(c, frozen).Some? && n < |c.items|
    requires c.items[n].event.note.body.AttemptClosed? && c.items[n].event.note.body.closing.ClosedOk?
    ensures n + 1 < |c.items| && IsSuccess(c.items[n].event.note.body)
    ensures ChecksSuccess(frozen.context, c.items[n].event.note.body, SuccessEvidence(Events(c.items)[..n + 1]),
                          c.items[n + 1].event.note.body)
  {
    var h := PrefixExists(c, frozen, n);
    var h' := PrefixExists(c, frozen, n + 1);
    hide ClaimsOf, Fold, Step, Serial, Tracks, Anchored, ByStep, Abandoned, SuccessEvidence, ChecksSuccess, Prefix,
        Delivers;
    PrefixStep(c, frozen, n, h, h');
    if n + 1 == |c.items| {
      EndIsSettled(c, frozen, h');
      SuccessBlocks(ByStep(frozen.actions), frozen.context, c.mode, h, c.items[n].event, h', c.items[n].event);
      assert false;
    } else {
      var next := PrefixExists(c, frozen, n + 2);
      PrefixStep(c, frozen, n + 1, h', next);
      SuccessBlocks(ByStep(frozen.actions), frozen.context, c.mode, h, c.items[n].event, h', c.items[n + 1].event);
      CheckpointFollowsSuccess(c, frozen, n + 1);
    }
  }
}
