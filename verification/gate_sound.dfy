/** What acceptance by the gate guarantees about the trace itself, and that the claims the
    automaton derives are the ones the runner's filters read off the same trace. */
module GateSoundness {
  import opened Domain
  import opened Evidence
  import opened Gate

  // ---------------------------------------------------------------- one step, seen from outside

  /** What an event that neither starts nor closes an attempt adds to the ledger. */
  function Inside(l: Ledger, body: Body): Ledger {
    match body
    case FaultInjected(id, kind) => l.(faults := l.faults + [Fault(id, kind)])
    case OutputRejected(id) => l.(rejections := l.rejections + [id])
    case _ => l
  }

  /** The effect of one accepted event on the cursor and the ledger, by kind of event. */
  lemma StepView(plan: Plan, context: Context, mode: Mode, g: State, event: Event, g': State)
    requires Step(plan, context, mode, g, event) == Live(g')
    ensures !Blocked(g, event.note.body)
    ensures event.note.body.PolicyAction? ==>
              && Announceable(plan, g.cursor, event.note.body.step, event.note.body.action)
              && g' == g.(cursor := Announce(g.cursor, event.sequence, event.note.body.step, event.note.body.action))
    ensures event.note.body.AttemptStarted? ==>
              && g.cursor.active == Some(CallOf(event.note.body.id)) && MayStart(mode, g.ledger, event.note.body.id)
              && g' == g.(ledger := Open(g.ledger, event.sequence, event.note.span, event.note.body.id))
    ensures event.note.body.AttemptClosed? ==>
              && OfOpenAttempt(g, event.note, event.note.body.id)
              && g'.ledger == Close(g.ledger, ClosingOf(event.note.body)) && g'.cursor == g.cursor
    ensures event.note.body.Checkpointed? ==> g'.cursor == g.cursor.(active := None)
    ensures !event.note.body.PolicyAction? && !event.note.body.Checkpointed? ==> g'.cursor == g.cursor
    ensures !event.note.body.AttemptStarted? && !event.note.body.AttemptClosed? ==>
              g'.ledger == Inside(g.ledger, event.note.body)
    ensures event.note.body.FaultInjected? || event.note.body.OutputRejected? ==>
              OfOpenAttempt(g, event.note, event.note.body.id)
  {
    hide Announceable, Announce, MayStart, Open, Close, CheckpointMatches, TerminalOk, NamesActive;
  }

  /** The delivery after a success and its checkpoint. */
  function Delivered(d: Delivery): Delivery
    requires d.pending.Some?
  {
    var success := d.pending.value;
    Delivery(None, d.accepted + [Accepted(success.id.step, success.id.tool, success.output)],
             d.outputs[success.id.step := success.output])
  }

  /** The effect of one accepted event on what is delivered. */
  lemma DeliveryView(plan: Plan, context: Context, mode: Mode, g: State, event: Event, g': State)
    requires Step(plan, context, mode, g, event) == Live(g')
    ensures var body := event.note.body;
            && (body.AttemptClosed? && body.closing.ClosedOk? ==>
              && body.output.Some? && body.id.step in plan
              && plan[body.id.step].expected == Some(OfOutput(body.output.value))
              && g'.delivery == g.delivery.(pending := Some(Success(body.id, body.output.value))))
            && (body.Checkpointed? ==>
              && g.delivery.pending.Some?
              && g'.delivery == Delivered(g.delivery)
              && CheckpointMatches(context, g.delivery.pending.value, g'.delivery.outputs, body))
            && (!(body.AttemptClosed? && body.closing.ClosedOk?) && !body.Checkpointed? ==> g'.delivery == g.delivery)
  {
    hide Announceable, Announce, MayStart, Open, Close, CheckpointMatches, TerminalOk, NamesActive;
  }

  // ---------------------------------------------------------------- claims are the runner's

  predicate SameTools(plan: Plan, u: Cursor, events: seq<Event>) {
    var tools := ToolsByStep(events);
    && |u.seen| == StepBound(events)
    && tools.Some?
    && u.tools == InStepOrder(tools.value, |u.seen|)
    && (forall k :: k in tools.value ==> k < |u.seen|)
    && (forall k: nat :: k < |u.seen| ==>
      k in plan && u.seen[k] == plan[k].kind && (k in tools.value <==> plan[k].tool.Some?))
    && (forall k :: k in tools.value ==> plan[k].tool == Some(tools.value[k]))
  }

  predicate SameAttempts(l: Ledger, events: seq<Event>) {
    && l.attempts == AttemptEvidence(events)
    && l.faults == FaultEvidence(events)
    && l.rejections == RejectionEvidence(events)
    && multiset(StartedIds(events)) == multiset(l.started) + multiset(Ids(l.attempts))
  }

  predicate Tracks(plan: Plan, g: State, events: seq<Event>) {
    SameAttempts(g.ledger, events) && SameTools(plan, g.cursor, events)
  }

  lemma {:induction false} OrderBelow(tools: map<nat, Tool>, step: nat, tool: Tool, bound: nat)
    requires bound <= step
    ensures InStepOrder(tools[step := tool], bound) == InStepOrder(tools, bound)
  {
    if bound > 0 {
      OrderBelow(tools, step, tool, bound - 1);
    }
  }

  lemma AnnounceKeepsTools(plan: Plan, u: Cursor, events: seq<Event>, event: Event)
    requires event.note.body.PolicyAction?
    requires SameTools(plan, u, events)
    requires Announceable(plan, u, event.note.body.step, event.note.body.action)
    ensures SameTools(plan, Announce(u, event.sequence, event.note.body.step, event.note.body.action), events + [event])
  {
    var all := events + [event];
    assert all[..|all| - 1] == events;
    var step, action := event.note.body.step, event.note.body.action;
    if step == |u.seen| && action.CallTool? {
      OrderBelow(ToolsByStep(events).value, step, action.tool, step);
    }
  }

  /** What one more event adds to each of the runner's filters. */
  lemma {:induction false} Extend(events: seq<Event>, event: Event)
    ensures var all, body := events + [event], event.note.body;
            && StartedIds(all) == StartedIds(events) + (if body.AttemptStarted? then [body.id] else [])
            && AttemptEvidence(all) == AttemptEvidence(events) + (if body.AttemptClosed? then [ClosingOf(body)] else [])
            && FaultEvidence(all) == FaultEvidence(events)
                + (if body.FaultInjected? then [Fault(body.id, body.kind)] else [])
            && RejectionEvidence(all) == RejectionEvidence(events) + (if body.OutputRejected? then [body.id] else [])
            && (!body.PolicyAction? ==> ToolsByStep(all) == ToolsByStep(events) && StepBound(all) == StepBound(events))
  {
    var all := events + [event];
    assert all[..|all| - 1] == events;
  }

  lemma {:induction false} IdsExtend(attempts: seq<Attempt>, a: Attempt)
    ensures multiset(Ids(attempts + [a])) == multiset(Ids(attempts)) + multiset{a.id}
  {
    var all := attempts + [a];
    assert all[..|all| - 1] == attempts;
  }

  lemma CloseTracks(l: Ledger, events: seq<Event>, event: Event)
    requires event.note.body.AttemptClosed? && event.note.body.id in l.started
    requires SameAttempts(l, events)
    ensures SameAttempts(Close(l, ClosingOf(event.note.body)), events + [event])
  {
    Extend(events, event);
    IdsExtend(l.attempts, ClosingOf(event.note.body));
  }

  lemma OpenTracks(l: Ledger, events: seq<Event>, event: Event)
    requires event.note.body.AttemptStarted? && event.note.body.id !in l.started
    requires SameAttempts(l, events)
    ensures SameAttempts(Open(l, event.sequence, event.note.span, event.note.body.id), events + [event])
  {
    Extend(events, event);
  }

  lemma InsideTracks(l: Ledger, events: seq<Event>, event: Event)
    requires SameAttempts(l, events)
    requires !event.note.body.AttemptStarted? && !event.note.body.AttemptClosed?
    ensures SameAttempts(Inside(l, event.note.body), events + [event])
  {
    Extend(events, event);
  }

  lemma StepTracks(plan: Plan, context: Context, mode: Mode, g: State, events: seq<Event>, event: Event, g': State)
    requires Tracks(plan, g, events)
    requires Step(plan, context, mode, g, event) == Live(g')
    ensures Tracks(plan, g', events + [event])
  {
    hide Step, SameAttempts, SameTools, Announce, Open, Close, Inside;
    var body := event.note.body;
    StepView(plan, context, mode, g, event, g');
    if body.PolicyAction? {
      AnnounceKeepsTools(plan, g.cursor, events, event);
      InsideTracks(g.ledger, events, event);
    } else {
      OthersKeepTools(plan, g.cursor, g'.cursor, events, event);
      if body.AttemptStarted? {
        OpenTracks(g.ledger, events, event);
      } else if body.AttemptClosed? {
        CloseTracks(g.ledger, events, event);
      } else {
        InsideTracks(g.ledger, events, event);
      }
    }
  }

  lemma OthersKeepTools(plan: Plan, u: Cursor, u': Cursor, events: seq<Event>, event: Event)
    requires !event.note.body.PolicyAction?
    requires u' == u || u' == u.(active := None)
    requires SameTools(plan, u, events)
    ensures SameTools(plan, u', events + [event])
  {
    Extend(events, event);
  }

  lemma InitTracks(plan: Plan, context: Context)
    ensures Tracks(plan, Init(context), [])
  {
  }

  lemma {:induction false} FoldTracks(plan: Plan, context: Context, mode: Mode, events: seq<Event>, g: State)
    requires Fold(plan, context, mode, events) == Live(g)
    ensures Tracks(plan, g, events)
  {
    hide Step, Tracks;
    if events == [] {
      InitTracks(plan, context);
    } else {
      var before, event := events[..|events| - 1], events[|events| - 1];
      var h := Fold(plan, context, mode, before).state;
      FoldTracks(plan, context, mode, before, h);
      StepTracks(plan, context, mode, h, before, event, g);
      assert before + [event] == events;
    }
  }

  /** On every accepted trace the gate and the runner, written independently, agree: the
      runner's completeness checks pass and its claims are the gate's. */
  lemma GateAgreesWithRunner(c: Case, frozen: Frozen)
    requires ClaimsOf(c, frozen).Some?
    ensures var claims, events := ClaimsOf(c, frozen).value, Events(c.items);
            && AttemptsComplete(events)
            && claims.attempts == AttemptEvidence(events)
            && claims.faults == FaultEvidence(events)
            && claims.rejections == RejectionEvidence(events)
            && LogicalToolSequence(events) == Some(claims.tools)
  {
    var events := Events(c.items);
    var g := Fold(ByStep(frozen.actions), frozen.context, c.mode, events).state;
    FoldTracks(ByStep(frozen.actions), frozen.context, c.mode, events, g);
  }
}
