/** What acceptance says about approvals and about the end of a trace. */
module GateApproval {
  import opened Domain
  import opened Evidence
  import opened Gate
  import opened GateSoundness
  import opened GateOrder
  import opened GateRetries

  function Waits(events: seq<Event>): seq<Wait> {
    if events == [] then []
    else
      var rest, e := Waits(events[..|events| - 1]), events[|events| - 1];
      var body := e.note.body;
      if body.WaitingFor? then rest + [Wait(e.sequence, body.step, body.tool, body.digest)] else rest
  }

  function Decisions(events: seq<Event>): seq<Decision> {
    if events == [] then []
    else
      var rest, e := Decisions(events[..|events| - 1]), events[|events| - 1];
      var body := e.note.body;
      if body.ApprovalRecorded?
      then rest + [Decision(e.sequence, body.step, body.digest, body.actor, body.allow)] else rest
  }

  predicate IsResume(body: Body) {
    body.RunRunning? && body.from.WaitingApproval?
  }

  function Resumes(events: seq<Event>): seq<nat> {
    if events == [] then []
    else
      var rest, e := Resumes(events[..|events| - 1]), events[|events| - 1];
      if IsResume(e.note.body) then rest + [e.sequence] else rest
  }

  /** Where the action of a step was announced. */
  function Announcements(events: seq<Event>, step: nat): seq<nat> {
    if events == [] then []
    else
      var rest, e := Announcements(events[..|events| - 1], step), events[|events| - 1];
      if e.note.body.PolicyAction? && e.note.body.step == step then rest + [e.sequence] else rest
  }

  /** An attempt of the step is started at position `n`. */
  predicate StartsAt(events: seq<Event>, n: int, step: nat) {
    0 <= n < |events| && events[n].note.body.AttemptStarted? && events[n].note.body.id.step == step
  }

  predicate IsEnd(body: Body) {
    body.RunSucceeded? || body.RunFailed?
  }

  // ---------------------------------------------------------------- one step

  lemma ConsentView(plan: Plan, context: Context, mode: Mode, g: State, event: Event, g': State)
    requires Step(plan, context, mode, g, event) == Live(g')
    ensures var body := event.note.body;
            && g'.consent.waits == g.consent.waits + (
              if body.WaitingFor? then [Wait(event.sequence, body.step, body.tool, body.digest)] else [])
            && g'.consent.decisions == g.consent.decisions + (
              if body.ApprovalRecorded?
              then [Decision(event.sequence, body.step, body.digest, body.actor, body.allow)] else [])
            && g'.consent.resumes == g.consent.resumes + (if IsResume(body) then [event.sequence] else [])
  {
    hide Announceable, Announce, MayStart, Open, Close, CheckpointMatches, TerminalOk, NamesActive, AnyAllowed;
  }

  lemma EndView(plan: Plan, context: Context, mode: Mode, g: State, event: Event, g': State)
    requires Step(plan, context, mode, g, event) == Live(g')
    ensures g.ending.final.None?
    ensures var body := event.note.body;
            && (IsEnd(body) ==>
              g'.ending.final == Some((if body.RunSucceeded? then Succeeded else Failed, body.result)))
            && (!IsEnd(body) ==> g'.ending.final.None?)
  {
    hide Announceable, Announce, MayStart, Open, Close, CheckpointMatches, TerminalOk, NamesActive, AnyAllowed;
  }

  lemma {:induction false} FiltersExtend(events: seq<Event>, e: Event, step: nat)
    ensures var all, body := events + [e], e.note.body;
            && Waits(all) == Waits(events) + (
              if body.WaitingFor? then [Wait(e.sequence, body.step, body.tool, body.digest)] else [])
            && Decisions(all) == Decisions(events) + (
              if body.ApprovalRecorded?
              then [Decision(e.sequence, body.step, body.digest, body.actor, body.allow)] else [])
            && Resumes(all) == Resumes(events) + (if IsResume(body) then [e.sequence] else [])
            && Announcements(all, step) == Announcements(events, step) + (
              if body.PolicyAction? && body.step == step then [e.sequence] else [])
  {
    assert (events + [e])[..|events|] == events;
  }

  // ---------------------------------------------------------------- consent is read off the trace

  predicate SameConsent(k: Consent, events: seq<Event>) {
    k.waits == Waits(events) && k.decisions == Decisions(events) && k.resumes == Resumes(events)
  }

  predicate SamePosition(u: Cursor, events: seq<Event>, step: nat) {
    Announcements(events, step) == (if step in u.positions then u.positions[step] else [])
  }

  predicate Spent(l: Ledger, id: AttemptId) {
    id in l.started || (CallOf(id) in l.last && id.attempt <= l.last[CallOf(id)].id.attempt)
  }

  /** The recorded start positions are those of the trace, each identity starting once. */
  ghost predicate SameStarts(l: Ledger, events: seq<Event>) {
    && (forall id :: id in l.startedAt ==> Spent(l, id))
    && (forall id :: id in l.startedAt ==>
      exists n :: StartsAt(events, n, id.step) && events[n].note.body.id == id)
    && (forall n :: 0 <= n < |events| && events[n].note.body.AttemptStarted? ==>
      events[n].note.body.id in l.startedAt && l.startedAt[events[n].note.body.id] == events[n].sequence)
  }

  lemma ConsentStep(plan: Plan, context: Context, mode: Mode, g: State, events: seq<Event>, event: Event, g': State,
      step: nat)
    requires Step(plan, context, mode, g, event) == Live(g')
    requires SameConsent(g.consent, events) && SamePosition(g.cursor, events, step)
    ensures SameConsent(g'.consent, events + [event]) && SamePosition(g'.cursor, events + [event], step)
  {
    StepView(plan, context, mode, g, event, g');
    ConsentView(plan, context, mode, g, event, g');
    FiltersExtend(events, event, step);
    hide Step, Waits, Decisions, Resumes, Announcements;
  }

  lemma StartsStep(plan: Plan, context: Context, mode: Mode, g: State, events: seq<Event>, event: Event, g': State)
    requires Step(plan, context, mode, g, event) == Live(g')
    requires Serial(g, events) && SameStarts(g.ledger, events)
    ensures SameStarts(g'.ledger, events + [event])
  {
    StepView(plan, context, mode, g, event, g');
    StartsSpent(g, events, event, g');
    hide Step, Serial;
    if event.note.body.AttemptStarted? {
      NewStart(g.ledger, events, event);
    } else {
      hide Spent;
      assert g'.ledger.startedAt == g.ledger.startedAt;
      OldStarts(g.ledger, g'.ledger, events, event);
    }
  }

  lemma NewStart(l: Ledger, events: seq<Event>, event: Event)
    requires event.note.body.AttemptStarted? && SameStarts(l, events)
    requires exists mode :: MayStart(mode, l, event.note.body.id)
    requires var l' := Open(l, event.sequence, event.note.span, event.note.body.id);
             forall id :: id in l'.startedAt ==> Spent(l', id)
    ensures SameStarts(Open(l, event.sequence, event.note.span, event.note.body.id), events + [event])
  {
    var all, own := events + [event], event.note.body.id;
    assert !Spent(l, own);
    assert own !in l.startedAt;
    hide Spent, MayStart;
    assert StartsAt(all, |events|, own.step) && all[|events|].note.body.id == own;
    forall id | id in l.startedAt
      ensures exists n :: StartsAt(all, n, id.step) && all[n].note.body.id == id
    {
      var n :| StartsAt(events, n, id.step) && events[n].note.body.id == id;
      assert StartsAt(all, n, id.step) && all[n].note.body.id == id;
    }
  }

  lemma OldStarts(l: Ledger, l': Ledger, events: seq<Event>, event: Event)
    requires SameStarts(l, events) && l'.startedAt == l.startedAt && !event.note.body.AttemptStarted?
    requires forall id :: id in l'.startedAt ==> Spent(l', id)
    ensures SameStarts(l', events + [event])
  {
    hide Spent;
    var all := events + [event];
    forall id | id in l.startedAt
      ensures exists n :: StartsAt(all, n, id.step) && all[n].note.body.id == id
    {
      var n :| StartsAt(events, n, id.step) && events[n].note.body.id == id;
      assert StartsAt(all, n, id.step) && all[n].note.body.id == id;
    }
  }

  lemma StartsSpent(g: State, events: seq<Event>, event: Event, g': State)
    requires Serial(g, events) && forall id :: id in g.ledger.startedAt ==> Spent(g.ledger, id)
    requires event.note.body.AttemptStarted? ==>
               g'.ledger == Open(g.ledger, event.sequence, event.note.span, event.note.body.id)
    requires event.note.body.AttemptClosed? ==>
               event.note.body.id in g.ledger.started && g'.ledger == Close(g.ledger, ClosingOf(event.note.body))
    requires !event.note.body.AttemptStarted? && !event.note.body.AttemptClosed? ==>
               g'.ledger == Inside(g.ledger, event.note.body)
    ensures forall id :: id in g'.ledger.startedAt ==> Spent(g'.ledger, id)
  {
    if event.note.body.AttemptClosed? {
      assert OneOpen(g, events, event.note.body.id);
    }
  }

  ghost predicate Located(g: State, events: seq<Event>, step: nat) {
    SameConsent(g.consent, events) && SamePosition(g.cursor, events, step) && SameStarts(g.ledger, events)
  }

  lemma InitLocated(context: Context, step: nat)
    ensures Located(Init(context), [], step)
  {
  }

  lemma {:induction false} PrefixLocated(c: Case, frozen: Frozen, n: nat, h: State, step: nat)
    requires n <= |c.items| && Prefix(c, frozen, n, h)
    ensures Located(h, Events(c.items)[..n], step)
  {
    hide Step, ByStep, ClaimsOf, Serial, Anchored, Abandoned, Tracks, SameConsent, SamePosition, SameStarts;
    if n == 0 {
      InitLocated(frozen.context, step);
      assert Events(c.items)[..0] == [];
    } else {
      hide Fold;
      var before := PrefixExists(c, frozen, n - 1);
      PrefixLocated(c, frozen, n - 1, before, step);
      PrefixStep(c, frozen, n - 1, before, h);
      ConsentStep(ByStep(frozen.actions), frozen.context, c.mode, before, Events(c.items)[..n - 1],
          c.items[n - 1].event, h, step);
      StartsStep(ByStep(frozen.actions), frozen.context, c.mode, before, Events(c.items)[..n - 1], c.items[n - 1].event,
          h);
    }
  }

  // ---------------------------------------------------------------- the theorems

  /** Announced, paused, approved, resumed, announced again, and only then attempted. */
  ghost predicate ApprovedInOrder(events: seq<Event>, entry: LogicalAction, step: nat) {
    var waits, decisions, resumes, announced := Waits(events), Decisions(events), Resumes(events),
        Announcements(events, step);
    && |waits| == 1 && |decisions| == 1 && |resumes| == 1 && |announced| == 2
    && waits[0].step == step && entry.tool == Some(waits[0].tool) && waits[0].digest == entry.digest
    && decisions[0].step == step && decisions[0].digest == entry.digest && decisions[0].allow
    && decisions[0].actor == REVIEWER
    && announced[0] < waits[0].sequence < decisions[0].sequence < resumes[0] < announced[1]
    && (forall n :: StartsAt(events, n, step) ==> announced[1] < events[n].sequence)
  }

  lemma {:induction false} InOrderAtEnd(c: Case, frozen: Frozen, g: State, events: seq<Event>, step: nat)
    requires Located(g, events, step) && CycleOk(c, frozen, g, step)
    ensures ApprovedInOrder(events, FirstAt(frozen.actions, step).value, step)
  {
    hide Waits, Decisions, Resumes, Announcements, FirstAt;
    var announced := Announcements(events, step);
    forall n | StartsAt(events, n, step)
      ensures announced[1] < events[n].sequence
    {
      assert events[n].note.body.id in g.ledger.startedAt;
    }
  }

  /** An approval-gated call that an accepted trace starts went through exactly one complete
      approval cycle, bound to the frozen action's digest, before its first attempt. */
  lemma GatedCallsAreApproved(c: Case, frozen: Frozen, i: nat, n: nat)
    requires ClaimsOf(c, frozen).Some?
    requires i < |frozen.actions| && GatedEntry(frozen.actions[i])
    requires StartsAt(Events(c.items), n, frozen.actions[i].step)
    ensures ClaimsOf(c, frozen).value.reconstructed && frozen.approvalSupplied
    ensures FirstAt(frozen.actions, frozen.actions[i].step).Some?
    ensures ApprovedInOrder(Events(c.items), FirstAt(frozen.actions, frozen.actions[i].step).value,
            frozen.actions[i].step)
    ensures c.preWrites == 0 && c.writes == 1
  {
    var step := frozen.actions[i].step;
    var h := PrefixExists(c, frozen, |c.items|);
    assert Events(c.items)[..|c.items|] == Events(c.items);
    PrefixLocated(c, frozen, |c.items|, h, step);
    var cycles := ApprovalCycles(c, frozen, h);
    assert cycles == Some(ClaimsOf(c, frozen).value.reconstructed);
    hide ClaimsOf, Fold, Step, Serial, Tracks, Anchored, Prefix, Events, ByStep, Abandoned, ApprovedInOrder, CycleOk;
    assert Executed(h.ledger, step) by {
      assert Events(c.items)[n].note.body.id in h.ledger.startedAt;
    }
    assert step in GatedSteps(frozen.actions, h);
    var s :| s in GatedSteps(frozen.actions, h) && GatedSteps(frozen.actions, h) == {s} && CycleOk(c, frozen, h, s);
    assert s == step;
    CycleHasEntry(c, frozen, h, step);
    InOrderAtEnd(c, frozen, h, Events(c.items), step);
  }

  lemma {:induction false} CycleHasEntry(c: Case, frozen: Frozen, g: State, step: nat)
    requires CycleOk(c, frozen, g, step)
    ensures FirstAt(frozen.actions, step).Some? && c.preWrites == 0 && c.writes == 1
  {
  }

  lemma FinalAtEnd(c: Case, frozen: Frozen, g: State)
    requires Prefix(c, frozen, |c.items|, g)
    ensures |c.items| > 0
    ensures g.ending.final == Some((ClaimsOf(c, frozen).value.status, ClaimsOf(c, frozen).value.result))
  {
    hide Step, ByStep;
    assert Events(c.items)[..|c.items|] == Events(c.items);
  }

  lemma NoEndBefore(c: Case, frozen: Frozen, n: nat)
    requires ClaimsOf(c, frozen).Some? && n + 1 < |c.items|
    ensures !IsEnd(c.items[n].event.note.body)
  {
    var h := PrefixExists(c, frozen, n);
    var h' := PrefixExists(c, frozen, n + 1);
    var h'' := PrefixExists(c, frozen, n + 2);
    hide ClaimsOf, Fold, Step, Serial, Tracks, Anchored, ByStep, Abandoned, Prefix;
    PrefixStep(c, frozen, n, h, h');
    PrefixStep(c, frozen, n + 1, h', h'');
    EndView(ByStep(frozen.actions), frozen.context, c.mode, h, c.items[n].event, h');
    EndView(ByStep(frozen.actions), frozen.context, c.mode, h', c.items[n + 1].event, h'');
  }

  /** An accepted trace ends with its only terminal event, which carries the claimed status
      and result. */
  lemma EndsOnce(c: Case, frozen: Frozen)
    requires ClaimsOf(c, frozen).Some?
    ensures |c.items| > 0 && IsEnd(c.items[|c.items| - 1].event.note.body)
    ensures var claims, body := ClaimsOf(c, frozen).value, c.items[|c.items| - 1].event.note.body;
            claims.status == (if body.RunSucceeded? then Succeeded else Failed) && claims.result == body.result
    ensures forall n :: 0 <= n < |c.items| - 1 ==> !IsEnd(c.items[n].event.note.body)
  {
    hide ClaimsOf, Fold, Step, Serial, Tracks, Anchored, ByStep, Abandoned, Prefix;
    var g := PrefixExists(c, frozen, |c.items|);
    FinalAtEnd(c, frozen, g);
    var before := PrefixExists(c, frozen, |c.items| - 1);
    PrefixStep(c, frozen, |c.items| - 1, before, g);
    EndView(ByStep(frozen.actions), frozen.context, c.mode, before, c.items[|c.items| - 1].event, g);
    forall n | 0 <= n < |c.items| - 1
      ensures !IsEnd(c.items[n].event.note.body)
    {
      NoEndBefore(c, frozen, n);
    }
  }
}
