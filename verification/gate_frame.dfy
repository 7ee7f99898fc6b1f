/** What acceptance says about every single event: actions are announced as frozen and in order, calls
    and attempts lie inside their announcement, every failure is explained, and approvals appear
    only where a gated call needs one. */
module GateFrame {
  import opened Domain
  import opened Evidence
  import opened Gate
  import opened GateSoundness
  import opened GateOrder
  import opened GateRetries
  import opened GateApproval

  // ---------------------------------------------------------------- the cursor is the trace's

  /** The call was announced before position `n`, and nothing has ended it since. */
  ghost predicate InCall(events: seq<Event>, n: nat, call: Call)
    requires n <= |events|
  {
    exists m :: 0 <= m < n && AnnouncesCall(events[m].note.body, call) && Undisturbed(events, m, n)
  }

  predicate AnnouncesCall(body: Body, call: Call) {
    body.PolicyAction? && body.step == call.step && body.action.CallTool? && body.action.tool == call.tool
  }

  predicate Undisturbed(events: seq<Event>, m: nat, n: nat)
    requires m < n <= |events|
  {
    forall j :: m < j < n ==> !events[j].note.body.PolicyAction? && !events[j].note.body.Checkpointed?
  }

  /** The attempt was started before position `n` in this span, and has not been closed. */
  ghost predicate InAttempt(events: seq<Event>, n: nat, id: AttemptId, span: Span)
    requires n <= |events|
  {
    exists m :: 0 <= m < n && events[m].note.body == AttemptStarted(id) && events[m].note.span == span
        && StaysOpen(events, m, n, id)
  }

  predicate StaysOpen(events: seq<Event>, m: nat, n: nat, id: AttemptId)
    requires m < n <= |events|
  {
    forall j :: m < j < n ==> !(events[j].note.body.AttemptClosed? && events[j].note.body.id == id)
  }

  /** The step was announced before position `n`. */
  ghost predicate StepAnnounced(events: seq<Event>, n: nat, step: nat)
    requires n <= |events|
  {
    exists m :: 0 <= m < n && events[m].note.body.PolicyAction? && events[m].note.body.step == step
  }

  lemma StaysAnnounced(events: seq<Event>, n: nat, step: nat)
    requires n < |events|
    requires (StepAnnounced(events, n, step) || (events[n].note.body.PolicyAction? && events[n].note.body.step == step))
    ensures StepAnnounced(events, n + 1, step)
  {
  }

  /** The cursor and the open attempts, read off the trace. */
  ghost predicate Mirrored(events: seq<Event>, n: nat, h: State)
    requires n <= |events|
  {
    && (h.cursor.active.Some? ==> InCall(events, n, h.cursor.active.value))
    && (forall id :: id in h.ledger.started && id in h.ledger.spans ==> InAttempt(events, n, id, h.ledger.spans[id]))
    && (forall m :: 0 <= m < n && events[m].note.body.PolicyAction? ==> events[m].note.body.step <= h.cursor.lastStep)
    && (forall k: nat :: k < |h.cursor.seen| ==> StepAnnounced(events, n, k))
  }

  lemma CallGoesOn(events: seq<Event>, n: nat, call: Call)
    requires n < |events| && InCall(events, n, call)
    requires !events[n].note.body.PolicyAction? && !events[n].note.body.Checkpointed?
    ensures InCall(events, n + 1, call)
  {
    var m :| 0 <= m < n && AnnouncesCall(events[m].note.body, call) && Undisturbed(events, m, n);
    assert Undisturbed(events, m, n + 1);
  }

  lemma AttemptGoesOn(events: seq<Event>, n: nat, id: AttemptId, span: Span)
    requires n < |events| && InAttempt(events, n, id, span)
    requires !(events[n].note.body.AttemptClosed? && events[n].note.body.id == id)
    ensures InAttempt(events, n + 1, id, span)
  {
    var m :| 0 <= m < n && events[m].note.body == AttemptStarted(id) && events[m].note.span == span
        && StaysOpen(events, m, n, id);
    assert StaysOpen(events, m, n + 1, id);
  }

  lemma CursorMirrored(plan: Plan, context: Context, mode: Mode, events: seq<Event>, n: nat, next: nat, h: State,
      h': State)
    requires n < |events| && next == n + 1 && Step(plan, context, mode, h, events[n]) == Live(h')
    requires Mirrored(events, n, h)
    ensures h'.cursor.active.Some? ==> InCall(events, next, h'.cursor.active.value)
    ensures forall m :: 0 <= m < next && events[m].note.body.PolicyAction? ==>
            events[m].note.body.step <= h'.cursor.lastStep
    ensures forall k: nat :: k < |h'.cursor.seen| ==> StepAnnounced(events, next, k)
  {
    StepView(plan, context, mode, h, events[n], h');
    hide Step, InAttempt, InCall, StepAnnounced;
    forall k: nat | k < |h'.cursor.seen|
      ensures StepAnnounced(events, next, k)
    {
      StaysAnnounced(events, n, k);
    }
    if events[n].note.body.PolicyAction? {
      AnnouncedNow(events, n, h'.cursor.active);
    } else if h'.cursor.active.Some? {
      CallGoesOn(events, n, h'.cursor.active.value);
    }
  }

  lemma AnnouncedNow(events: seq<Event>, n: nat, active: Option<Call>)
    requires n < |events| && events[n].note.body.PolicyAction?
    requires active == if events[n].note.body.action.CallTool?
                       then Some(Call(events[n].note.body.step, events[n].note.body.action.tool)) else None
    ensures active.Some? ==> InCall(events, n + 1, active.value)
  {
    assert Undisturbed(events, n, n + 1);
  }

  lemma StartedNow(events: seq<Event>, n: nat, id: AttemptId)
    requires n < |events| && events[n].note.body == AttemptStarted(id)
    ensures InAttempt(events, n + 1, id, events[n].note.span)
  {
    assert StaysOpen(events, n, n + 1, id);
  }

  lemma AttemptsMirrored(plan: Plan, context: Context, mode: Mode, events: seq<Event>, n: nat, h: State, h': State)
    requires n < |events| && Step(plan, context, mode, h, events[n]) == Live(h') && Mirrored(events, n, h)
    ensures forall id :: id in h'.ledger.started && id in h'.ledger.spans ==>
            InAttempt(events, n + 1, id, h'.ledger.spans[id])
  {
    StepView(plan, context, mode, h, events[n], h');
    hide Step, InAttempt, InCall;
    forall id | id in h'.ledger.started && id in h'.ledger.spans
      ensures InAttempt(events, n + 1, id, h'.ledger.spans[id])
    {
      if events[n].note.body == AttemptStarted(id) {
        StartedNow(events, n, id);
      } else {
        AttemptGoesOn(events, n, id, h.ledger.spans[id]);
      }
    }
  }

  lemma NothingMirrored(c: Case, frozen: Frozen, h: State)
    requires Prefix(c, frozen, 0, h)
    ensures Mirrored(Events(c.items), 0, h)
  {
    hide Step, ByStep, ClaimsOf;
    assert Events(c.items)[..0] == [];
  }

  lemma {:induction false} PrefixMirrored(c: Case, frozen: Frozen, n: nat, h: State)
    requires n <= |c.items| && Prefix(c, frozen, n, h)
    ensures Mirrored(Events(c.items), n, h)
  {
    hide Step, ByStep, ClaimsOf, Serial, Anchored, Abandoned, Tracks, InCall, InAttempt, StepAnnounced;
    if n == 0 {
      NothingMirrored(c, frozen, h);
    } else {
      var before := PrefixExists(c, frozen, n - 1);
      PrefixMirrored(c, frozen, n - 1, before);
      PrefixStep(c, frozen, n - 1, before, h);
      CursorMirrored(ByStep(frozen.actions), frozen.context, c.mode, Events(c.items), n - 1, n, before,
          h);
      AttemptsMirrored(ByStep(frozen.actions), frozen.context, c.mode, Events(c.items), n - 1, before, h);
    }
  }

  // ---------------------------------------------------------------- announcements

  lemma AnnounceView(plan: Plan, context: Context, mode: Mode, g: State, event: Event, g': State)
    requires Step(plan, context, mode, g, event) == Live(g') && event.note.body.PolicyAction?
    ensures var body := event.note.body;
            && body.step in plan && plan[body.step].payload == body.action
            && g.cursor.lastStep <= body.step <= |g.cursor.seen|
  {
  }

  /** Every announcement repeats the frozen action of its step; steps never go back, and none is
      announced before the one below it. */
  lemma AnnouncementsAreFrozen(c: Case, frozen: Frozen, n: nat)
    requires ClaimsOf(c, frozen).Some? && n < |c.items| && c.items[n].event.note.body.PolicyAction?
    ensures var body := c.items[n].event.note.body;
            && body.step in ByStep(frozen.actions) && ByStep(frozen.actions)[body.step].payload == body.action
            && (forall m :: 0 <= m < n && c.items[m].event.note.body.PolicyAction? ==>
                  c.items[m].event.note.body.step <= body.step)
            && (body.step > 0 ==> StepAnnounced(Events(c.items), n, body.step - 1))
  {
    var h := PrefixExists(c, frozen, n);
    var h' := PrefixExists(c, frozen, n + 1);
    hide ClaimsOf, Fold, Step, ByStep, Prefix, Serial, Tracks, Anchored, Abandoned, InCall, InAttempt, StepAnnounced;
    PrefixStep(c, frozen, n, h, h');
    PrefixMirrored(c, frozen, n, h);
    AnnounceView(ByStep(frozen.actions), frozen.context, c.mode, h, c.items[n].event, h');
    var events, step := Events(c.items), c.items[n].event.note.body.step;
    forall m | 0 <= m < n && c.items[m].event.note.body.PolicyAction?
      ensures c.items[m].event.note.body.step <= step
    {
      assert events[m] == c.items[m].event;
    }
  }

  /** An attempt of the step was started. */
  ghost predicate Started(events: seq<Event>, step: nat) {
    exists n :: StartsAt(events, n, step)
  }

  lemma {:induction false} AnnouncementCounted(events: seq<Event>, n: nat, step: nat)
    requires n < |events| && events[n].note.body.PolicyAction? && events[n].note.body.step == step
    ensures Announcements(events, step) != []
  {
    if n < |events| - 1 {
      AnnouncementCounted(events[..|events| - 1], n, step);
    }
  }

  /** Every announced step is announced once, or twice if it is a gated call that was started. */
  lemma AnnouncementsAreCounted(c: Case, frozen: Frozen, n: nat)
    requires ClaimsOf(c, frozen).Some? && n < |c.items| && c.items[n].event.note.body.PolicyAction?
    ensures var step := c.items[n].event.note.body.step;
            && step in ByStep(frozen.actions)
            && |Announcements(Events(c.items), step)|
                 == if GatedEntry(ByStep(frozen.actions)[step]) && Started(Events(c.items), step) then 2 else 1
  {
    AnnouncementsAreFrozen(c, frozen, n);
    var step := c.items[n].event.note.body.step;
    var h := PrefixExists(c, frozen, |c.items|);
    assert Events(c.items)[..|c.items|] == Events(c.items);
    hide Fold, Step, ByStep, Serial, Tracks, Anchored, Abandoned, Prefix, SameConsent, Announcements, ClaimsOf;
    AnnouncementCounted(Events(c.items), n, step);
    PrefixLocated(c, frozen, |c.items|, h, step);
    ExecutedIsStarted(h, Events(c.items), step);
    PositionsAtEnd(c, frozen, h);
    hide SameStarts;
    assert step in h.cursor.positions;
  }

  lemma ExecutedIsStarted(h: State, events: seq<Event>, step: nat)
    requires SameStarts(h.ledger, events)
    ensures Executed(h.ledger, step) <==> Started(events, step)
  {
    if Executed(h.ledger, step) {
      var id :| id in h.ledger.startedAt && id.step == step;
      var n :| StartsAt(events, n, id.step) && events[n].note.body.id == id;
    }
    if Started(events, step) {
      var n :| StartsAt(events, n, step);
      assert events[n].note.body.id in h.ledger.startedAt;
    }
  }

  lemma PositionsAtEnd(c: Case, frozen: Frozen, h: State)
    requires Prefix(c, frozen, |c.items|, h)
    ensures PositionsOk(ByStep(frozen.actions), h) && AttemptSemantics(h.ledger)
  {
    hide Step, ByStep, Fold, PositionsOk, AttemptSemantics, ApprovalCycles;
    assert Events(c.items)[..|c.items|] == Events(c.items);
  }

  // ---------------------------------------------------------------- calls and attempts

  /** The call an event belongs to, if it belongs to one. */
  function CallIn(body: Body): Option<Call> {
    match body
    case AttemptStarted(id) => Some(CallOf(id))
    case AttemptClosed(id, _, _, _, _) => Some(CallOf(id))
    case FaultInjected(id, _) => Some(CallOf(id))
    case OutputRejected(id) => Some(CallOf(id))
    case PreflightFailed(step, tool, _, _) => Some(Call(step, tool))
    case WaitingFor(step, tool, _) => Some(Call(step, tool))
    case _ => None
  }

  /** The attempt an event lies inside of. */
  function AttemptIn(body: Body): Option<AttemptId> {
    match body
    case AttemptClosed(id, _, _, _, _) => Some(id)
    case FaultInjected(id, _) => Some(id)
    case OutputRejected(id) => Some(id)
    case _ => None
  }

  /** The status with which each kind of event is recorded. */
  predicate StatusFits(note: Note) {
    match note.body
    case AttemptStarted(_) => note.status.Fine?
    case AttemptClosed(_, closing, _, _, _) => note.status == if closing.ClosedOk? then Fine else Error
    case FaultInjected(_, _) => note.status.Error?
    case OutputRejected(_) => note.status.Error?
    case PreflightFailed(_, _, _, _) => note.status.Error?
    case Checkpointed(_, _, _, _, _, _) => note.status.Fine?
    case RunRunning(_) => note.status.Fine?
    case RunSucceeded(_) => note.status.Fine?
    case RunFailed(_) => note.status.Error?
    case RetryCancelled(_, _) => false
    case RequestRejected(_) => false
    case Unreadable(_) => false
    case _ => true
  }

  lemma PlaceView(plan: Plan, context: Context, mode: Mode, g: State, event: Event, g': State)
    requires Step(plan, context, mode, g, event) == Live(g')
    ensures var note := event.note;
            && StatusFits(note)
            && (CallIn(note.body).Some? ==> g.cursor.active == CallIn(note.body))
            && (AttemptIn(note.body).Some? ==>
                  var id := AttemptIn(note.body).value;
                  id in g.ledger.started && id in g.ledger.spans && note.span == g.ledger.spans[id])
            && (note.body.PreflightFailed? ==>
                  && g.ledger.started == {} && note.body.step in plan && note.body.digest == plan[note.body.step].digest
                  && (note.body.failure.UnknownTool? || note.body.failure.InvalidInput?
                      || note.body.failure.InvalidFaultPlan? || note.body.failure.IdempotencyKeyRequired?))
            && (note.body.ApprovalRecorded? ==>
                  && note.body.step in plan && note.body.digest == plan[note.body.step].digest
                  && plan[note.body.step].tool.Some?
                  && g.cursor.active == Some(Call(note.body.step, plan[note.body.step].tool.value)))
  {
    hide Announceable, Announce, MayStart, Open, Close, CheckpointMatches, TerminalOk, AnyAllowed;
  }

  /** Every event of a call lies between that call's announcement and the next announcement or
      checkpoint, every event of an attempt between its start and its closing and in its span, and
      every event has the status of its kind. */
  lemma EventsAreInPlace(c: Case, frozen: Frozen, n: nat)
    requires ClaimsOf(c, frozen).Some? && n < |c.items|
    ensures var note, events := c.items[n].event.note, Events(c.items);
            && StatusFits(note)
            && (CallIn(note.body).Some? ==> InCall(events, n, CallIn(note.body).value))
            && (AttemptIn(note.body).Some? ==> InAttempt(events, n, AttemptIn(note.body).value, note.span))
  {
    var h := PrefixExists(c, frozen, n);
    var h' := PrefixExists(c, frozen, n + 1);
    hide ClaimsOf, Fold, Step, ByStep, Prefix, Serial, Tracks, Anchored, Abandoned, InCall, InAttempt, StatusFits;
    PrefixStep(c, frozen, n, h, h');
    PrefixMirrored(c, frozen, n, h);
    PlaceView(ByStep(frozen.actions), frozen.context, c.mode, h, c.items[n].event, h');
  }

  /** A preflight failure or a decision names the frozen action of the call that is under way. */
  lemma VerdictsNameTheFrozenAction(c: Case, frozen: Frozen, n: nat)
    requires ClaimsOf(c, frozen).Some? && n < |c.items|
    requires c.items[n].event.note.body.PreflightFailed? || c.items[n].event.note.body.ApprovalRecorded?
    ensures var body, plan := c.items[n].event.note.body, ByStep(frozen.actions);
            && body.step in plan && body.digest == plan[body.step].digest && plan[body.step].tool.Some?
            && InCall(Events(c.items), n, Call(body.step, plan[body.step].tool.value))
            && (body.PreflightFailed? ==>
                  && plan[body.step].tool == Some(body.tool)
                  && (body.failure.UnknownTool? || body.failure.InvalidInput?
                      || body.failure.InvalidFaultPlan? || body.failure.IdempotencyKeyRequired?))
  {
    var h := PrefixExists(c, frozen, n);
    var h' := PrefixExists(c, frozen, n + 1);
    hide ClaimsOf, Fold, Step, ByStep, Prefix, Serial, Tracks, Abandoned, InCall, InAttempt, StatusFits;
    PrefixStep(c, frozen, n, h, h');
    PrefixMirrored(c, frozen, n, h);
    PlaceView(ByStep(frozen.actions), frozen.context, c.mode, h, c.items[n].event, h');
  }

  /** No attempt was cancelled; one that failed on its output has exactly one rejection and will not
      be retried; every other failure is that of exactly one fault. */
  lemma FailuresAreExplained(c: Case, frozen: Frozen, i: nat)
    requires ClaimsOf(c, frozen).Some? && i < |ClaimsOf(c, frozen).value.attempts|
    ensures var claims := ClaimsOf(c, frozen).value;
            var a := claims.attempts[i];
            && !a.closing.ClosedCancelled?
            && (a.closing.ClosedError? && a.code == Some(InvalidOutput) ==>
                  a.transient == Some(false) && multiset(claims.rejections)[a.id] == 1)
            && (a.closing.ClosedError? && a.code != Some(InvalidOutput) ==> ExplainedByOneFault(claims.faults, a))
  {
    var h := PrefixExists(c, frozen, |c.items|);
    LedgerAtEnd(c, frozen, h);
    PositionsAtEnd(c, frozen, h);
    hide ClaimsOf, Fold, Step, ByStep, Prefix, Serial, Tracks, Anchored, Abandoned, PositionsOk, MatchingFaults;
    var a := h.ledger.attempts[i];
    assert AttemptExplained(h.ledger.faults, h.ledger.rejections, a);
    if a.closing.ClosedError? && a.code != Some(InvalidOutput) {
      FaultExplains(h.ledger.faults, h.ledger.rejections, a);
    }
  }

  lemma FaultExplains(faults: seq<Fault>, rejections: seq<AttemptId>, a: Attempt)
    requires AttemptExplained(faults, rejections, a) && a.closing.ClosedError? && a.code != Some(InvalidOutput)
    ensures ExplainedByOneFault(faults, a)
  {
    var kinds := MatchingFaults(faults, a);
    var kind :| kind in kinds;
    assert kinds - {kind} == {};
    forall other | other != kind
      ensures !(multiset(faults)[Fault(a.id, other)] == 1 && a.code == Some(FaultCode(other)))
    {
      assert other !in kinds;
    }
  }

  lemma LedgerAtEnd(c: Case, frozen: Frozen, h: State)
    requires Prefix(c, frozen, |c.items|, h)
    ensures var claims := ClaimsOf(c, frozen).value;
            claims.attempts == h.ledger.attempts && claims.faults == h.ledger.faults
                && claims.rejections == h.ledger.rejections
  {
    hide Step, ByStep, Fold, PositionsOk, AttemptSemantics, ApprovalCycles;
    assert Events(c.items)[..|c.items|] == Events(c.items);
  }

  // ---------------------------------------------------------------- approvals

  /** An approval is reconstructed exactly if a gated frozen call was started; otherwise the trace
      holds no wait, no decision and no resume. */
  lemma ApprovalsOnlyWhereNeeded(c: Case, frozen: Frozen)
    requires ClaimsOf(c, frozen).Some?
    ensures var events := Events(c.items);
            && (ClaimsOf(c, frozen).value.reconstructed
                <==> (exists i :: 0 <= i < |frozen.actions| && GatedEntry(frozen.actions[i])
                                  && Started(events, frozen.actions[i].step)))
            && (!ClaimsOf(c, frozen).value.reconstructed ==>
                Waits(events) == [] && Decisions(events) == [] && Resumes(events) == [])
  {
    var h := PrefixExists(c, frozen, |c.items|);
    assert Events(c.items)[..|c.items|] == Events(c.items);
    CyclesAtEnd(c, frozen, h);
    hide ClaimsOf, Fold, Step, ByStep, Prefix, Serial, Tracks, Anchored, Abandoned, Waits, Decisions, Resumes;
    PrefixLocated(c, frozen, |c.items|, h, 0);
    forall i | 0 <= i < |frozen.actions|
      ensures Executed(h.ledger, frozen.actions[i].step) <==> Started(Events(c.items), frozen.actions[i].step)
    {
      ExecutedIsStarted(h, Events(c.items), frozen.actions[i].step);
    }
    hide Executed, SameStarts, Started, GatedEntry;
    if exists i :: 0 <= i < |frozen.actions| && GatedEntry(frozen.actions[i])
        && Started(Events(c.items), frozen.actions[i].step) {
      var i :| 0 <= i < |frozen.actions| && GatedEntry(frozen.actions[i])
          && Started(Events(c.items), frozen.actions[i].step);
      assert frozen.actions[i].step in GatedSteps(frozen.actions, h);
    } else {
      assert GatedSteps(frozen.actions, h) == {};
    }
  }

  lemma CyclesAtEnd(c: Case, frozen: Frozen, h: State)
    requires Prefix(c, frozen, |c.items|, h)
    ensures ApprovalCycles(c, frozen, h) == Some(ClaimsOf(c, frozen).value.reconstructed)
  {
    hide Step, ByStep, Fold, PositionsOk, AttemptSemantics, ApprovalCycles;
    assert Events(c.items)[..|c.items|] == Events(c.items);
  }

  // ---------------------------------------------------------------- the case as a whole

  /** Where a frozen step stands twice, its last entry is the plan's. */
  lemma {:induction false} LastEntryIsPlanned(actions: seq<LogicalAction>, k: nat)
    requires k < |actions| && forall j :: k < j < |actions| ==> actions[j].step != actions[k].step
    ensures actions[k].step in ByStep(actions) && ByStep(actions)[actions[k].step] == actions[k]
  {
    if k < |actions| - 1 {
      LastEntryIsPlanned(actions[..|actions| - 1], k);
    }
  }

  /** The trace is one trace, in order, and its digest leaves no room for another one; the frozen
      plan numbers its steps from 0, and every entry's fields are those of its payload. */
  lemma CaseIsWhole(c: Case, frozen: Frozen)
    requires ClaimsOf(c, frozen).Some?
    ensures forall other :: ClaimsOf(other, frozen).Some? && other.digest == c.digest ==> other.items == c.items
    ensures forall i, j :: 0 <= i < j < |c.items| ==>
              && c.items[i].event.sequence < c.items[j].event.sequence && c.items[i].eventId != c.items[j].eventId
              && c.items[i].traceId == c.items[j].traceId == c.traceId && c.items[i].parent == Some(c.traceId)
    ensures forall k: nat :: k in ByStep(frozen.actions) <==> k < |ByStep(frozen.actions)|
    ensures forall i :: 0 <= i < |frozen.actions| ==>
              var entry := frozen.actions[i];
              && entry.kind == KindOf(entry.payload) && entry.digest == OfAction(entry.payload)
              && (entry.tool.Some? <==> entry.payload.CallTool?)
              && (entry.payload.CallTool? ==>
                    && entry.tool == Some(entry.payload.tool)
                    && (entry.expected.Some? <==> FixtureOutput(entry.payload.tool, entry.payload.args).Some?))
              && (entry.expected.Some? ==>
                    && entry.payload.CallTool?
                    && entry.expected == Some(OfOutput(FixtureOutput(entry.payload.tool, entry.payload.args).value)))
  {
    hide Fold, Conclude, ByStep, FixtureOutput;
  }
}
