/** What acceptance says about results and refusals: an accepted trace ends as the action it announced
    says, or for a reason that stands in the trace, and never records a denial. */
module GateEnds {
  import opened Domain
  import opened Evidence
  import opened Gate
  import opened GateSoundness
  import opened GateOrder
  import opened GateRetries
  import opened GateApproval

  predicate AnnouncesEnd(body: Body) {
    body.PolicyAction? && !body.action.CallTool?
  }

  predicate Refuses(body: Body) {
    body.ApprovalRecorded? && !body.allow
  }

  // ---------------------------------------------------------------- one step

  /** Where the automaton's memory of ends and denials comes from. */
  lemma MemoryView(plan: Plan, context: Context, mode: Mode, g: State, event: Event, g': State)
    requires Step(plan, context, mode, g, event) == Live(g')
    ensures var body := event.note.body;
            && (g'.cursor.terminalAction.Some? ==>
                  g'.cursor.terminalAction == g.cursor.terminalAction
                  || (AnnouncesEnd(body) && g'.cursor.terminalAction == Some(body.action)))
            && (g'.ending.preflight.Some? ==>
                  g'.ending.preflight == g.ending.preflight
                  || (body.PreflightFailed? && g'.ending.preflight == Some(body.failure)))
            && (g'.consent.mustDeny.Some? || g'.consent.denied.Some? ==>
                  g.consent.mustDeny.Some? || g.consent.denied.Some? || Refuses(body))
            && (body.ApprovalDenied? ==> g.consent.mustDeny.Some?)
  {
    hide Announceable, MayStart, Open, Close, CheckpointMatches, TerminalOk, NamesActive, AnyAllowed;
  }

  /** What is left to do once an end is announced or preflight has failed. */
  lemma ObligationView(plan: Plan, context: Context, mode: Mode, g: State, event: Event, g': State)
    requires Step(plan, context, mode, g, event) == Live(g')
    ensures var body := event.note.body;
            && (AnnouncesEnd(body) ==>
                  && g'.cursor.terminalAction == Some(body.action)
                  && body.step in plan && plan[body.step].payload == body.action)
            && (body.PreflightFailed? ==>
                  && g'.ending.mustFail.Some? && g'.ending.preflight == Some(body.failure)
                  && g'.cursor.terminalAction.None? && g'.consent == g.consent)
            && (g.cursor.terminalAction.Some? || g.ending.mustFail.Some? ==> IsEnd(body))
            && (g.ending.mustFail.Some? ==> body.RunFailed?)
  {
    hide Announceable, MayStart, Open, Close, CheckpointMatches, TerminalOk, NamesActive, AnyAllowed;
    if event.note.body.PolicyAction? {
      AnnounceableView(plan, g.cursor, event.note.body.step, event.note.body.action);
    }
  }

  lemma AnnounceableView(plan: Plan, u: Cursor, step: nat, action: Action)
    ensures Announceable(plan, u, step, action) ==> step in plan && plan[step].payload == action
  {
  }

  /** Which result the terminal event may carry. */
  lemma ResultView(plan: Plan, context: Context, mode: Mode, g: State, event: Event, g': State)
    requires Step(plan, context, mode, g, event) == Live(g') && IsEnd(event.note.body)
    ensures var succeeded, result := event.note.body.RunSucceeded?, event.note.body.result;
            match g.cursor.terminalAction
            case Some(Finish(summary, refs, outcome)) => succeeded && result == Outcome(outcome, summary, refs)
            case Some(Fail(code, explanation)) => !succeeded && result == Failure(code, Explained(explanation))
            case Some(CallTool(_, _, _)) => false
            case None =>
              && !succeeded
              && (g.consent.denied.None? ==>
                   if g.ending.preflight.Some? then result == Failure(g.ending.preflight.value, Bare)
                   else g.ledger.attempts != [] && g.ledger.attempts[|g.ledger.attempts| - 1].closing.ClosedError?)
    ensures g'.ledger == g.ledger
  {
  }

  // ---------------------------------------------------------------- the memory is the trace's

  ghost predicate Happened(events: seq<Event>, n: nat, terminal: Option<Action>, preflight: Option<Code>, refused: bool)
    requires n <= |events|
  {
    && (terminal.Some? ==> exists m ::
        0 <= m < n && AnnouncesEnd(events[m].note.body) && events[m].note.body.action == terminal.value)
    && (preflight.Some? ==>
         exists m :: 0 <= m < n && events[m].note.body.PreflightFailed?
             && events[m].note.body.failure == preflight.value)
    && (refused ==> exists m :: 0 <= m < n && Refuses(events[m].note.body))
  }

  ghost predicate Remembered(events: seq<Event>, n: nat, h: State)
    requires n <= |events|
  {
    Happened(events, n, h.cursor.terminalAction, h.ending.preflight, h.consent.mustDeny.Some? || h.consent.denied.Some?)
  }

  lemma MemoryStep(plan: Plan, context: Context, mode: Mode, events: seq<Event>, n: nat, h: State, h': State)
    requires n < |events| && Step(plan, context, mode, h, events[n]) == Live(h') && Remembered(events, n, h)
    ensures Remembered(events, n + 1, h')
  {
    MemoryView(plan, context, mode, h, events[n], h');
    hide Step;
  }

  lemma {:induction false} PrefixRemembers(c: Case, frozen: Frozen, n: nat, h: State)
    requires n <= |c.items| && Prefix(c, frozen, n, h)
    ensures Remembered(Events(c.items), n, h)
  {
    hide Step, ByStep, ClaimsOf, Serial, Anchored, Abandoned, Tracks, Happened;
    if n == 0 {
      Forgotten(c, frozen, h);
    } else {
      var before := PrefixExists(c, frozen, n - 1);
      PrefixRemembers(c, frozen, n - 1, before);
      PrefixStep(c, frozen, n - 1, before, h);
      MemoryStep(ByStep(frozen.actions), frozen.context, c.mode, Events(c.items), n - 1, before, h);
    }
  }

  lemma Forgotten(c: Case, frozen: Frozen, h: State)
    requires Prefix(c, frozen, 0, h)
    ensures Remembered(Events(c.items), 0, h)
  {
    hide Step, ByStep, ClaimsOf;
    assert Events(c.items)[..0] == [];
  }

  // ---------------------------------------------------------------- denials

  lemma {:induction false} DecisionCounted(events: seq<Event>, n: nat)
    requires n < |events| && Refuses(events[n].note.body)
    ensures exists i :: 0 <= i < |Decisions(events)| && !Decisions(events)[i].allow
  {
    var before := events[..|events| - 1];
    if n < |before| {
      DecisionCounted(before, n);
      var i :| 0 <= i < |Decisions(before)| && !Decisions(before)[i].allow;
      assert !Decisions(events)[i].allow;
    } else {
      assert !Decisions(events)[|Decisions(before)|].allow;
    }
  }

  lemma DecisionsAllow(c: Case, frozen: Frozen, h: State)
    requires Prefix(c, frozen, |c.items|, h)
    ensures forall i :: 0 <= i < |h.consent.decisions| ==> h.consent.decisions[i].allow
  {
    hide Step, ByStep, GatedSteps;
    assert Events(c.items)[..|c.items|] == Events(c.items);
    assert ApprovalCycles(c, frozen, h).Some?;
  }

  /** An accepted trace records no decision against. */
  lemma NoneRefuses(c: Case, frozen: Frozen, n: nat)
    requires ClaimsOf(c, frozen).Some? && n < |c.items|
    ensures !Refuses(c.items[n].event.note.body)
  {
    var g := PrefixExists(c, frozen, |c.items|);
    assert Events(c.items)[..|c.items|] == Events(c.items);
    hide ClaimsOf, Fold, Step, Serial, Tracks, Anchored, ByStep, Abandoned, Prefix, Decisions, Waits, Resumes,
        SameStarts;
    PrefixLocated(c, frozen, |c.items|, g, 0);
    DecisionsAllow(c, frozen, g);
    if Refuses(c.items[n].event.note.body) {
      DecisionCounted(Events(c.items), n);
    }
  }

  /** An accepted trace records no decision against, and no denial. */
  lemma DenialsAreRefused(c: Case, frozen: Frozen, n: nat)
    requires ClaimsOf(c, frozen).Some? && n < |c.items|
    ensures !Refuses(c.items[n].event.note.body) && !c.items[n].event.note.body.ApprovalDenied?
  {
    var h := PrefixExists(c, frozen, n);
    var h' := PrefixExists(c, frozen, n + 1);
    hide ClaimsOf, Fold, Step, ByStep, Prefix, Serial, Tracks, Anchored, Abandoned;
    NoneRefuses(c, frozen, n);
    PrefixRemembers(c, frozen, n, h);
    PrefixStep(c, frozen, n, h, h');
    MemoryView(ByStep(frozen.actions), frozen.context, c.mode, h, c.items[n].event, h');
    if c.items[n].event.note.body.ApprovalDenied? {
      var m :| 0 <= m < n && Refuses(Events(c.items)[m].note.body);
      NoneRefuses(c, frozen, m);
    }
  }

  lemma NeverDenied(c: Case, frozen: Frozen, n: nat, h: State)
    requires n <= |c.items| && Prefix(c, frozen, n, h)
    ensures h.consent.denied.None? && h.consent.mustDeny.None?
  {
    hide ClaimsOf, Fold, Step, ByStep;
    PrefixRemembers(c, frozen, n, h);
    if h.consent.denied.Some? || h.consent.mustDeny.Some? {
      var m :| 0 <= m < n && Refuses(Events(c.items)[m].note.body);
      DenialsAreRefused(c, frozen, m);
    }
  }

  // ---------------------------------------------------------------- results

  /** The event after an obligation to end is the last of the trace. */
  lemma ObligationEnds(c: Case, frozen: Frozen, n: nat, h': State)
    requires n < |c.items| && Prefix(c, frozen, n + 1, h') && !IsEnd(c.items[n].event.note.body)
    requires h'.cursor.terminalAction.Some? || h'.ending.mustFail.Some?
    ensures n == |c.items| - 2
  {
    hide ClaimsOf, Fold, Step, ByStep, Prefix, Serial, Tracks, Anchored, Abandoned;
    PrefixAccepted(c, frozen, n + 1, h');
    EndsOnce(c, frozen);
    var next := PrefixExists(c, frozen, n + 2);
    PrefixStep(c, frozen, n + 1, h', next);
    ObligationView(ByStep(frozen.actions), frozen.context, c.mode, h', c.items[n + 1].event, next);
  }

  lemma PrefixAccepted(c: Case, frozen: Frozen, n: nat, h: State)
    requires n <= |c.items| && Prefix(c, frozen, n, h)
    ensures ClaimsOf(c, frozen).Some?
  {
  }

  /** The state in which the last event of an accepted case arrives, and what that event says. */
  lemma LastStep(c: Case, frozen: Frozen) returns (h: State)
    requires ClaimsOf(c, frozen).Some?
    ensures |c.items| > 0 && Prefix(c, frozen, |c.items| - 1, h) && IsEnd(c.items[|c.items| - 1].event.note.body)
    ensures var claims := ClaimsOf(c, frozen).value;
            match h.cursor.terminalAction
            case Some(Finish(summary, refs, outcome)) =>
              claims.status.Succeeded? && claims.result == Outcome(outcome, summary, refs)
            case Some(Fail(code, explanation)) =>
              claims.status.Failed? && claims.result == Failure(code, Explained(explanation))
            case Some(CallTool(_, _, _)) => false
            case None =>
              && claims.status.Failed?
              && if h.ending.preflight.Some? then claims.result == Failure(h.ending.preflight.value, Bare)
                 else claims.attempts != [] && claims.attempts[|claims.attempts| - 1].closing.ClosedError?
  {
    hide ClaimsOf, Fold, Step, ByStep, Prefix, Serial, Tracks, Anchored, Abandoned;
    EndsOnce(c, frozen);
    h := PrefixExists(c, frozen, |c.items| - 1);
    var g := PrefixExists(c, frozen, |c.items|);
    PrefixStep(c, frozen, |c.items| - 1, h, g);
    ResultView(ByStep(frozen.actions), frozen.context, c.mode, h, c.items[|c.items| - 1].event, g);
    NeverDenied(c, frozen, |c.items| - 1, h);
    AttemptsAtEnd(c, frozen, g);
  }

  lemma AttemptsAtEnd(c: Case, frozen: Frozen, g: State)
    requires Prefix(c, frozen, |c.items|, g)
    ensures ClaimsOf(c, frozen).value.attempts == g.ledger.attempts
  {
    hide Step, ByStep;
    assert Events(c.items)[..|c.items|] == Events(c.items);
  }

  /** The announcement of an end is the last event but one, is the frozen action of its step, and
      decides status and result. */
  lemma EndsAsAnnounced(c: Case, frozen: Frozen, n: nat)
    requires ClaimsOf(c, frozen).Some? && n < |c.items| && AnnouncesEnd(c.items[n].event.note.body)
    ensures n == |c.items| - 2
    ensures var body, claims := c.items[n].event.note.body, ClaimsOf(c, frozen).value;
            && body.step in ByStep(frozen.actions) && ByStep(frozen.actions)[body.step].payload == body.action
            && match body.action
               case Finish(summary, refs, outcome) =>
                 claims.status.Succeeded? && claims.result == Outcome(outcome, summary, refs)
               case Fail(code, explanation) =>
                 claims.status.Failed? && claims.result == Failure(code, Explained(explanation))
               case CallTool(_, _, _) => false
  {
    var h := PrefixExists(c, frozen, n);
    var h' := PrefixExists(c, frozen, n + 1);
    hide ClaimsOf, Fold, Step, ByStep, Prefix, Serial, Tracks, Anchored, Abandoned;
    PrefixStep(c, frozen, n, h, h');
    ObligationView(ByStep(frozen.actions), frozen.context, c.mode, h, c.items[n].event, h');
    ObligationEnds(c, frozen, n, h');
    var last := LastStep(c, frozen);
    SamePrefix(c, frozen, n + 1, h', last);
  }

  lemma SamePrefix(c: Case, frozen: Frozen, n: nat, h: State, h': State)
    requires n <= |c.items| && Prefix(c, frozen, n, h) && Prefix(c, frozen, n, h')
    ensures h == h'
  {
    hide ClaimsOf, Fold;
  }

  /** A failed preflight is the last event but one, and its code is the result. */
  lemma EndsAfterPreflight(c: Case, frozen: Frozen, n: nat)
    requires ClaimsOf(c, frozen).Some? && n < |c.items| && c.items[n].event.note.body.PreflightFailed?
    ensures n == |c.items| - 2
    ensures var claims := ClaimsOf(c, frozen).value;
            claims.status.Failed? && claims.result == Failure(c.items[n].event.note.body.failure, Bare)
  {
    var h := PrefixExists(c, frozen, n);
    var h' := PrefixExists(c, frozen, n + 1);
    hide ClaimsOf, Fold, Step, ByStep, Prefix, Serial, Tracks, Anchored, Abandoned;
    PrefixStep(c, frozen, n, h, h');
    ObligationView(ByStep(frozen.actions), frozen.context, c.mode, h, c.items[n].event, h');
    ObligationEnds(c, frozen, n, h');
    var last := LastStep(c, frozen);
    SamePrefix(c, frozen, n + 1, h', last);
  }

  /** The trace announces an end or reports a failed preflight. */
  predicate Excused(c: Case) {
    exists n :: 0 <= n < |c.items|
        && (AnnouncesEnd(c.items[n].event.note.body) || c.items[n].event.note.body.PreflightFailed?)
  }

  /** Every accepted trace ends for a reason that stands in it: the action it announced, which is the
      frozen one, with that action's own result; a failed preflight with its code; or else its last
      attempt failed, and so did the run. */
  lemma ResultIsExplained(c: Case, frozen: Frozen)
    requires ClaimsOf(c, frozen).Some?
    ensures forall n :: 0 <= n < |c.items| && c.items[n].event.note.body.PolicyAction? ==>
              var claims, body := ClaimsOf(c, frozen).value, c.items[n].event.note.body;
              match body.action
              case Finish(summary, refs, outcome) =>
                && n == |c.items| - 2
                && claims.status.Succeeded? && claims.result == Outcome(outcome, summary, refs)
              case Fail(code, explanation) =>
                && n == |c.items| - 2
                && claims.status.Failed? && claims.result == Failure(code, Explained(explanation))
              case CallTool(_, _, _) => true
    ensures forall n :: 0 <= n < |c.items| && c.items[n].event.note.body.PreflightFailed? ==>
              var claims := ClaimsOf(c, frozen).value;
              && n == |c.items| - 2 && claims.status.Failed?
              && claims.result == Failure(c.items[n].event.note.body.failure, Bare)
    ensures !Excused(c) ==>
              var claims := ClaimsOf(c, frozen).value;
              && claims.status.Failed?
              && claims.attempts != [] && claims.attempts[|claims.attempts| - 1].closing.ClosedError?
  {
    hide ClaimsOf, Fold, Step, ByStep, Prefix, Serial, Tracks, Anchored, Abandoned;
    forall n | 0 <= n < |c.items| && AnnouncesEnd(c.items[n].event.note.body)
      ensures n == |c.items| - 2
      ensures var claims, body := ClaimsOf(c, frozen).value, c.items[n].event.note.body;
              match body.action
              case Finish(summary, refs, outcome) =>
                claims.status.Succeeded? && claims.result == Outcome(outcome, summary, refs)
              case Fail(code, explanation) =>
                claims.status.Failed? && claims.result == Failure(code, Explained(explanation))
              case CallTool(_, _, _) => true
    {
      EndsAsAnnounced(c, frozen, n);
    }
    forall n | 0 <= n < |c.items| && c.items[n].event.note.body.PreflightFailed?
      ensures var claims := ClaimsOf(c, frozen).value;
              && n == |c.items| - 2 && claims.status.Failed?
              && claims.result == Failure(c.items[n].event.note.body.failure, Bare)
    {
      EndsAfterPreflight(c, frozen, n);
    }
    if !Excused(c) {
      NothingAnnounced(c, frozen);
    }
  }

  lemma NothingAnnounced(c: Case, frozen: Frozen)
    requires ClaimsOf(c, frozen).Some? && !Excused(c)
    ensures var claims := ClaimsOf(c, frozen).value;
            && claims.status.Failed?
            && claims.attempts != [] && claims.attempts[|claims.attempts| - 1].closing.ClosedError?
  {
    hide ClaimsOf, Fold, Step, ByStep, Prefix, Serial, Tracks, Anchored, Abandoned;
    var last := LastStep(c, frozen);
    PrefixRemembers(c, frozen, |c.items| - 1, last);
    assert last.cursor.terminalAction.None? && last.ending.preflight.None?;
  }
}
