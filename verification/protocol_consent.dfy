/** Approvals under every interleaving: one decision per step, no gated attempt without it,
    and no way past a denial. */
module ProtocolConsent {
  import opened Domain
  import opened Rows
  import opened Gateway
  import opened Protocol
  import opened ProtocolCore
  import opened ProtocolProgress

  datatype Recorded = Recorded(digest: Digest, actor: string, allow: bool)

  /** The decisions the trace records for a step, in order. */
  function DecisionsAt(events: seq<Event>, step: nat): seq<Recorded> {
    if events == [] then []
    else
      var rest, body := DecisionsAt(events[..|events| - 1], step), events[|events| - 1].note.body;
      if body.ApprovalRecorded? && body.step == step
      then rest + [Recorded(body.digest, body.actor, body.allow)] else rest
  }

  function RowsAt(approvals: map<nat, ApprovalRow>, step: nat): seq<Recorded> {
    if step in approvals
    then [Recorded(approvals[step].digest, approvals[step].actor, approvals[step].allow)] else []
  }

  predicate Approved(t: Tables, step: nat, action: Action) {
    step in t.approvals && t.approvals[step].allow && t.approvals[step].digest == OfAction(action)
  }

  predicate Gated(action: Action) {
    action.CallTool? && RequiresApproval(action.tool)
  }

  predicate GateOk(t: Tables, w: Worker) {
    PastGate(w.pc) && Gated(Carried(w.pc).value) ==> Approved(t, w.run.step, Carried(w.pc).value)
  }

  predicate StartsGated(note: Note) {
    note.body.AttemptStarted? && RequiresApproval(note.body.id.tool)
  }

  predicate Allows(note: Note, step: nat) {
    note.body.ApprovalRecorded? && note.body.step == step && note.body.allow
  }

  /** Every gated start comes after an approval of its step. */
  ghost predicate StartsApproved(events: seq<Event>) {
    forall n :: 0 <= n < |events| && StartsGated(events[n].note) ==>
      exists m :: 0 <= m < n && Allows(events[m].note, events[n].note.body.id.step)
  }

  /** Decided steps are not ahead of the run; a denied step is where the run stands. */
  predicate Held(t: Tables) {
    forall step :: step in t.approvals ==>
      && step <= t.run.step
      && (!t.approvals[step].allow ==>
        && t.run.step == step
        && (t.run.status.Failed?
            || (t.run.pendingAction.Some? && OfAction(t.run.pendingAction.value) == t.approvals[step].digest)))
  }

  ghost predicate Consented(s: State) {
    && (forall step: nat :: DecisionsAt(s.t.events, step) == RowsAt(s.t.approvals, step))
    && (forall k :: k in s.workers ==> GateOk(s.t, s.workers[k]))
    && StartsApproved(s.t.events)
    && Held(s.t)
  }

  // ---------------------------------------------------------------- views

  lemma ApprovalsView(cfg: Config, s: State, step: Step, s': State)
    requires Next(cfg, s, step) == Some(s') && !step.DoDecide?
    ensures s'.t.approvals == s.t.approvals
  {
    if step.DoCommit? {
      var plan := CommitView(cfg, s, step.token, step.now, s');
      AppendAllKeeps(s.t.(run := plan.run.(version := s.t.run.version + 1)), plan.notes);
      hide Next, Commit, Planned, AppendAll;
    } else {
      hide Thought, Said, Commit, Unclaimed, Granted;
    }
  }

  lemma DecideView(cfg: Config, s: State, step: Step, s': State)
    requires Next(cfg, s, step) == Some(s') && step.DoDecide?
    ensures s' == s ||
            (&& step.step !in s.t.approvals && PendingAt(s.t.run, step.step, step.row.digest)
             && s'.t.approvals == s.t.approvals[step.step := step.row]
             && s'.t.events == s.t.events + [Event(s.t.counter + 1,
                  Note(s.t.counter + 1, Fine,
                      ApprovalRecorded(step.step, step.row.digest, step.row.actor, step.row.allow)))]
             && s' == s.(t := s.t.(approvals := s'.t.approvals, events := s'.t.events, counter := s'.t.counter)))
  {
    hide Thought, Said, Commit;
  }

  lemma {:induction false} DecisionsExtend(events: seq<Event>, event: Event, step: nat)
    ensures DecisionsAt(events + [event], step) == DecisionsAt(events, step) + (
              var body := event.note.body;
              if body.ApprovalRecorded? && body.step == step
              then [Recorded(body.digest, body.actor, body.allow)] else [])
  {
    assert (events + [event])[..|events|] == events;
  }

  lemma {:induction false} DecisionInTrace(events: seq<Event>, step: nat, i: nat) returns (m: nat)
    requires i < |DecisionsAt(events, step)|
    ensures m < |events| && events[m].note.body.ApprovalRecorded? && events[m].note.body.step == step
    ensures events[m].note.body.allow == DecisionsAt(events, step)[i].allow
    ensures events[m].note.body.digest == DecisionsAt(events, step)[i].digest
  {
    var before := events[..|events| - 1];
    if i < |DecisionsAt(before, step)| {
      m := DecisionInTrace(before, step, i);
    } else {
      m := |events| - 1;
    }
  }

  // ---------------------------------------------------------------- workers stay behind the gate

  lemma PlanLeavesGate(cfg: Config, w: Worker, plan: Plan)
    requires Planned(cfg, w) == Some(plan)
    ensures !PastGate(plan.next)
    ensures forall i :: 0 <= i < |plan.notes| ==>
            !plan.notes[i].body.ApprovalRecorded? && !plan.notes[i].body.AttemptStarted?
  {
  }

  lemma ThoughtKeepsGate(cfg: Config, t: Tables, w: Worker, choice: Option<Action>, pc: Pc)
    requires GateOk(t, w) && Thought(cfg, t, w, choice) == Some(pc)
    ensures GateOk(t, w.(pc := pc))
  {
    hide ConsentCode;
  }

  lemma SaidKeepsGate(cfg: Config, t: Tables, w: Worker, counter: nat, saying: Saying, speech: Speech)
    requires GateOk(t, w) && Said(cfg, w, counter, saying) == Some(speech)
    ensures GateOk(t, w.(pc := speech.next)) && !speech.note.body.ApprovalRecorded?
    ensures StartsGated(speech.note) ==>
              && w.pc.Attempting? && Gated(w.pc.action) && Approved(t, w.run.step, w.pc.action)
              && speech.note.body.id.step == w.run.step
  {
  }

  lemma GateStep(cfg: Config, s: State, step: Step, s': State)
    requires Next(cfg, s, step) == Some(s')
    requires forall k :: k in s.workers ==> GateOk(s.t, s.workers[k])
    requires s.t.approvals.Items <= s'.t.approvals.Items
    ensures forall k :: k in s'.workers ==> GateOk(s'.t, s'.workers[k])
  {
    GateStepSameRows(cfg, s, step, s');
    forall k | k in s'.workers
      ensures GateOk(s'.t, s'.workers[k])
    {
      assert GateOk(s.t, s'.workers[k]);
      if PastGate(s'.workers[k].pc) && Gated(Carried(s'.workers[k].pc).value) {
        var at := s'.workers[k].run.step;
        assert (at, s.t.approvals[at]) in s.t.approvals.Items;
      }
    }
  }

  lemma GateStepSameRows(cfg: Config, s: State, step: Step, s': State)
    requires Next(cfg, s, step) == Some(s')
    requires forall k :: k in s.workers ==> GateOk(s.t, s.workers[k])
    ensures forall k :: k in s'.workers ==> GateOk(s.t, s'.workers[k])
  {
    if step.DoCommit? {
      var plan := CommitView(cfg, s, step.token, step.now, s');
      PlanLeavesGate(cfg, s.workers[step.token], plan);
      hide Next, Commit, Planned, Carried, AppendAll;
    } else if step.DoThink? {
      var pc := Thought(cfg, s.t, s.workers[step.token], step.choice).value;
      ThoughtKeepsGate(cfg, s.t, s.workers[step.token], step.choice, pc);
      hide Thought, GateOk;
    } else if step.DoSay? {
      var speech := Said(cfg, s.workers[step.token], s.t.counter, step.saying).value;
      SaidKeepsGate(cfg, s.t, s.workers[step.token], s.t.counter, step.saying, speech);
      hide Said, GateOk;
    } else {
      RestView(cfg, s, step, s');
      hide Next, Carried, Approved;
    }
  }

  // ---------------------------------------------------------------- the trace

  lemma QuietEvents(cfg: Config, s: State, step: Step, s': State)
    requires Next(cfg, s, step) == Some(s') && !step.DoDecide? && !step.DoCommit? && !step.DoSay? && !step.DoReject?
    ensures s'.t.events == s.t.events
  {
    hide Thought, Unclaimed, Granted;
  }

  /** A step of a worker adds no decision, and a gated start only under an approval. */
  lemma WorkerEvents(cfg: Config, s: State, step: Step, s': State) returns (notes: seq<Note>)
    requires Next(cfg, s, step) == Some(s') && !step.DoDecide?
    requires forall k :: k in s.workers ==> GateOk(s.t, s.workers[k])
    ensures |s'.t.events| == |s.t.events| + |notes| && s'.t.events[..|s.t.events|] == s.t.events
    ensures forall i :: 0 <= i < |notes| ==> s'.t.events[|s.t.events| + i].note == notes[i]
    ensures forall i :: 0 <= i < |notes| ==> !notes[i].body.ApprovalRecorded?
    ensures forall i :: 0 <= i < |notes| && StartsGated(notes[i]) ==>
              |notes| == 1 && exists a :: Approved(s.t, notes[i].body.id.step, a)
  {
    notes := [];
    if step.DoCommit? {
      var plan := CommitView(cfg, s, step.token, step.now, s');
      PlanLeavesGate(cfg, s.workers[step.token], plan);
      AppendAllKeeps(s.t.(run := plan.run.(version := s.t.run.version + 1)), plan.notes);
      hide Next, Commit, Planned, AppendAll, GateOk;
      if Saved(cfg, s, step.token, plan, s') {
        notes := plan.notes;
      }
    } else if step.DoSay? {
      var speech := Said(cfg, s.workers[step.token], s.t.counter, step.saying).value;
      SaidKeepsGate(cfg, s.t, s.workers[step.token], s.t.counter, step.saying, speech);
      notes := [speech.note];
      hide Said, GateOk;
    } else if step.DoReject? {
      notes := [Note(0, Error, RequestRejected(step.cause))];
      hide GateOk;
    } else {
      QuietEvents(cfg, s, step, s');
      hide Next, GateOk;
    }
  }

  lemma {:induction false} SameDecisions(events: seq<Event>, more: seq<Event>, step: nat)
    requires |events| <= |more| && more[..|events|] == events
    requires forall i :: |events| <= i < |more| ==> !more[i].note.body.ApprovalRecorded?
    ensures DecisionsAt(more, step) == DecisionsAt(events, step)
  {
    if |more| > |events| {
      var before := more[..|more| - 1];
      assert before[..|events|] == events;
      SameDecisions(events, before, step);
    } else {
      assert more == events;
    }
  }

  lemma StartsExtend(events: seq<Event>, more: seq<Event>)
    requires StartsApproved(events)
    requires |events| <= |more| && more[..|events|] == events
    requires forall n :: |events| <= n < |more| && StartsGated(more[n].note) ==>
               exists m :: 0 <= m < |events| && Allows(events[m].note, more[n].note.body.id.step)
    ensures StartsApproved(more)
  {
    forall n | 0 <= n < |more| && StartsGated(more[n].note)
      ensures exists m :: 0 <= m < n && Allows(more[m].note, more[n].note.body.id.step)
    {
      if n < |events| {
        assert more[n] == events[n];
        var m :| 0 <= m < n && Allows(events[m].note, events[n].note.body.id.step);
        assert more[m] == events[m];
      } else {
        var m :| 0 <= m < |events| && Allows(events[m].note, more[n].note.body.id.step);
        assert more[m] == events[m];
      }
    }
  }

  lemma TraceStep(cfg: Config, s: State, step: Step, s': State)
    requires Consented(s) && Next(cfg, s, step) == Some(s') && !step.DoDecide?
    ensures forall at: nat :: DecisionsAt(s'.t.events, at) == RowsAt(s'.t.approvals, at)
    ensures StartsApproved(s'.t.events)
  {
    ApprovalsView(cfg, s, step, s');
    var notes := WorkerEvents(cfg, s, step, s');
    hide Next, GateOk, Held, StartsApproved;
    forall i | |s.t.events| <= i < |s'.t.events|
      ensures !s'.t.events[i].note.body.ApprovalRecorded?
    {
      assert s'.t.events[|s.t.events| + (i - |s.t.events|)].note == notes[i - |s.t.events|];
    }
    forall at: nat
      ensures DecisionsAt(s'.t.events, at) == RowsAt(s'.t.approvals, at)
    {
      SameDecisions(s.t.events, s'.t.events, at);
    }
    forall n | |s.t.events| <= n < |s'.t.events| && StartsGated(s'.t.events[n].note)
      ensures exists m :: 0 <= m < |s.t.events| && Allows(s.t.events[m].note, s'.t.events[n].note.body.id.step)
    {
      var at := s'.t.events[n].note.body.id.step;
      assert StartsGated(notes[n - |s.t.events|]);
      assert DecisionsAt(s.t.events, at) == RowsAt(s.t.approvals, at);
      var m := DecisionInTrace(s.t.events, at, 0);
      assert Allows(s.t.events[m].note, at);
    }
    StartsExtend(s.t.events, s'.t.events);
  }

  // ---------------------------------------------------------------- denials hold

  lemma PlanHolds(cfg: Config, t: Tables, w: Worker, plan: Plan)
    requires WorkerOk(cfg, w) && GateOk(t, w) && Planned(cfg, w) == Some(plan)
    requires w.run == t.run && Held(t)
    requires w.run.pendingAction.Some? ==> Stable(w.run.pendingAction.value)
    ensures Held(t.(run := plan.run))
  {
    hide ConsentCode;
  }

  lemma HeldStep(cfg: Config, s: State, step: Step, s': State)
    requires Invariant(cfg, s) && Consented(s) && Next(cfg, s, step) == Some(s')
    ensures Held(s'.t)
  {
    if step.DoCommit? {
      ApprovalsView(cfg, s, step, s');
      var plan := CommitView(cfg, s, step.token, step.now, s');
      var w := s.workers[step.token];
      AppendAllKeeps(s.t.(run := plan.run.(version := s.t.run.version + 1)), plan.notes);
      assert WorkerOk(cfg, w) && GateOk(s.t, w);
      assert Saved(cfg, s, step.token, plan, s') ==> w.run == s.t.run;
      hide Next, Commit, Progress, Tickets, AllOk, AppendAll, Coherent;
      if Saved(cfg, s, step.token, plan, s') {
        PlanHolds(cfg, s.t, w, plan);
        hide Planned, WorkerOk, GateOk;
        HeldByFields(s.t.(run := plan.run), s'.t);
      }
    } else {
      OthersKeepRun(cfg, s, step, s');
      if step.DoDecide? {
        DecideView(cfg, s, step, s');
        assert s.t.run.status.WaitingApproval? ==> s.t.run.pendingAction.Some?;
        hide Next, Progress, Tickets, Coherent;
      } else {
        ApprovalsView(cfg, s, step, s');
        hide Next, Invariant;
      }
    }
  }

  lemma HeldByFields(t: Tables, t': Tables)
    requires Held(t) && t'.approvals == t.approvals
    requires t'.run.step == t.run.step && t'.run.status == t.run.status && t'.run.pendingAction == t.run.pendingAction
    ensures Held(t')
  {
  }

  // ---------------------------------------------------------------- every interleaving

  lemma DecideConsented(cfg: Config, s: State, step: Step, s': State)
    requires Invariant(cfg, s) && Consented(s) && Next(cfg, s, step) == Some(s') && step.DoDecide?
    ensures Consented(s')
    ensures s.t.approvals.Items <= s'.t.approvals.Items
  {
    hide Held, Invariant, Next, GateOk, Record;
    DecideView(cfg, s, step, s');
    HeldStep(cfg, s, step, s');
    if s' != s {
      assert s.t.approvals.Items <= s'.t.approvals.Items;
      GateStep(cfg, s, step, s');
      var event := s'.t.events[|s.t.events|];
      forall at: nat
        ensures DecisionsAt(s'.t.events, at) == RowsAt(s'.t.approvals, at)
      {
        assert DecisionsAt(s.t.events, at) == RowsAt(s.t.approvals, at);
        DecisionsExtend(s.t.events, event, at);
      }
      StartsExtend(s.t.events, s'.t.events);
    }
  }

  lemma ConsentedStep(cfg: Config, s: State, step: Step, s': State)
    requires Invariant(cfg, s) && Consented(s) && Next(cfg, s, step) == Some(s')
    ensures Consented(s')
    ensures s.t.approvals.Items <= s'.t.approvals.Items
  {
    if step.DoDecide? {
      hide Next, Invariant, Consented;
      DecideConsented(cfg, s, step, s');
    } else {
      HeldStep(cfg, s, step, s');
      TraceStep(cfg, s, step, s');
      ApprovalsView(cfg, s, step, s');
      GateStep(cfg, s, step, s');
      hide Next, GateOk, Held, StartsApproved;
    }
  }

  lemma StartConsented(mode: Mode, context: Context)
    ensures Consented(Start(mode, context))
  {
  }

  lemma {:induction false} ConsentHolds(cfg: Config, mode: Mode, context: Context, steps: seq<Step>, s: State)
    requires Execution(cfg, Start(mode, context), steps) == Some(s)
    ensures Consented(s)
  {
    hide Next, Invariant, Consented;
    if steps == [] {
      StartConsented(mode, context);
    } else {
      var before := steps[..|steps| - 1];
      var m := Execution(cfg, Start(mode, context), before).value;
      InvariantHolds(cfg, mode, context, before, m);
      ConsentHolds(cfg, mode, context, before, m);
      ConsentedStep(cfg, m, steps[|steps| - 1], s);
    }
  }

  /** In every reachable trace, a gated attempt has exactly one recorded decision for its step,
      that decision allows it, and it was recorded before the attempt started. */
  lemma {:induction false} GatedAttemptsAreApproved(cfg: Config, mode: Mode, context: Context, steps: seq<Step>,
      s: State, n: nat)
    requires Execution(cfg, Start(mode, context), steps) == Some(s)
    requires n < |s.t.events| && StartsGated(s.t.events[n].note)
    ensures var step := s.t.events[n].note.body.id.step;
            && |DecisionsAt(s.t.events, step)| == 1 && DecisionsAt(s.t.events, step)[0].allow
            && exists m :: 0 <= m < n && Allows(s.t.events[m].note, step)
  {
    ConsentHolds(cfg, mode, context, steps, s);
    hide Execution;
    var step := s.t.events[n].note.body.id.step;
    var m :| 0 <= m < n && Allows(s.t.events[m].note, step);
    assert DecisionsAt(s.t.events, step) == RowsAt(s.t.approvals, step);
    AllowedDecision(s.t.events, m, step);
  }

  lemma {:induction false} AllowedDecision(events: seq<Event>, m: nat, step: nat)
    requires m < |events| && Allows(events[m].note, step)
    ensures exists i :: 0 <= i < |DecisionsAt(events, step)| && DecisionsAt(events, step)[i].allow
  {
    var before := events[..|events| - 1];
    if m < |events| - 1 {
      AllowedDecision(before, m, step);
      var i :| 0 <= i < |DecisionsAt(before, step)| && DecisionsAt(before, step)[i].allow;
      assert DecisionsAt(events, step)[i].allow;
    } else {
      assert DecisionsAt(events, step)[|DecisionsAt(before, step)|].allow;
    }
  }

  /** A worker of a reachable state that is about to start a gated attempt holds an approval
      of exactly the action it is about to attempt. */
  lemma {:induction false} StartsMatchTheDecision(cfg: Config, mode: Mode, context: Context, steps: seq<Step>, s: State,
      token: Token)
    requires Execution(cfg, Start(mode, context), steps) == Some(s)
    requires token in s.workers && s.workers[token].pc.Attempting? && Gated(s.workers[token].pc.action)
    ensures Approved(s.t, s.workers[token].run.step, s.workers[token].pc.action)
  {
    ConsentHolds(cfg, mode, context, steps, s);
    hide Execution, Held, StartsApproved;
    assert GateOk(s.t, s.workers[token]);
  }

  /** Once a denial is recorded, no gated attempt of its step is or will be in the trace, and
      the run never gets past that step, whichever worker resumes it. */
  lemma {:induction false} DenialIsFinal(cfg: Config, mode: Mode, context: Context, steps: seq<Step>, s: State,
      more: seq<Step>, s': State, step: nat)
    requires Execution(cfg, Start(mode, context), steps) == Some(s)
    requires step in s.t.approvals && !s.t.approvals[step].allow
    requires Execution(cfg, s, more) == Some(s')
    ensures Invariant(cfg, s') && Consented(s')
    ensures step in s'.t.approvals && s'.t.approvals[step] == s.t.approvals[step]
    ensures s'.t.run.step == step && !s'.t.run.status.Succeeded?
    ensures forall n :: 0 <= n < |s'.t.events| && StartsGated(s'.t.events[n].note) ==>
            s'.t.events[n].note.body.id.step != step
  {
    hide Next, Invariant, Consented;
    if more == [] {
      InvariantHolds(cfg, mode, context, steps, s);
      ConsentHolds(cfg, mode, context, steps, s);
    } else {
      var m := Execution(cfg, s, more[..|more| - 1]).value;
      DenialIsFinal(cfg, mode, context, steps, s, more[..|more| - 1], m, step);
      InvariantStep(cfg, m, more[|more| - 1], s');
      ConsentedStep(cfg, m, more[|more| - 1], s');
      assert (step, s.t.approvals[step]) in m.t.approvals.Items;
    }
    hide Execution;
    DeniedNow(cfg, s', step);
  }

  lemma DeniedNow(cfg: Config, s: State, step: nat)
    requires Invariant(cfg, s) && Consented(s) && step in s.t.approvals && !s.t.approvals[step].allow
    ensures s.t.run.step == step && !s.t.run.status.Succeeded?
    ensures forall n :: 0 <= n < |s.t.events| && StartsGated(s.t.events[n].note) ==>
            s.t.events[n].note.body.id.step != step
  {
    assert DecisionsAt(s.t.events, step) == RowsAt(s.t.approvals, step);
    forall n | 0 <= n < |s.t.events| && StartsGated(s.t.events[n].note)
      ensures s.t.events[n].note.body.id.step != step
    {
      if s.t.events[n].note.body.id.step == step {
        var m :| 0 <= m < n && Allows(s.t.events[m].note, step);
        AllowedDecision(s.t.events, m, step);
      }
    }
  }
}
