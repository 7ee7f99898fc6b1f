/** What was approved is what was announced and is attempted: the digest of the decision before a
    gated start is that of an action announced at its step, for the tool that is started. */
module ProtocolAnnounced {
  import opened Domain
  import opened Rows
  import opened Gateway
  import opened Protocol
  import opened ProtocolCore
  import opened ProtocolProgress
  import opened ProtocolConsent

  /** The event announces the action, as the gateway stabilises it, at the step. */
  predicate Announces(note: Note, step: nat, action: Action) {
    && note.body.PolicyAction? && note.body.step == step && note.body.action.CallTool?
    && Stabilise(step, note.body.action) == action
  }

  ghost predicate Told(events: seq<Event>, step: nat, action: Action) {
    exists j :: 0 <= j < |events| && Announces(events[j].note, step, action)
  }

  /** A worker with a call in hand has announced it. */
  ghost predicate ToldOk(events: seq<Event>, w: Worker) {
    && (w.pc.Announced? && w.pc.action.CallTool? ==> Told(events, w.run.step, Stabilise(w.run.step, w.pc.action)))
    && ((w.pc.Consulting? || PastGate(w.pc)) && Carried(w.pc).value.CallTool? ==>
        Told(events, w.run.step, Carried(w.pc).value))
  }

  /** The event records an approval of exactly this action at this step. */
  predicate Approves(note: Note, step: nat, action: Action) {
    Allows(note, step) && note.body.digest == OfAction(action)
  }

  /** The start of the attempt follows an announcement and an approval of one action for its tool. */
  ghost predicate StartMatches(events: seq<Event>, n: nat)
    requires n < |events| && StartsGated(events[n].note)
  {
    var id := events[n].note.body.id;
    exists action: Action, j: nat, m: nat ::
      && j < n && m < n && action.CallTool? && action.tool == id.tool
      && Announces(events[j].note, id.step, action) && Approves(events[m].note, id.step, action)
  }

  ghost predicate AllTold(s: State) {
    && (forall k :: k in s.workers ==> ToldOk(s.t.events, s.workers[k]))
    && (forall n :: 0 <= n < |s.t.events| && StartsGated(s.t.events[n].note) ==> StartMatches(s.t.events, n))
  }

  lemma ToldMore(events: seq<Event>, more: seq<Event>, step: nat, action: Action)
    requires events <= more && Told(events, step, action)
    ensures Told(more, step, action)
  {
    var j :| 0 <= j < |events| && Announces(events[j].note, step, action);
    assert more[j] == events[j];
  }

  lemma ToldOkMore(events: seq<Event>, more: seq<Event>, w: Worker)
    requires events <= more && ToldOk(events, w)
    ensures ToldOk(more, w)
  {
    hide Told;
    if w.pc.Announced? && w.pc.action.CallTool? {
      ToldMore(events, more, w.run.step, Stabilise(w.run.step, w.pc.action));
    }
    if (w.pc.Consulting? || PastGate(w.pc)) && Carried(w.pc).value.CallTool? {
      ToldMore(events, more, w.run.step, Carried(w.pc).value);
    }
  }

  lemma MatchesMore(events: seq<Event>, more: seq<Event>, n: nat)
    requires events <= more && n < |events| && StartsGated(events[n].note) && StartMatches(events, n)
    ensures StartMatches(more, n)
  {
    var id := events[n].note.body.id;
    var action: Action, j: nat, m: nat :|
      && j < n && m < n && action.CallTool? && action.tool == id.tool
      && Announces(events[j].note, id.step, action) && Approves(events[m].note, id.step, action);
    assert more[j] == events[j] && more[m] == events[m] && more[n] == events[n];
  }

  // ---------------------------------------------------------------- steps of one worker

  lemma ThoughtTold(cfg: Config, t: Tables, w: Worker, choice: Option<Action>, pc: Pc)
    requires ToldOk(t.events, w) && Thought(cfg, t, w, choice) == Some(pc)
    ensures ToldOk(t.events, w.(pc := pc))
  {
    hide ConsentCode, PreflightCode, Told;
  }

  lemma SaidTold(cfg: Config, events: seq<Event>, w: Worker, counter: nat, saying: Saying, speech: Speech)
    requires ToldOk(events, w) && Said(cfg, w, counter, saying) == Some(speech)
    ensures ToldOk(events + [Event(counter + 1, speech.note)], w.(pc := speech.next))
  {
    var more := events + [Event(counter + 1, speech.note)];
    ToldOkMore(events, more, w);
    if w.pc.Chosen? && w.pc.action.CallTool? {
      assert Announces(more[|events|].note, w.run.step, Stabilise(w.run.step, w.pc.action));
    }
    hide PreflightCode, Stabilise;
  }

  /** A gated start is spoken by a worker that has announced its call and stands behind the gate. */
  lemma StartTold(cfg: Config, s: State, token: Token, saying: Saying, speech: Speech)
    requires Invariant(cfg, s) && Consented(s) && token in s.workers && ToldOk(s.t.events, s.workers[token])
    requires Said(cfg, s.workers[token], s.t.counter, saying) == Some(speech) && StartsGated(speech.note)
    ensures var events := s.t.events + [Event(s.t.counter + 1, speech.note)]; StartMatches(events, |s.t.events|)
  {
    var w, events := s.workers[token], s.t.events + [Event(s.t.counter + 1, speech.note)];
    SaidKeepsGate(cfg, s.t, w, s.t.counter, saying, speech);
    var step, action := w.run.step, w.pc.action;
    assert speech.note.body.id.step == step && speech.note.body.id.tool == action.tool;
    assert DecisionsAt(s.t.events, step) == RowsAt(s.t.approvals, step);
    assert Told(s.t.events, step, action);
    hide Said, Invariant, Consented;
    var m := DecisionInTrace(s.t.events, step, 0);
    var j :| 0 <= j < |s.t.events| && Announces(s.t.events[j].note, step, action);
    assert Approves(events[m].note, step, action) && Announces(events[j].note, step, action);
  }

  // ---------------------------------------------------------------- every step

  lemma WorkersTold(cfg: Config, s: State, step: Step, s': State)
    requires Invariant(cfg, s) && AllTold(s) && Next(cfg, s, step) == Some(s')
    ensures forall k :: k in s'.workers ==> ToldOk(s'.t.events, s'.workers[k])
  {
    hide Invariant, StartMatches, ToldOk, Next;
    InvariantMeans(cfg, s);
    TraceGrows(cfg, s, step, s');
    forall k | k in s'.workers
      ensures ToldOk(s'.t.events, s'.workers[k])
    {
      if k in s.workers && s'.workers[k] == s.workers[k] {
        ToldOkMore(s.t.events, s'.t.events, s.workers[k]);
      } else if step.DoCommit? {
        CommittedTold(cfg, s, step, s', k);
      } else if step.DoThink? {
        ThinkerTold(cfg, s, step, s', k);
      } else if step.DoSay? {
        SpeakerTold(cfg, s, step, s', k);
      } else {
        RestView(cfg, s, step, s');
        if k in s.workers && Rested(s.workers[k], s'.workers[k]) {
          ToldOkMore(s.t.events, s'.t.events, s.workers[k]);
          RestedTold(s'.t.events, s.workers[k], s'.workers[k]);
        } else {
          ArrivedTold(s'.t.events, s.t.run, s'.workers[k]);
        }
      }
    }
  }

  lemma InvariantMeans(cfg: Config, s: State)
    requires Invariant(cfg, s)
    ensures AllOk(cfg, s)
  {
    hide AllOk, Progress, Tickets, Coherent;
  }

  lemma RestedTold(events: seq<Event>, w: Worker, w': Worker)
    requires ToldOk(events, w) && Rested(w, w')
    ensures ToldOk(events, w')
  {
    hide Told;
  }

  lemma ArrivedTold(events: seq<Event>, run: Run, w: Worker)
    requires Arrived(run, w)
    ensures ToldOk(events, w)
  {
  }

  lemma ThinkerTold(cfg: Config, s: State, step: Step, s': State, k: Token)
    requires AllTold(s) && Next(cfg, s, step) == Some(s') && step.DoThink?
    requires k in s'.workers && (k in s.workers ==> s'.workers[k] != s.workers[k])
    ensures ToldOk(s'.t.events, s'.workers[k])
  {
    hide Thought, ToldOk, StartMatches;
    var pc := Thought(cfg, s.t, s.workers[step.token], step.choice).value;
    ThoughtTold(cfg, s.t, s.workers[step.token], step.choice, pc);
  }

  lemma SpeakerTold(cfg: Config, s: State, step: Step, s': State, k: Token)
    requires AllTold(s) && Next(cfg, s, step) == Some(s') && step.DoSay?
    requires k in s'.workers && (k in s.workers ==> s'.workers[k] != s.workers[k])
    ensures ToldOk(s'.t.events, s'.workers[k])
  {
    hide Said, ToldOk, StartMatches;
    var speech := Said(cfg, s.workers[step.token], s.t.counter, step.saying).value;
    SaidTold(cfg, s.t.events, s.workers[step.token], s.t.counter, step.saying, speech);
  }

  lemma CommittedTold(cfg: Config, s: State, step: Step, s': State, k: Token)
    requires Next(cfg, s, step) == Some(s') && step.DoCommit?
    requires k in s'.workers && (k in s.workers ==> s'.workers[k] != s.workers[k])
    ensures ToldOk(s'.t.events, s'.workers[k])
  {
    var plan := CommitView(cfg, s, step.token, step.now, s');
    PlanIsSilent(cfg, s.workers[step.token], plan);
    hide Next, Commit, Planned, Told;
  }

  /** After a save nobody has a call in hand. */
  lemma PlanIsSilent(cfg: Config, w: Worker, plan: Plan)
    requires Planned(cfg, w) == Some(plan)
    ensures !PastGate(plan.next) && !plan.next.Announced? && !plan.next.Consulting?
  {
  }

  lemma StartsTold(cfg: Config, s: State, step: Step, s': State)
    requires Invariant(cfg, s) && Consented(s) && AllTold(s) && Next(cfg, s, step) == Some(s')
    ensures forall n :: 0 <= n < |s'.t.events| && StartsGated(s'.t.events[n].note) ==> StartMatches(s'.t.events, n)
  {
    TraceGrows(cfg, s, step, s');
    forall n | 0 <= n < |s'.t.events| && StartsGated(s'.t.events[n].note)
      ensures StartMatches(s'.t.events, n)
    {
      hide Invariant, Consented, StartMatches, ToldOk;
      if n < |s.t.events| {
        MatchesMore(s.t.events, s'.t.events, n);
      } else {
        NewStart(cfg, s, step, s', n);
        var speech := Said(cfg, s.workers[step.token], s.t.counter, step.saying).value;
        StartTold(cfg, s, step.token, step.saying, speech);
      }
    }
  }

  lemma CommitStartsNothing(cfg: Config, s: State, step: Step, s': State)
    requires Next(cfg, s, step) == Some(s') && step.DoCommit?
    ensures forall i :: |s.t.events| <= i < |s'.t.events| ==> !StartsGated(s'.t.events[i].note)
  {
    var plan := CommitView(cfg, s, step.token, step.now, s');
    PlanLeavesGate(cfg, s.workers[step.token], plan);
    AppendAllKeeps(s.t.(run := plan.run.(version := s.t.run.version + 1)), plan.notes);
    hide Next, Commit, Planned, AppendAll;
    if Saved(cfg, s, step.token, plan, s') {
      forall i | |s.t.events| <= i < |s'.t.events|
        ensures !StartsGated(s'.t.events[i].note)
      {
        assert s'.t.events[|s.t.events| + (i - |s.t.events|)].note == plan.notes[i - |s.t.events|];
      }
    }
  }

  /** Only a worker's speech adds a gated start. */
  lemma NewStart(cfg: Config, s: State, step: Step, s': State, n: nat)
    requires Next(cfg, s, step) == Some(s') && |s.t.events| <= n < |s'.t.events| && StartsGated(s'.t.events[n].note)
    ensures step.DoSay? && step.token in s.workers && n == |s.t.events|
    ensures Said(cfg, s.workers[step.token], s.t.counter, step.saying).Some?
    ensures var speech := Said(cfg, s.workers[step.token], s.t.counter, step.saying).value;
            s'.t.events == s.t.events + [Event(s.t.counter + 1, speech.note)] && StartsGated(speech.note)
  {
    if step.DoCommit? {
      CommitStartsNothing(cfg, s, step, s');
      hide Next;
    } else if step.DoDecide? {
      DecideView(cfg, s, step, s');
      hide Next;
    } else if !step.DoSay? && !step.DoReject? {
      QuietEvents(cfg, s, step, s');
      hide Next;
    } else {
      hide Said, Commit, Thought;
    }
  }

  lemma {:induction false} ToldHolds(cfg: Config, mode: Mode, context: Context, steps: seq<Step>, s: State)
    requires Execution(cfg, Start(mode, context), steps) == Some(s)
    ensures AllTold(s)
  {
    hide Next, Invariant, Consented;
    if steps != [] {
      var before := steps[..|steps| - 1];
      var m := Execution(cfg, Start(mode, context), before).value;
      ToldHolds(cfg, mode, context, before, m);
      InvariantHolds(cfg, mode, context, before, m);
      ConsentHolds(cfg, mode, context, before, m);
      hide AllTold, Execution;
      StepTold(cfg, m, steps[|steps| - 1], s);
    }
  }

  lemma StepTold(cfg: Config, s: State, step: Step, s': State)
    requires Invariant(cfg, s) && Consented(s) && AllTold(s) && Next(cfg, s, step) == Some(s')
    ensures AllTold(s')
  {
    WorkersTold(cfg, s, step, s');
    StartsTold(cfg, s, step, s');
    hide Next, Invariant, Consented, StartMatches, ToldOk;
  }

  /** In every reachable trace, a gated attempt starts only after its call was announced at its
      step and after the one decision of that step, which allows it and carries the fingerprint
      of exactly the announced call. */
  lemma {:induction false} StartsMatchTheTrace(cfg: Config, mode: Mode, context: Context, steps: seq<Step>, s: State,
      n: nat)
    requires Execution(cfg, Start(mode, context), steps) == Some(s)
    requires n < |s.t.events| && StartsGated(s.t.events[n].note)
    ensures StartMatches(s.t.events, n)
    ensures |DecisionsAt(s.t.events, s.t.events[n].note.body.id.step)| == 1
  {
    ToldHolds(cfg, mode, context, steps, s);
    GatedAttemptsAreApproved(cfg, mode, context, steps, s, n);
    hide Execution, StartMatches;
  }
}
