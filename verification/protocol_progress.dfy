/** Exactly-once progress over at-least-once execution, and the durable policy budget. */
module ProtocolProgress {
  import opened Domain
  import opened Rows
  import opened Gateway
  import opened Protocol
  import opened ProtocolCore

  // ---------------------------------------------------------------- well-formed runs and workers

  predicate RunOk(cfg: Config, run: Run) {
    && run.step <= run.policyCalls <= cfg.budget
    && (run.pendingAction.Some? ==>
      && run.step < run.policyCalls
      && Stable(run.pendingAction.value)
      && run.pendingDigest == Some(OfAction(run.pendingAction.value)))
    && (run.status.WaitingApproval? ==> run.pendingAction.Some?)
    && (run.pendingApproval <==> run.status.WaitingApproval?)
    && (run.status.Queued? || Terminal(run.status) ==> run.pendingAction.None?)
    && (Terminal(run.status) <==> run.result.Some?)
  }

  /** An action that can wait for approval: gated, with its key attached. */
  predicate Stable(action: Action) {
    action.CallTool? && RequiresApproval(action.tool) && action.key.Some?
  }

  /** Past the loop head of an iteration: an action is being chosen or carried out. */
  predicate InIteration(pc: Pc) {
    !pc.AtEntry? && !pc.AtHead? && !pc.Denying? && !pc.Leaving?
  }

  /** The call has passed its approval check. */
  predicate PastGate(pc: Pc) {
    || pc.Cleared? || pc.Calling? || pc.Attempting? || pc.InAttempt?
    || pc.Settling? || pc.Cancelling? || pc.Returned?
  }

  function Carried(pc: Pc): Option<Action> {
    match pc
    case Chosen(action) => Some(action)
    case Announced(action) => Some(action)
    case Consulting(action) => Some(action)
    case Pausing(action) => Some(action)
    case Cleared(action) => Some(action)
    case Calling(action) => Some(action)
    case Attempting(action, _, _) => Some(action)
    case InAttempt(action, _, _, _) => Some(action)
    case Settling(action, _, _) => Some(action)
    case Cancelling(action, _) => Some(action)
    case Returned(action, _) => Some(action)
    case _ => None
  }

  predicate WorkerOk(cfg: Config, w: Worker) {
    && RunOk(cfg, w.run)
    && (InIteration(w.pc) ==> w.run.status.Running? && w.run.step < w.run.policyCalls)
    && (w.run.pendingAction.Some? && Carried(w.pc).Some? ==> Carried(w.pc) == w.run.pendingAction)
    && (w.run.pendingAction.Some? ==> !w.pc.Reserved? && !w.pc.Invoked?)
    && (w.pc.Consulting? || w.pc.Pausing? ==> Stable(w.pc.action))
  }

  // ---------------------------------------------------------------- what a save does

  datatype Move = Neutral | Advance | Finished | Broken(bump: nat)

  function MoveOf(plan: Plan, before: Run): Move {
    if plan.run.status.Succeeded? then Finished
    else if plan.run.status.Failed? then Broken(if plan.run.step > before.step then 1 else 0)
    else if plan.run.step > before.step then Advance
    else Neutral
  }

  predicate IsEnd(body: Body) {
    body.RunSucceeded? || body.RunFailed?
  }

  predicate Plainly(note: Note) {
    !note.body.Checkpointed? && !IsEnd(note.body)
  }

  /** The events of a save are those of its move. */
  predicate NotesFit(plan: Plan, before: Run) {
    match MoveOf(plan, before)
    case Neutral => |plan.notes| <= 1 && (forall i :: 0 <= i < |plan.notes| ==> Plainly(plan.notes[i]))
    case Advance =>
      |plan.notes| == 1 && plan.notes[0].body.Checkpointed? && plan.notes[0].body.step == before.step
    case Finished =>
      |plan.notes| == 1 && plan.run.result.Some? && plan.notes[0].body == RunSucceeded(plan.run.result.value)
    case Broken(_) =>
      && 1 <= |plan.notes| <= 2 && plan.run.result.Some?
      && plan.notes[|plan.notes| - 1].body == RunFailed(plan.run.result.value)
      && (|plan.notes| == 2 ==> Plainly(plan.notes[0]))
  }

  lemma PlanMoves(cfg: Config, w: Worker, plan: Plan)
    requires WorkerOk(cfg, w) && Planned(cfg, w) == Some(plan)
    ensures !Terminal(w.run.status)
    ensures NotesFit(plan, w.run)
    ensures plan.run.step == w.run.step
            + (match MoveOf(plan, w.run) case Neutral => 0 case Broken(bump) => bump case _ => 1)
    ensures plan.run.policyCalls >= w.run.policyCalls
    ensures plan.next.Reserved? ==> plan.run.policyCalls > w.run.policyCalls
    ensures plan.next.Reserved? || plan.next.AtHead? || plan.next.Leaving?
  {
  }

  lemma PlanKeepsOk(cfg: Config, w: Worker, plan: Plan, version: nat)
    requires WorkerOk(cfg, w) && Planned(cfg, w) == Some(plan)
    ensures WorkerOk(cfg, Worker(plan.next, plan.run.(version := version)))
  {
  }

  lemma ThoughtKeepsOk(cfg: Config, t: Tables, w: Worker, choice: Option<Action>, pc: Pc)
    requires WorkerOk(cfg, w) && Thought(cfg, t, w, choice) == Some(pc)
    ensures WorkerOk(cfg, w.(pc := pc)) && !pc.Reserved?
  {
    hide ConsentCode;
  }

  lemma SaidKeepsOk(cfg: Config, w: Worker, counter: nat, saying: Saying, speech: Speech)
    requires WorkerOk(cfg, w) && Said(cfg, w, counter, saying) == Some(speech)
    ensures WorkerOk(cfg, w.(pc := speech.next)) && !speech.next.Reserved?
    ensures Plainly(speech.note)
  {
  }

  /** How a worker moves when it neither commits, thinks nor speaks. */
  predicate Rested(w: Worker, w': Worker) {
    && w'.run == w.run
    && (|| w' == w
        || w'.pc.Leaving?
        || (w'.pc.Invoked? && w.pc.Reserved?)
        || (PastGate(w.pc) && PastGate(w'.pc) && Carried(w'.pc) == Carried(w.pc)))
  }

  predicate Arrived(run: Run, w: Worker) {
    w.run == run && (w.pc.AtEntry? || w.pc.Denying?)
  }

  lemma ClaimView(cfg: Config, s: State, step: Step, s': State)
    requires Next(cfg, s, step) == Some(s') && (step.DoClaim? || step.DoSettle?)
    ensures step.token in s.workers && step.token in s'.workers
    ensures s'.workers == s.workers[step.token := s'.workers[step.token]]
    ensures Rested(s.workers[step.token], s'.workers[step.token])
  {
    hide Unclaimed, Granted, SettleCall, FailTool, ClaimTool;
  }

  lemma LeaseAndAuditView(cfg: Config, s: State, step: Step, s': State)
    requires Next(cfg, s, step) == Some(s')
    requires !step.DoCommit? && !step.DoThink? && !step.DoSay? && !step.DoClaim? && !step.DoSettle?
    ensures forall k :: k in s'.workers ==>
              (k in s.workers && Rested(s.workers[k], s'.workers[k])) || Arrived(s.t.run, s'.workers[k])
  {
    hide Record, InIteration, Carried;
  }

  lemma RestView(cfg: Config, s: State, step: Step, s': State)
    requires Next(cfg, s, step) == Some(s')
    requires !step.DoCommit? && !step.DoThink? && !step.DoSay?
    ensures forall k :: k in s'.workers ==>
              (k in s.workers && Rested(s.workers[k], s'.workers[k])) || Arrived(s.t.run, s'.workers[k])
  {
    hide Next;
    if step.DoClaim? || step.DoSettle? {
      ClaimView(cfg, s, step, s');
      hide InIteration, Carried;
    } else {
      LeaseAndAuditView(cfg, s, step, s');
    }
  }

  lemma RestedOk(cfg: Config, w: Worker, w': Worker)
    requires WorkerOk(cfg, w) && Rested(w, w')
    ensures WorkerOk(cfg, w')
  {
  }

  lemma ArrivedOk(cfg: Config, run: Run, w: Worker)
    requires RunOk(cfg, run) && Arrived(run, w)
    ensures WorkerOk(cfg, w)
  {
  }

  predicate AllOk(cfg: Config, s: State) {
    RunOk(cfg, s.t.run) && forall k :: k in s.workers ==> WorkerOk(cfg, s.workers[k])
  }

  lemma LeavingOk(cfg: Config, w: Worker)
    requires WorkerOk(cfg, w)
    ensures WorkerOk(cfg, w.(pc := Leaving))
  {
  }

  lemma AllOkCommit(cfg: Config, s: State, token: Token, now: int, s': State)
    requires AllOk(cfg, s) && Commit(cfg, s, token, now) == Some(s')
    ensures AllOk(cfg, s')
  {
    var plan := CommitView(cfg, s, token, now, s');
    var w := s.workers[token];
    PlanKeepsOk(cfg, w, plan, s.t.run.version + 1);
    LeavingOk(cfg, w);
    AppendAllKeeps(s.t.(run := plan.run.(version := s.t.run.version + 1)), plan.notes);
    assert RunOk(cfg, plan.run.(version := s.t.run.version + 1));
    hide Commit, Planned, RunOk, WorkerOk, AppendAll;
  }

  lemma RestOk(cfg: Config, s: State, step: Step, s': State)
    requires AllOk(cfg, s) && Next(cfg, s, step) == Some(s')
    requires !step.DoCommit? && !step.DoThink? && !step.DoSay?
    ensures AllOk(cfg, s')
  {
    RestView(cfg, s, step, s');
    OthersKeepRun(cfg, s, step, s');
    hide Next, RunOk, Stable, Rested, Carried, WorkerOk;
    forall k | k in s'.workers
      ensures WorkerOk(cfg, s'.workers[k])
    {
      if k in s.workers && Rested(s.workers[k], s'.workers[k]) {
        RestedOk(cfg, s.workers[k], s'.workers[k]);
      } else {
        ArrivedOk(cfg, s.t.run, s'.workers[k]);
      }
    }
  }

  lemma AllOkStep(cfg: Config, s: State, step: Step, s': State)
    requires AllOk(cfg, s) && Next(cfg, s, step) == Some(s')
    ensures AllOk(cfg, s')
  {
    if step.DoCommit? {
      hide AllOk, Commit;
      AllOkCommit(cfg, s, step.token, step.now, s');
    } else if step.DoThink? {
      var pc := Thought(cfg, s.t, s.workers[step.token], step.choice).value;
      hide Thought, WorkerOk, RunOk;
      ThoughtKeepsOk(cfg, s.t, s.workers[step.token], step.choice, pc);
    } else if step.DoSay? {
      var speech := Said(cfg, s.workers[step.token], s.t.counter, step.saying).value;
      hide Said, WorkerOk, RunOk;
      SaidKeepsOk(cfg, s.workers[step.token], s.t.counter, step.saying, speech);
    } else {
      hide AllOk, Next;
      RestOk(cfg, s, step, s');
    }
  }

  // ---------------------------------------------------------------- checkpoints and ends in the trace

  function CheckpointSteps(events: seq<Event>): seq<nat> {
    if events == [] then []
    else
      var rest, body := CheckpointSteps(events[..|events| - 1]), events[|events| - 1].note.body;
      if body.Checkpointed? then rest + [body.step] else rest
  }

  function Ends(events: seq<Event>): seq<Body> {
    if events == [] then []
    else
      var rest, body := Ends(events[..|events| - 1]), events[|events| - 1].note.body;
      if IsEnd(body) then rest + [body] else rest
  }

  function UpTo(n: nat): (steps: seq<nat>)
    ensures |steps| == n && forall i :: 0 <= i < n ==> steps[i] == i
  {
    seq(n, i => i)
  }

  lemma FiltersAppend(t: Tables, note: Note)
    ensures CheckpointSteps(Append(t, note).events)
            == CheckpointSteps(t.events) + (if note.body.Checkpointed? then [note.body.step] else [])
    ensures Ends(Append(t, note).events) == Ends(t.events) + (if IsEnd(note.body) then [note.body] else [])
  {
    assert Append(t, note).events[..|t.events|] == t.events;
  }

  predicate Progress(t: Tables) {
    var steps, ends := CheckpointSteps(t.events), Ends(t.events);
    && Contiguous(t)
    && steps == UpTo(|steps|)
    && (match t.run.status
        case Succeeded => t.run.step == |steps| + 1 && t.run.result.Some? && ends == [RunSucceeded(t.run.result.value)]
        case Failed => |steps| <= t.run.step <= |steps| + 1 && t.run.result.Some?
            && ends == [RunFailed(t.run.result.value)]
        case _ => t.run.step == |steps| && ends == [])
  }

  /** What the events of a fitting save add to the two filters. */
  lemma {:induction false} FittingNotes(start: Tables, plan: Plan, before: Run)
    requires NotesFit(plan, before)
    ensures var events := AppendAll(start, plan.notes).events;
            && CheckpointSteps(events)
                == CheckpointSteps(start.events) + (if MoveOf(plan, before).Advance? then [before.step] else [])
            && Ends(events) == Ends(start.events) + (
              match MoveOf(plan, before)
              case Finished => [RunSucceeded(plan.run.result.value)]
              case Broken(_) => [RunFailed(plan.run.result.value)]
              case _ => [])
  {
    hide CheckpointSteps, Ends, Append;
    var notes := plan.notes;
    if |notes| == 1 {
      assert notes == [notes[0]];
      AppendOne(start, notes[0]);
      FiltersAppend(start, notes[0]);
    } else if |notes| == 2 {
      assert notes == [notes[0], notes[1]];
      AppendTwo(start, notes[0], notes[1]);
      FiltersAppend(start, notes[0]);
      FiltersAppend(Append(start, notes[0]), notes[1]);
    }
  }

  /** Rewriting the run row and appending the events of the same move keeps the trace in step. */
  lemma MoveProgress(t: Tables, plan: Plan, version: nat)
    requires Progress(t) && !Terminal(t.run.status) && NotesFit(plan, t.run)
    requires plan.run.step == t.run.step
             + (match MoveOf(plan, t.run) case Neutral => 0 case Broken(bump) => bump case _ => 1)
    ensures Progress(AppendAll(t.(run := plan.run.(version := version)), plan.notes))
  {
    var start := t.(run := plan.run.(version := version));
    AppendAllKeeps(start, plan.notes);
    FittingNotes(start, plan, t.run);
    assert NotesFit(plan, t.run) ==> MoveOf(plan, t.run).Finished? || MoveOf(plan, t.run).Broken? ==>
        plan.run.result.Some?;
    hide CheckpointSteps, Ends, AppendAll, NotesFit;
  }

  lemma QuietProgress(t: Tables, t': Tables, note: Note)
    requires Progress(t) && Plainly(note)
    requires t'.run == t.run && t'.counter == t.counter + 1 && t'.events == Append(t, note).events
    ensures Progress(t')
  {
    FiltersAppend(t, note);
    hide CheckpointSteps, Ends;
  }

  /** Outside a commit, the trace is unchanged or has one more event, and not a checkpoint or an end. */
  lemma TraceView(cfg: Config, s: State, step: Step, s': State) returns (note: Note)
    requires AllOk(cfg, s) && Next(cfg, s, step) == Some(s') && !step.DoCommit?
    ensures (s'.t.events == s.t.events && s'.t.counter == s.t.counter)
            || (Plainly(note) && s'.t.counter == s.t.counter + 1 && s'.t.events == Append(s.t, note).events)
  {
    hide Commit, AppendAll;
    note := Note(0, Fine, RequestRejected(""));
    if step.DoSay? {
      var speech := Said(cfg, s.workers[step.token], s.t.counter, step.saying).value;
      hide Said, WorkerOk;
      SaidKeepsOk(cfg, s.workers[step.token], s.t.counter, step.saying, speech);
      note := speech.note;
    } else if step.DoDecide? {
      note := Note(s.t.counter + 1, Fine, ApprovalRecorded(step.step, step.row.digest, step.row.actor, step.row.allow));
    } else if step.DoReject? {
      note := Note(0, Error, RequestRejected(step.cause));
    } else {
      hide Said, Thought, Unclaimed, Granted, AllOk;
    }
  }

  lemma ProgressStep(cfg: Config, s: State, step: Step, s': State)
    requires Coherent(s) && AllOk(cfg, s) && Progress(s.t) && Next(cfg, s, step) == Some(s')
    ensures Progress(s'.t)
    ensures Terminal(s.t.run.status) ==> s'.t.run == s.t.run
  {
    if step.DoCommit? {
      var plan := CommitView(cfg, s, step.token, step.now, s');
      PlanMoves(cfg, s.workers[step.token], plan);
      hide Next, Commit, Planned, Progress, NotesFit, MoveOf, RunOk, Carried, Stable;
      if Saved(cfg, s, step.token, plan, s') {
        assert s.workers[step.token].run == s.t.run;
        MoveProgress(s.t, plan, s.t.run.version + 1);
      }
    } else {
      OthersKeepRun(cfg, s, step, s');
      var note := TraceView(cfg, s, step, s');
      hide Next, CheckpointSteps, Ends, AllOk, Plainly, Append;
      if s'.t.events != s.t.events || s'.t.counter != s.t.counter {
        QuietProgress(s.t, s'.t, note);
      }
    }
  }

  // ---------------------------------------------------------------- policy calls

  predicate Tickets(s: State) {
    && (forall i :: 0 <= i < |s.tickets| ==> 1 <= s.tickets[i] <= s.t.run.policyCalls)
    && (forall i, j :: 0 <= i < j < |s.tickets| ==> s.tickets[i] != s.tickets[j])
    && (forall k :: k in s.workers ==> s.workers[k].run.policyCalls <= s.t.run.policyCalls)
    && (forall k :: k in s.workers && s.workers[k].pc.Reserved? ==>
      s.workers[k].run.policyCalls >= 1 && s.workers[k].run.policyCalls !in s.tickets)
    && (forall k, l ::
          k in s.workers && l in s.workers && k != l && s.workers[k].pc.Reserved? && s.workers[l].pc.Reserved? ==>
      s.workers[k].run.policyCalls != s.workers[l].run.policyCalls)
  }

  /** Only a commit makes a worker `Reserved`. */
  lemma ReservedView(cfg: Config, s: State, step: Step, s': State)
    requires AllOk(cfg, s) && Next(cfg, s, step) == Some(s') && !step.DoCommit?
    ensures forall k :: k in s'.workers && s'.workers[k].pc.Reserved? ==>
            k in s.workers && s.workers[k] == s'.workers[k]
    ensures s'.tickets == s.tickets
            || (step.DoInvoke? && step.token in s.workers && s.workers[step.token].pc.Reserved?
                && step.token in s'.workers && !s'.workers[step.token].pc.Reserved?
                && s'.tickets == s.tickets + [s.workers[step.token].run.policyCalls])
  {
    hide Commit, Append, ClaimTool, FailTool, Record, ClaimRun, RenewRun, ReleaseRun;
    if step.DoThink? {
      hide Thought, WorkerOk;
      ThoughtKeepsOk(cfg, s.t, s.workers[step.token], step.choice,
          Thought(cfg, s.t, s.workers[step.token], step.choice).value);
    } else if step.DoSay? {
      hide Said, WorkerOk;
      SaidKeepsOk(cfg, s.workers[step.token], s.t.counter, step.saying,
          Said(cfg, s.workers[step.token], s.t.counter, step.saying).value);
    } else {
      hide Said, Thought, Unclaimed, Granted, SettleCall, AllOk;
    }
  }

  lemma TicketsAfter(s: State, s': State, token: Token, w: Worker)
    requires Tickets(s) && s'.tickets == s.tickets && s'.workers == s.workers[token := w]
    requires w.run.policyCalls <= s'.t.run.policyCalls && s.t.run.policyCalls <= s'.t.run.policyCalls
    requires w.pc.Reserved? ==> w.run.policyCalls > s.t.run.policyCalls
    ensures Tickets(s')
  {
  }

  lemma TicketsCommit(cfg: Config, s: State, token: Token, now: int, s': State)
    requires Coherent(s) && AllOk(cfg, s) && Tickets(s) && Commit(cfg, s, token, now) == Some(s')
    ensures Tickets(s')
  {
    var plan := CommitView(cfg, s, token, now, s');
    PlanMoves(cfg, s.workers[token], plan);
    AppendAllKeeps(s.t.(run := plan.run.(version := s.t.run.version + 1)), plan.notes);
    assert s.workers[token].run.policyCalls <= s.t.run.policyCalls;
    assert Saved(cfg, s, token, plan, s') ==> s.workers[token].run == s.t.run;
    hide Commit, Planned, NotesFit, MoveOf, AllOk, AppendAll, Tickets, Coherent;
    TicketsAfter(s, s', token, s'.workers[token]);
  }

  /** Outside a commit tickets change only when a reserved worker spends its own. */
  lemma TicketsElsewhere(s: State, step: Step, s': State)
    requires Tickets(s) && s'.t.run == s.t.run
    requires forall k :: k in s'.workers ==>
             (k in s.workers && s'.workers[k].run == s.workers[k].run) || s'.workers[k].run == s.t.run
    requires forall k :: k in s'.workers && s'.workers[k].pc.Reserved? ==>
             k in s.workers && s.workers[k] == s'.workers[k]
    requires s'.tickets == s.tickets
             || (step.DoInvoke? && step.token in s.workers && s.workers[step.token].pc.Reserved?
                 && step.token in s'.workers && !s'.workers[step.token].pc.Reserved?
                 && s'.tickets == s.tickets + [s.workers[step.token].run.policyCalls])
    ensures Tickets(s')
  {
  }

  lemma TicketsStep(cfg: Config, s: State, step: Step, s': State)
    requires Coherent(s) && AllOk(cfg, s) && Tickets(s) && Next(cfg, s, step) == Some(s')
    ensures Tickets(s')
  {
    hide Next, AllOk, Coherent, Tickets, Commit;
    if step.DoCommit? {
      CommitIsNext(cfg, s, step, s');
      TicketsCommit(cfg, s, step.token, step.now, s');
    } else {
      OthersKeepRun(cfg, s, step, s');
      ReservedView(cfg, s, step, s');
      TicketsElsewhere(s, step, s');
    }
  }

  lemma CommitIsNext(cfg: Config, s: State, step: Step, s': State)
    requires step.DoCommit? && Next(cfg, s, step) == Some(s')
    ensures Commit(cfg, s, step.token, step.now) == Some(s')
  {
    hide Commit;
  }

  /** Distinct numbers between 1 and `m` are at most `m` many. */
  lemma {:induction false} Pigeonhole(tickets: seq<nat>, m: nat)
    requires forall i :: 0 <= i < |tickets| ==> 1 <= tickets[i] <= m
    requires forall i, j :: 0 <= i < j < |tickets| ==> tickets[i] != tickets[j]
    ensures |tickets| <= m
  {
    if tickets != [] {
      assert 1 <= tickets[0] <= m;
      if i :| 0 <= i < |tickets| && tickets[i] == m {
        var rest := tickets[..i] + tickets[i + 1..];
        forall k | 0 <= k < |rest|
          ensures 1 <= rest[k] <= m - 1
        {
          assert rest[k] == tickets[if k < i then k else k + 1];
        }
        Pigeonhole(rest, m - 1);
      } else {
        Pigeonhole(tickets, m - 1);
      }
    }
  }

  // ---------------------------------------------------------------- every interleaving

  predicate Invariant(cfg: Config, s: State) {
    Coherent(s) && AllOk(cfg, s) && Progress(s.t) && Tickets(s)
  }

  lemma StartInvariant(cfg: Config, mode: Mode, context: Context)
    ensures Invariant(cfg, Start(mode, context))
  {
    assert UpTo(0) == [];
  }

  lemma InvariantStep(cfg: Config, s: State, step: Step, s': State)
    requires Invariant(cfg, s) && Next(cfg, s, step) == Some(s')
    ensures Invariant(cfg, s')
    ensures Terminal(s.t.run.status) ==> s'.t.run == s.t.run
  {
    hide Next, Coherent, AllOk, Progress, Tickets;
    CoherentStep(cfg, s, step, s');
    AllOkStep(cfg, s, step, s');
    ProgressStep(cfg, s, step, s');
    TicketsStep(cfg, s, step, s');
  }

  lemma {:induction false} InvariantHolds(cfg: Config, mode: Mode, context: Context, steps: seq<Step>, s: State)
    requires Execution(cfg, Start(mode, context), steps) == Some(s)
    ensures Invariant(cfg, s)
  {
    hide Next, Invariant;
    if steps == [] {
      StartInvariant(cfg, mode, context);
    } else {
      var before := steps[..|steps| - 1];
      var m := Execution(cfg, Start(mode, context), before).value;
      InvariantHolds(cfg, mode, context, before, m);
      InvariantStep(cfg, m, steps[|steps| - 1], s);
    }
  }

  /** In every reachable state the trace is numbered without gaps; the checkpoints are those
      of steps 0, 1, ... in order, each once, and as many as the run has completed; and there
      is a terminal event exactly when the run is terminal: one, carrying its result. */
  lemma {:induction false} ProgressIsExactlyOnce(cfg: Config, mode: Mode, context: Context, steps: seq<Step>, s: State)
    requires Execution(cfg, Start(mode, context), steps) == Some(s)
    ensures Contiguous(s.t)
    ensures CheckpointSteps(s.t.events) == UpTo(|CheckpointSteps(s.t.events)|)
    ensures !Terminal(s.t.run.status) ==> |CheckpointSteps(s.t.events)| == s.t.run.step && Ends(s.t.events) == []
    ensures s.t.run.status.Succeeded? ==>
              && |CheckpointSteps(s.t.events)| + 1 == s.t.run.step
              && s.t.run.result.Some? && Ends(s.t.events) == [RunSucceeded(s.t.run.result.value)]
    ensures s.t.run.status.Failed? ==>
              && |CheckpointSteps(s.t.events)| <= s.t.run.step <= |CheckpointSteps(s.t.events)| + 1
              && s.t.run.result.Some? && Ends(s.t.events) == [RunFailed(s.t.run.result.value)]
  {
    InvariantHolds(cfg, mode, context, steps, s);
    hide Execution;
  }

  /** Once a run is terminal, no step of any worker or client changes its row. */
  lemma {:induction false} TerminalIsFinal(cfg: Config, s: State, steps: seq<Step>, s': State)
    requires Invariant(cfg, s) && Terminal(s.t.run.status)
    requires Execution(cfg, s, steps) == Some(s')
    ensures Invariant(cfg, s') && s'.t.run == s.t.run
  {
    hide Next, Invariant;
    if steps != [] {
      var m := Execution(cfg, s, steps[..|steps| - 1]).value;
      TerminalIsFinal(cfg, s, steps[..|steps| - 1], m);
      InvariantStep(cfg, m, steps[|steps| - 1], s');
    }
  }

  /** Over a run's whole life, the policy is invoked at most `budget` times. */
  lemma {:induction false} PolicyCallsStayInBudget(cfg: Config, mode: Mode, context: Context, steps: seq<Step>,
      s: State)
    requires Execution(cfg, Start(mode, context), steps) == Some(s)
    ensures |s.tickets| <= s.t.run.policyCalls <= cfg.budget
    ensures s.t.run.step <= s.t.run.policyCalls
    ensures s.t.run.pendingAction.Some? ==> s.t.run.step < s.t.run.policyCalls
  {
    InvariantHolds(cfg, mode, context, steps, s);
    hide Execution, Progress, Coherent;
    Pigeonhole(s.tickets, s.t.run.policyCalls);
  }

  // ---------------------------------------------------------------- traces and statuses along a run

  lemma TraceGrows(cfg: Config, s: State, step: Step, s': State)
    requires AllOk(cfg, s) && Next(cfg, s, step) == Some(s')
    ensures s.t.events <= s'.t.events
  {
    if step.DoCommit? {
      var plan := CommitView(cfg, s, step.token, step.now, s');
      AppendAllKeeps(s.t.(run := plan.run.(version := s.t.run.version + 1)), plan.notes);
      hide Next, Commit, Planned, AppendAll;
    } else {
      var note := TraceView(cfg, s, step, s');
      hide Next, AllOk, Plainly;
    }
  }

  /** Whatever happens after a reachable state, its trace is kept and extended, and stays
      numbered without a gap. */
  lemma {:induction false} TracesOnlyGrow(cfg: Config, s: State, steps: seq<Step>, s': State)
    requires Invariant(cfg, s) && Execution(cfg, s, steps) == Some(s')
    ensures Invariant(cfg, s') && s.t.events <= s'.t.events && Contiguous(s'.t)
  {
    hide Next, AllOk, Progress, Tickets, Coherent;
    if steps != [] {
      var m := Execution(cfg, s, steps[..|steps| - 1]).value;
      TracesOnlyGrow(cfg, s, steps[..|steps| - 1], m);
      InvariantStep(cfg, m, steps[|steps| - 1], s');
      TraceGrows(cfg, m, steps[|steps| - 1], s');
    }
    hide Execution;
    assert Progress(s'.t);
    NumberedProgress(s'.t);
  }

  lemma NumberedProgress(t: Tables)
    requires Progress(t)
    ensures Contiguous(t)
  {
    hide CheckpointSteps, Ends;
  }

  lemma PlanFollowsTable(cfg: Config, w: Worker, plan: Plan)
    requires WorkerOk(cfg, w) && Planned(cfg, w) == Some(plan)
    ensures plan.run.status == w.run.status || Allowed(w.run.status, plan.run.status)
  {
  }

  lemma TableView(before: Status, after: Status)
    ensures before == after || Allowed(before, after) ==>
              match before
              case Queued => after.Queued? || after.Running?
              case Running => !after.Queued?
              case WaitingApproval => !after.Queued? && !after.Succeeded?
              case _ => after == before
  {
  }

  /** However workers interleave, the stored status only takes the transitions of the table: from queued
      to running, from running to waiting or to an end, from waiting back to running or to a failure. */
  lemma StatusFollowsTheTable(cfg: Config, s: State, step: Step, s': State)
    requires Invariant(cfg, s) && Next(cfg, s, step) == Some(s')
    ensures s'.t.run.status == s.t.run.status || Allowed(s.t.run.status, s'.t.run.status)
    ensures match s.t.run.status
            case Queued => s'.t.run.status.Queued? || s'.t.run.status.Running?
            case Running => !s'.t.run.status.Queued?
            case WaitingApproval => !s'.t.run.status.Queued? && !s'.t.run.status.Succeeded?
            case _ => s'.t.run.status == s.t.run.status
  {
    TableView(s.t.run.status, s'.t.run.status);
    if step.DoCommit? {
      var plan := CommitView(cfg, s, step.token, step.now, s');
      var w := s.workers[step.token];
      PlanFollowsTable(cfg, w, plan);
      AppendAllKeeps(s.t.(run := plan.run.(version := s.t.run.version + 1)), plan.notes);
      assert Saved(cfg, s, step.token, plan, s') ==> w.run == s.t.run;
      hide Next, Commit, Planned, AppendAll, Invariant, Allowed;
    } else {
      OthersKeepRun(cfg, s, step, s');
      hide Next, Invariant;
    }
  }
}
