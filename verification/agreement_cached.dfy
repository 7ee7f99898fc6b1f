/** A correct run that the gate refuses: a read repeated under its key is answered from the claim
    table, and the gate finds no attempt for its checkpoint. */
module AgreementCached {
  import opened Domain
  import opened Evidence
  import opened Gate
  import opened Rows
  import W = Gateway
  import P = Protocol
  import D = Desktop
  import AC = AgreementCalls
  import A = Agreement
  import E = Engines

  predicate KeyedRead(action: Action) {
    && action.CallTool? && action.key.Some?
    && Registered(action.tool) && !IsWrite(action.tool) && ValidInput(action.tool, action.args)
  }

  /** The same keyed read twice, then an end, without faults. */
  predicate RepeatsRead(job: D.Job, read: Action, finish: Action) {
    && KeyedRead(read) && finish.Finish?
    && job.actions == [read, read, finish] && job.faults == [] && 3 <= job.budget
  }

  function OutputOf(read: Action): Output
    requires read.CallTool?
  {
    BackendOutput(read.tool, read.args)
  }

  /** Every attempt in the trace belongs to step 0. */
  predicate OnlyFirstAttempts(events: seq<Event>) {
    forall i :: 0 <= i < |events| && events[i].note.body.AttemptStarted? ==> events[i].note.body.id.step == 0
  }

  /** Both runs of the read have left this claim. */
  predicate Answers(t: Tables, read: Action)
    requires read.CallTool? && read.key.Some?
  {
    && read.key.value in t.claims
    && var row := t.claims[read.key.value];
       row.state.Completed? && row.request == OfRequest(read.tool, read.args) && row.payload == Some(OutputOf(read))
  }

  /** At the head of a step, before its action. */
  predicate AtHead(t: Tables, step: nat) {
    && t.run.status.Running? && t.run.pendingAction.None? && t.run.step == step && t.run.policyCalls == step
    && OnlyFirstAttempts(t.events)
  }

  lemma EntryIsHead(s: Scenario, mode: Mode, job: D.Job)
    ensures var t := E.FirstEntry(s, mode, job);
            AtHead(t, 0) && t.claims == map[] && t.run.context == s.context
  {
    E.FirstEntryView(s, mode, job);
    var t0 := Fresh(NewRun(mode, s.context)).(lease := Some(Lease(0, job.now + job.leaseSeconds)));
    var run := t0.run.(status := Status.Running, pendingApproval := false);
    AppendOne(t0.(run := run.(version := 2)), Note(0, Fine, RunRunning(Status.Queued)));
  }

  function Told(t: Tables, action: Action): Tables {
    Append(D.Reserve(t), Note(0, Fine, PolicyAction(t.run.step, action)))
  }

  lemma ToldView(t: Tables, action: Action, step: nat)
    requires AtHead(t, step)
    ensures var told := Told(t, action);
            && told.run == t.run.(policyCalls := step + 1, version := t.run.version + 1)
            && told.claims == t.claims && OnlyFirstAttempts(told.events)
  {
  }

  lemma PassCalls(job: D.Job, read: Action, t: Tables, step: nat)
    requires KeyedRead(read) && step < |job.actions| && job.actions[step] == read && step < job.budget
    requires job.faults == []
    requires AtHead(t, step)
    ensures Told(t, read).run.status.Running? && D.Pass(job, t) == D.Perform(job, Told(t, read), read)
    ensures W.PreflightCode(job.faults, read).None? && W.ConsentCode(t.approvals, step, read).None?
  {
    hide D.Perform, OnlyFirstAttempts;
    assert W.Stabilise(step, read) == read;
    assert W.PreflightCode(job.faults, read).None?;
  }

  /** A first call attempts the read and completes its claim. */
  lemma FreshCall(job: D.Job, t: Tables, read: Action)
    requires KeyedRead(read) && job.faults == [] && read.key.value !in t.claims && t.run.step == 0
    requires OnlyFirstAttempts(t.events)
    ensures var (u, result) := W.Call(t, read, job.faults, t.counter, job.now, job.claimSeconds);
            && result == W.CallOk(OutputOf(read), 1, false) && u.run == t.run && Answers(u, read)
            && OnlyFirstAttempts(u.events)
  {
    assert W.PreflightCode(job.faults, read).None? && W.ConsentCode(t.approvals, t.run.step, read).None?;
    var token := t.counter;
    var (claimed, answer) := ClaimTool(t, read.key.value, token, OfRequest(read.tool, read.args), true, job.now,
        job.claimSeconds);
    var id := AttemptId(0, read.tool, 1);
    AppendTwo(claimed, Started(id, t.counter + 1), SucceededNote(id, t.counter + 1, OutputOf(read)));
    assert FaultFor(job.faults, read.tool, 1).None?;
    hide W.PreflightCode, W.ConsentCode, FaultFor, BackendOutput, AppendAll;
    var (tried, result) := W.AttemptsFrom(claimed, read, job.faults, 1);
    assert result == W.CallOk(OutputOf(read), 1, false) && tried.claims == claimed.claims
        && OnlyFirstAttempts(tried.events);
    hide W.AttemptsFrom;
  }

  /** A later call is answered from the claim and records no attempt. */
  lemma CachedCall(job: D.Job, t: Tables, read: Action)
    requires KeyedRead(read) && job.faults == [] && Answers(t, read)
    ensures W.Call(t, read, job.faults, t.counter, job.now, job.claimSeconds) == (t, W.CallOk(OutputOf(read), 0, true))
  {
    assert W.PreflightCode(job.faults, read).None? && W.ConsentCode(t.approvals, t.run.step, read).None?;
    assert ValidOutput(read.tool, OutputOf(read));
    hide W.PreflightCode, W.ConsentCode, BackendOutput, ValidOutput, W.AttemptsFrom;
  }

  function NoteOf(run: Run, output: Output, attempts: nat, cached: bool): Note {
    var next := P.CheckpointRun(run, output);
    Note(0, Fine, Checkpointed(run.step, attempts, next.step, cached, OfOutput(output), OfContext(next.context)))
  }

  lemma CheckpointView(t: Tables, output: Output, attempts: nat, cached: bool)
    ensures var u := D.Checkpoint(t, output, attempts, cached);
            && u.run == P.CheckpointRun(t.run, output).(version := t.run.version + 1) && u.claims == t.claims
            && u.events == t.events + [Event(t.counter + 1, NoteOf(t.run, output, attempts, cached))]
  {
    var run := P.CheckpointRun(t.run, output);
    AppendOne(t.(run := run.(version := t.run.version + 1)), NoteOf(t.run, output, attempts, cached));
  }

  /** One pass over the read: fresh at step 0, from the claim at step 1. */
  lemma ReadPasses(job: D.Job, read: Action, t: Tables, step: nat)
    requires KeyedRead(read) && step < |job.actions| && job.actions[step] == read && step < job.budget
    requires job.faults == []
    requires AtHead(t, step) && step < 2
    requires if step == 0 then read.key.value !in t.claims else Answers(t, read)
    ensures var u, context := D.Pass(job, t), t.run.context.(results := t.run.context.results[step := OutputOf(read)]);
            && AtHead(u, step + 1) && Answers(u, read) && u.run.context == context
            && u.events != [] && u.events[|u.events| - 1].note.body
                 == Checkpointed(step, 1 - step, step + 1, step == 1, OfOutput(OutputOf(read)), OfContext(context))
  {
    hide W.Call, D.Checkpoint, BackendOutput, W.PreflightCode, W.ConsentCode, D.Reserve, ValidInput, D.Pass;
    PassCalls(job, read, t, step);
    ToldView(t, read, step);
    var told := Told(t, read);
    if step == 0 {
      FreshCall(job, told, read);
    } else {
      CachedCall(job, told, read);
    }
    var (called, result) := W.Call(told, read, job.faults, told.counter, job.now, job.claimSeconds);
    CheckpointView(called, OutputOf(read), 1 - step, step == 1);
    assert D.Perform(job, told, read) == D.Checkpoint(called, OutputOf(read), 1 - step, step == 1);
    hide Told;
  }

  lemma FinishPasses(job: D.Job, read: Action, finish: Action, t: Tables)
    requires RepeatsRead(job, read, finish) && AtHead(t, 2)
    ensures var u := D.Pass(job, t);
            && u.run.status.Succeeded? && u.run.result == Some(Outcome(finish.outcome, finish.summary, finish.refs))
            && u.run.context == t.run.context && t.events <= u.events && OnlyFirstAttempts(u.events)
  {
    ToldView(t, finish, 2);
    var told, result := Told(t, finish), Outcome(finish.outcome, finish.summary, finish.refs);
    var run := told.run.(status := Status.Succeeded, step := 3, pendingAction := None, pendingDigest := None,
        result := Some(result));
    AppendOne(told.(run := run.(version := told.run.version + 1)), Note(0, Fine, RunSucceeded(result)));
    assert D.Pass(job, t) == D.Succeed(told, finish.outcome, finish.summary, finish.refs);
    assert t.events <= told.events;
    hide Told, D.Pass;
  }

  /** The whole run: the second checkpoint is the cached one, and the run succeeds. */
  lemma RunSucceeds(read: Action, finish: Action, mode: Mode, job: D.Job, context: Context)
    requires RepeatsRead(job, read, finish)
    ensures var t := D.RunCase(Scenario(job.actions, job.faults, context, false), mode, job);
            var full := context.(results := context.results[0 := OutputOf(read)][1 := OutputOf(read)]);
            && t.run.status.Succeeded? && t.run.result == Some(Outcome(finish.outcome, finish.summary, finish.refs))
            && t.run.context == full && OnlyFirstAttempts(t.events)
            && exists i :: 0 <= i < |t.events|
                && t.events[i].note.body == Checkpointed(1, 0, 2, true, OfOutput(OutputOf(read)), OfContext(full))
  {
    var s := Scenario(job.actions, job.faults, context, false);
    var t0 := E.FirstEntry(s, mode, job);
    hide OutputOf, Answers, KeyedRead, E.FirstEntry, D.Pass, D.FirstStop, OnlyFirstAttempts;
    EntryIsHead(s, mode, job);
    ReadPasses(job, read, t0, 0);
    var t1 := D.Pass(job, t0);
    ReadPasses(job, read, t1, 1);
    var t2 := D.Pass(job, t1);
    FinishPasses(job, read, finish, t2);
    var t3 := D.Pass(job, t2);
    E.StoppedTables(job, t2);
    assert D.Loop(job, t0) == t3;
    E.FirstStops(s, mode, job);
    assert E.DesktopRun(s, mode, job, []) == D.FirstStop(s, mode, job);
    assert t3.events[|t2.events| - 1] == t2.events[|t2.events| - 1];
  }

  /** For any keyed read, in both modes: the run is correct, its second checkpoint is a cached one
      with no attempt of its step in the trace, and the gate refuses the trace for it. */
  lemma CachedReadIsRefused(read: Action, finish: Action, mode: Mode, job: D.Job, traceId: nat, context: Context)
    requires RepeatsRead(job, read, finish)
    ensures var s := Scenario(job.actions, job.faults, context, false);
            var t, full := D.RunCase(s, mode, job),
                context.(results := context.results[0 := OutputOf(read)][1 := OutputOf(read)]);
            && t.run.status.Succeeded? && t.run.result == Some(Outcome(finish.outcome, finish.summary, finish.refs))
            && t.run.context == full && OnlyFirstAttempts(t.events)
            && (exists i :: 0 <= i < |t.events|
                  && t.events[i].note.body == Checkpointed(1, 0, 2, true, OfOutput(OutputOf(read)), OfContext(full)))
            && ClaimsOf(A.CaseReport(s, mode, job, traceId), AC.FrozenOf(s)).None?
  {
    var s := Scenario(job.actions, job.faults, context, false);
    RunSucceeds(read, finish, mode, job, context);
    NotGradeable(s, read, finish, mode, job);
    hide ClaimsOf, D.RunCase, A.Gradeable;
    A.AcceptedExactlyWhenGradeable(s, mode, job, traceId);
  }

  lemma {:induction false} NotGradeable(s: Scenario, read: Action, finish: Action, mode: Mode, job: D.Job)
    requires RepeatsRead(job, read, finish) && s.actions == job.actions && s.faults == job.faults
    ensures !A.Gradeable(s, mode, job.budget, 0, {}, false)
  {
    assert W.Stabilise(0, read) == read && W.Stabilise(1, read) == read && W.PreflightCode([], read).None?;
    assert AC.Succeeds([], read.tool, mode);
    hide A.Gradeable;
    A.GradeableCall(s, mode, job.budget, 0, {}, false);
    A.GradeableCall(s, mode, job.budget, 1, {read.key.value}, false);
  }
}
