/** The one approved write of a case: pause, approval, resume, second announcement, call. */
module AgreementApproval {
  import opened Domain
  import opened Evidence
  import opened Gate
  import opened AgreementLedger
  import opened AgreementCalls
  import opened AgreementSteps
  import opened AgreementHead
  import opened AgreementCases
  import opened Rows
  import P = Protocol
  import W = Gateway
  import D = Desktop

  // ---------------------------------------------------------------- the pause

  function Paused(g: State, sequence: nat, step: nat, action: Action): State
    requires action.CallTool?
  {
    g.(consent := g.consent.(waits := g.consent.waits + [Wait(sequence, step, action.tool, OfAction(action))]))
  }

  lemma PauseSeen(w: World, t: Tables, g: State, action: Action)
    requires action.CallTool? && InCall(w, t, g, Call(t.run.step, action.tool))
    ensures See(w, D.Pause(t, action).events) == Live(Paused(g, t.counter + 1, t.run.step, action))
  {
    hide See, PlanOf;
    SaveSeen(w, t, g, t.run.(status := Status.WaitingApproval, pendingApproval := true, pendingAction := Some(action),
                             pendingDigest := Some(OfAction(action))),
             Note(0, Fine, WaitingFor(t.run.step, action.tool, OfAction(action))));
  }

  /** The gated call of the loop head pauses, whatever its key. */
  ghost predicate Pausing(w: World, t: Tables, g: State, wrote: Option<nat>, action: Action) {
    && Calling(w, t, g, wrote, action) && RequiresApproval(action.tool)
    && W.PreflightCode(w.scenario.faults, W.Stabilise(t.run.step, action)).None?
  }

  lemma PassPauses(w: World, t: Tables, g: State, wrote: Option<nat>, action: Action, t1: Tables, g1: State)
    requires Pausing(w, t, g, wrote, action) && Midway(w, t, g, wrote, action, t1, g1)
    ensures D.Pass(w.job, t) == D.Pause(t1, W.Stabilise(t.run.step, action))
    ensures See(w, D.Pass(w.job, t).events)
            == Live(Paused(g1, t1.counter + 1, t.run.step, W.Stabilise(t.run.step, action)))
    ensures D.Writes(D.Pass(w.job, t).events) == (if wrote.Some? then 1 else 0)
    ensures Contiguous(D.Pass(w.job, t))
  {
    var stable := W.Stabilise(t.run.step, action);
    PauseSeen(w, t1, g1, stable);
    PauseWrites(t1, stable);
    D.PauseGrows(t1, stable);
    hide See, D.Pass, D.Pause, D.Perform, D.Writes, Below, LastStep, Rested, Contiguous, W.Stabilise, W.PreflightCode;
  }

  lemma PauseWrites(t: Tables, action: Action)
    requires action.CallTool?
    ensures D.Writes(D.Pause(t, action).events) == D.Writes(t.events)
  {
    SaveWrites(t, t.run.(status := Status.WaitingApproval, pendingApproval := true, pendingAction := Some(action),
                         pendingDigest := Some(OfAction(action))),
               Note(0, Fine, WaitingFor(t.run.step, action.tool, OfAction(action))));
  }

  /** A trace that ends while the run waits has no terminal event, and is refused. */
  lemma LeftWaiting(w: World, traceId: nat, t: Tables, g: State, wrote: Option<nat>, action: Action)
    requires Pausing(w, t, g, wrote, action) && (wrote.Some? || !w.scenario.approvalSupplied)
    ensures Report(w, traceId, t, wrote.Some?).None?
  {
    var t1, g1 := CallAnnounced(w, t, g, wrote, action);
    PassPauses(w, t, g, wrote, action, t1, g1);
    hide D.Pass, D.Pause, D.Writes, Below, LastStep, Rested, Contiguous, W.Stabilise, W.PreflightCode, ClaimsOf;
    EndsHere(w, t, wrote.Some?);
    FinalGrows(w, t, wrote.Some?);
    ClaimsSeen(w, traceId, Pre(w, t, wrote.Some?), Final(w, t, wrote.Some?));
    hide See, Final, Pre;
  }

  // ---------------------------------------------------------------- approval and resume

  /** The tables once the suite's approval of the paused action is recorded. */
  function Decided(u: Tables, action: Action): Tables {
    Append(u.(lease := None, approvals := u.approvals[u.run.step := D.SuiteApproval(OfAction(action))]),
           Note(u.counter + 1, Fine, ApprovalRecorded(u.run.step, OfAction(action), REVIEWER, true)))
  }

  /** The tables when the resumed worker is about to enter its loop. */
  function Reentered(w: World, u: Tables, action: Action): Tables {
    D.Enter(Decided(u, action).(lease := Some(Lease(1, w.job.now + w.job.leaseSeconds))))
  }

  /** The paused tables of a gated call, ready for the suite's decision. */
  predicate Waiting(u: Tables, action: Action) {
    && u.run.status.WaitingApproval? && u.run.pendingApproval && u.run.step !in u.approvals
    && u.run.pendingAction == Some(action) && u.run.pendingDigest == Some(OfAction(action))
  }

  lemma ApprovedReport(w: World, traceId: nat, t: Tables, u: Tables, action: Action)
    requires t.run.status.Running? && D.Pass(w.job, t) == u && Waiting(u, action)
    requires w.scenario.approvalSupplied && D.Writes(u.events) == 0
    ensures Report(w, traceId, t, false) == Report(w, traceId, Reentered(w, u, action), true)
    ensures D.Grows(Decided(u, action), Final(w, t, false))
  {
    hide D.Pass, D.Enter, ClaimsOf, D.Grows;
    assert D.Loop(w.job, u) == u;
    var recorded := Rows.Record(u.(lease := None), u.run.step, D.SuiteApproval(OfAction(action)), true);
    assert recorded == Ok(Decided(u, action));
    ExecuteGrows(w.job, Decided(u, action), 1);
    hide D.Loop, D.Writes;
  }

  lemma DecisionSeen(w: World, u: Tables, g: State, action: Action)
    requires action.CallTool? && InCall(w, u, g, Call(u.run.step, action.tool))
    requires u.run.step < |w.scenario.actions| && w.scenario.actions[u.run.step].CallTool?
    requires w.scenario.actions[u.run.step].tool == action.tool
    ensures See(w, Decided(u, action).events) == if action == w.scenario.actions[u.run.step]
              then Live(g.(consent := g.consent.(decisions := g.consent.decisions +
                     [Decision(u.counter + 1, u.run.step, OfAction(action), REVIEWER, true)])))
              else Refused
  {
    ProjectionFollows(w.scenario.actions);
    hide See, ByStep, ExpectedDigest;
    Extend(w, u.(lease := None, approvals := u.approvals[u.run.step := D.SuiteApproval(OfAction(action))]),
           Note(u.counter + 1, Fine, ApprovalRecorded(u.run.step, OfAction(action), REVIEWER, true)), g);
  }

  lemma ResumeSeen(w: World, t: Tables, g: State)
    requires See(w, t.events) == Live(g) && Free(g) && t.run.status.WaitingApproval?
    ensures See(w, D.Enter(t).events) == Live(g.(consent := g.consent.(resumes := g.consent.resumes + [t.counter + 1])))
  {
    hide See, PlanOf;
    SaveSeen(w, t, g, t.run.(status := Status.Running, pendingApproval := false),
        Note(0, Fine, RunRunning(t.run.status)));
  }

  lemma ReannounceSeen(w: World, t: Tables, g: State, action: Action)
    requires See(w, t.events) == Live(g) && Free(g) && action.CallTool?
    requires t.run.step < |w.scenario.actions| && action == w.scenario.actions[t.run.step]
    requires |g.cursor.seen| == t.run.step + 1 && g.cursor.lastStep == t.run.step
    requires g.cursor.seen[t.run.step] == CallKind
    ensures See(w, Append(t, Note(0, Fine, PolicyAction(t.run.step, action))).events)
            == Live(Told(g, t.counter + 1, t.run.step, action))
  {
    ProjectionFollows(w.scenario.actions);
    hide See, ByStep;
    Extend(w, t, Note(0, Fine, PolicyAction(t.run.step, action)), g);
  }

  /** The gate after pause, approval, resume and second announcement of the action. */
  function Cycled(g1: State, counter: nat, step: nat, action: Action): State
    requires action.CallTool?
  {
    var g2 := Paused(g1, counter + 1, step, action);
    var g3 := g2.(consent := g2.consent.(decisions := g2.consent.decisions
        + [Decision(counter + 2, step, OfAction(action), REVIEWER, true)]));
    var g4 := g3.(consent := g3.consent.(resumes := g3.consent.resumes + [counter + 3]));
    Told(g4, counter + 4, step, action)
  }

  lemma EnterView(t: Tables)
    requires t.run.status.WaitingApproval?
    ensures D.Enter(t) == Append(t.(run := t.run.(status := Status.Running, pendingApproval := false,
            version := t.run.version + 1)),
                                 Note(0, Fine, RunRunning(Status.WaitingApproval)))
  {
    SaveOne(t, t.run.(status := Status.Running, pendingApproval := false),
        Note(0, Fine, RunRunning(Status.WaitingApproval)));
  }

  /** The tables right after the second announcement. */
  function Again(w: World, u: Tables, action: Action): Tables {
    Append(Reentered(w, u, action), Note(0, Fine, PolicyAction(u.run.step, action)))
  }

  lemma AgainView(w: World, u: Tables, action: Action)
    requires Waiting(u, action) && action.CallTool? && action.key.Some?
    requires W.PreflightCode(w.job.faults, action).None?
    ensures var e, e1 := Reentered(w, u, action), Again(w, u, action);
            && e.run.status.Running? && e.run.pendingAction == Some(action) && e.run.step == u.run.step
            && e.counter == u.counter + 2
            && e1.counter == u.counter + 3 && e1.claims == u.claims
            && e1.approvals == u.approvals[u.run.step := D.SuiteApproval(OfAction(action))]
            && e1.run == u.run.(status := Status.Running, pendingApproval := false, version := e1.run.version)
            && D.Pass(w.job, e) == D.Perform(w.job, e1, action)
            && W.ConsentCode(e1.approvals, e1.run.step, action).None?
            && (Contiguous(u) ==> Contiguous(e1))
  {
    EnterView(Decided(u, action).(lease := Some(Lease(1, w.job.now + w.job.leaseSeconds))));
    hide D.Perform, D.Enter, W.PreflightCode, D.Terminate;
    assert W.Stabilise(u.run.step, action) == action;
  }

  /** Approval and resume, up to the second announcement. */
  lemma ReenteredSeen(w: World, u: Tables, g: State, action: Action)
    requires Waiting(u, action) && action.CallTool? && InCall(w, u, g, Call(u.run.step, action.tool))
    requires u.run.step < |w.scenario.actions| && action == w.scenario.actions[u.run.step]
    ensures var g3 := g.(consent := g.consent.(decisions := g.consent.decisions
            + [Decision(u.counter + 1, u.run.step, OfAction(action), REVIEWER, true)]));
            var g4 := g3.(consent := g3.consent.(resumes := g3.consent.resumes + [u.counter + 2]));
            See(w, Reentered(w, u, action).events) == Live(g4)
  {
    hide *;
    var d := Decided(u, action).(lease := Some(Lease(1, w.job.now + w.job.leaseSeconds)));
    var g3 := g.(consent := g.consent.(decisions := g.consent.decisions
        + [Decision(u.counter + 1, u.run.step, OfAction(action), REVIEWER, true)]));
    DecisionSeen(w, u, g, action);
    DecidedView(u, action);
    ReenteredIs(w, u, action);
    StaysFree(w, u, g, action, g3);
    ResumeSeen(w, d, g3);
  }

  lemma ReenteredIs(w: World, u: Tables, action: Action)
    ensures Reentered(w, u, action)
            == D.Enter(Decided(u, action).(lease := Some(Lease(1, w.job.now + w.job.leaseSeconds))))
    ensures Waiting(u, action) ==> u.run.status.WaitingApproval?
  {
    hide D.Enter;
  }

  lemma StaysFree(w: World, u: Tables, g: State, action: Action, g': State)
    requires action.CallTool? && InCall(w, u, g, Call(u.run.step, action.tool))
    requires g' == g.(consent := g.consent.(decisions := g'.consent.decisions))
    requires u.run.step < |w.scenario.actions| && action == w.scenario.actions[u.run.step]
    ensures Free(g')
  {
    hide See;
  }

  lemma DecidedView(u: Tables, action: Action)
    ensures Decided(u, action).run == u.run && Decided(u, action).counter == u.counter + 1
  {
  }

  lemma ReenteredView(w: World, u: Tables, action: Action)
    requires u.run.status.WaitingApproval?
    ensures Reentered(w, u, action).counter == u.counter + 2 && Reentered(w, u, action).run.step == u.run.step
  {
    EnterView(Decided(u, action).(lease := Some(Lease(1, w.job.now + w.job.leaseSeconds))));
    hide D.Enter;
  }

  lemma AgainSeen(w: World, u: Tables, g: State, action: Action)
    requires Waiting(u, action) && action.CallTool? && InCall(w, u, g, Call(u.run.step, action.tool))
    requires u.run.step < |w.scenario.actions| && action == w.scenario.actions[u.run.step]
    requires |g.cursor.seen| == u.run.step + 1 && g.cursor.lastStep == u.run.step
    requires g.cursor.seen[u.run.step] == CallKind
    ensures var g3 := g.(consent := g.consent.(decisions := g.consent.decisions
            + [Decision(u.counter + 1, u.run.step, OfAction(action), REVIEWER, true)]));
            var g4 := g3.(consent := g3.consent.(resumes := g3.consent.resumes + [u.counter + 2]));
            See(w, Again(w, u, action).events) == Live(Told(g4, u.counter + 3, u.run.step, action))
  {
    var g3 := g.(consent := g.consent.(decisions := g.consent.decisions
        + [Decision(u.counter + 1, u.run.step, OfAction(action), REVIEWER, true)]));
    var g4 := g3.(consent := g3.consent.(resumes := g3.consent.resumes + [u.counter + 2]));
    assert Free(g4);
    hide See, React, Reentered, Told, Free, InCall, Append;
    ReenteredView(w, u, action);
    ReenteredSeen(w, u, g, action);
    ReannounceSeen(w, Reentered(w, u, action), g4, action);
  }

  lemma DecidedWrites(u: Tables, action: Action)
    ensures D.Writes(Decided(u, action).events) == D.Writes(u.events)
  {
    hide D.Writes;
    WritesAppend(u.(lease := None, approvals := u.approvals[u.run.step := D.SuiteApproval(OfAction(action))]),
                 Note(u.counter + 1, Fine, ApprovalRecorded(u.run.step, OfAction(action), REVIEWER, true)));
  }

  lemma EnterWrites(t: Tables)
    requires t.run.status.WaitingApproval?
    ensures D.Writes(D.Enter(t).events) == D.Writes(t.events)
  {
    hide D.Writes, D.Enter, Append;
    EnterView(t);
    WritesAppend(t.(run := t.run.(status := Status.Running, pendingApproval := false, version := t.run.version + 1)),
                 Note(0, Fine, RunRunning(Status.WaitingApproval)));
  }

  lemma AgainWrites(w: World, u: Tables, action: Action)
    requires Waiting(u, action)
    ensures D.Writes(Again(w, u, action).events) == D.Writes(u.events)
  {
    hide D.Writes, D.Enter, Append, Decided;
    DecidedWrites(u, action);
    DecidedView(u, action);
    EnterWrites(Decided(u, action).(lease := Some(Lease(1, w.job.now + w.job.leaseSeconds))));
    WritesAppend(Reentered(w, u, action), Note(0, Fine, PolicyAction(u.run.step, action)));
  }

  // ---------------------------------------------------------------- the approved call

  /** The suite is about to approve the pause of the loop head `(t, g)`. */
  ghost predicate Approving(w: World, t: Tables, g: State, action: Action) {
    Pausing(w, t, g, None, action) && w.scenario.approvalSupplied
  }

  /** A pause under a derived key is approved under a digest the frozen plan does not have. */
  lemma KeylessRefused(w: World, traceId: nat, t: Tables, g: State, action: Action)
    requires Approving(w, t, g, action) && action.key.None?
    ensures Report(w, traceId, t, false).None?
  {
    var stable := W.Stabilise(t.run.step, action);
    var t1, g1 := CallAnnounced(w, t, g, None, action);
    PassPauses(w, t, g, None, action, t1, g1);
    var u := D.Pass(w.job, t);
    PauseIsWaiting(t1, stable);
    assert forall k :: k in t.approvals ==> k < t.run.step;
    assert stable != action;
    hide See, D.Pass, D.Pause, D.Writes, Below, LastStep, Rested, Contiguous, W.Stabilise, W.PreflightCode, Report,
        Decided, Final;
    ApprovedReport(w, traceId, t, u, stable);
    DecisionSeen(w, u, Paused(g1, t1.counter + 1, t.run.step, stable), stable);
    RefusedReport(w, traceId, t, false, Decided(u, stable).events);
  }

  lemma PauseIsWaiting(t: Tables, action: Action)
    requires action.CallTool?
    ensures var u := D.Pause(t, action);
            && (t.run.step !in t.approvals ==> Waiting(u, action))
            && u.counter == t.counter + 1 && u.approvals == t.approvals && u.claims == t.claims
            && u.run == t.run.(status := Status.WaitingApproval, pendingApproval := true, pendingAction := Some(action),
                               pendingDigest := Some(OfAction(action)), version := u.run.version)
  {
    SaveOne(t, t.run.(status := Status.WaitingApproval, pendingApproval := true, pendingAction := Some(action),
                      pendingDigest := Some(OfAction(action))),
            Note(0, Fine, WaitingFor(t.run.step, action.tool, OfAction(action))));
  }

  /** The tables `e` enter the loop with the approved action pending; `e1` have announced it. */
  ghost predicate OnwardTables(w: World, t: Tables, action: Action, e: Tables, e1: Tables) {
    && action.CallTool? && e.run.status.Running? && e1.run.status.Running?
    && D.Pass(w.job, e) == D.Perform(w.job, e1, action) && e.run.step == t.run.step
    && MayCall(w, e1, action)
    && e1.run.step == t.run.step && e1.run.policyCalls == t.run.step + 1 && e1.run.mode == t.run.mode
    && e1.run.context == t.run.context
    && e1.claims == t.claims && (forall k :: k in e1.approvals ==> k <= t.run.step)
    && D.Writes(e1.events) == 0 && Contiguous(e1) && e1.counter == t.counter + 5
  }

  /** The approved action is about to be called, from the tables `e1` under the gate state `g5`. */
  ghost predicate Onward(w: World, traceId: nat, t: Tables, g: State, action: Action, e: Tables, e1: Tables, g1: State,
      g5: State) {
    && OnwardTables(w, t, action, e, e1)
    && t.run.step < |w.scenario.actions| && action == w.scenario.actions[t.run.step] && RequiresApproval(action.tool)
    && InCall(w, e1, g5, Call(t.run.step, action.tool))
    && g5 == Cycled(g1, t.counter + 1, t.run.step, action)
    && Midpoint(w, t, g, g1)
    && Report(w, traceId, t, false) == Report(w, traceId, e, true)
  }

  /** The gate right after the first announcement. */
  predicate Midpoint(w: World, t: Tables, g: State, g1: State) {
    && g1.ledger == g.ledger && g1.delivery == g.delivery && g1.consent == g.consent
    && Below(w, g1, t.run.step, None) && LastStep(w, g1, t.run.step)
    && |g1.cursor.seen| == t.run.step + 1 && g1.cursor.lastStep == t.run.step
    && t.run.step in g1.cursor.positions && g1.cursor.positions[t.run.step] == [t.counter + 1]
  }

  lemma ApproveOnward(w: World, traceId: nat, t: Tables, g: State, action: Action)
      returns (e: Tables, e1: Tables, g1: State, g5: State)
    requires Approving(w, t, g, action) && action.key.Some?
    ensures Onward(w, traceId, t, g, action, e, e1, g1, g5)
  {
    var t1;
    t1, g1 := CallAnnounced(w, t, g, None, action);
    PassPauses(w, t, g, None, action, t1, g1);
    assert W.Stabilise(t.run.step, action) == action;
    hide *;
    e, e1 := Reentered(w, D.Pass(w.job, t), action), Again(w, D.Pass(w.job, t), action);
    g5 := Cycled(g1, t1.counter, t.run.step, action);
    OnwardFrom(w, traceId, t, g, action, t1, g1, D.Pass(w.job, t));
  }

  lemma OnwardFrom(w: World, traceId: nat, t: Tables, g: State, action: Action, t1: Tables, g1: State, u: Tables)
    requires Approving(w, t, g, action) && action.key.Some? && W.Stabilise(t.run.step, action) == action
    requires Midway(w, t, g, None, action, t1, g1)
    requires u == D.Pass(w.job, t) && u == D.Pause(t1, action) && D.Writes(u.events) == 0 && Contiguous(u)
    requires See(w, u.events) == Live(Paused(g1, t1.counter + 1, t.run.step, action))
    ensures Onward(w, traceId, t, g, action, Reentered(w, u, action), Again(w, u, action), g1,
            Cycled(g1, t1.counter, t.run.step, action))
  {
    hide *;
    PauseIsWaiting(t1, action);
    ApprovingView(w, t, g, action);
    MidwayView(w, t, g, action, t1, g1);
    AgainTables(w, t, g, action, t1, u);
    var g2, g5 := Paused(g1, t1.counter + 1, t.run.step, action), Cycled(g1, t1.counter, t.run.step, action);
    CycledView(g1, t1.counter, t.run.step, action);
    PausedInCall(w, u, g1, t1.counter + 1, t.run.step, action);
    AgainStep(w, t, action, u);
    ApprovedReport(w, traceId, t, u, action);
    AgainSeen(w, u, g2, action);
    OnwardHolds(w, traceId, t, g, action, Reentered(w, u, action), Again(w, u, action), g1, g5);
  }

  lemma PausedInCall(w: World, u: Tables, g1: State, sequence: nat, step: nat, action: Action)
    requires action.CallTool? && Free(g1) && g1.cursor.active == Some(Call(step, action.tool)) && u.run.mode == w.mode
    requires u.run.step == step
    requires See(w, u.events) == Live(Paused(g1, sequence, step, action))
    ensures InCall(w, u, Paused(g1, sequence, step, action), Call(u.run.step, action.tool))
    ensures Paused(g1, sequence, step, action).cursor == g1.cursor
  {
    hide See;
  }

  lemma CycledView(g1: State, counter: nat, step: nat, action: Action)
    requires action.CallTool? && Free(g1)
    ensures var g2, g5 := Paused(g1, counter + 1, step, action), Cycled(g1, counter, step, action);
            && Free(g5) && g5.cursor.active == Some(Call(step, action.tool))
            && var g3 := g2.(consent := g2.consent.(decisions := g2.consent.decisions
                + [Decision(counter + 2, step, OfAction(action), REVIEWER, true)]));
               var g4 := g3.(consent := g3.consent.(resumes := g3.consent.resumes + [counter + 3]));
               g5 == Told(g4, counter + 4, step, action)
  {
  }

  lemma OnwardHolds(w: World, traceId: nat, t: Tables, g: State, action: Action, e: Tables, e1: Tables, g1: State,
      g5: State)
    requires OnwardTables(w, t, action, e, e1) && t.run.mode == w.mode
    requires t.run.step < |w.scenario.actions| && action == w.scenario.actions[t.run.step]
    requires RequiresApproval(action.tool)
    requires See(w, e1.events) == Live(g5) && Free(g5) && g5.cursor.active == Some(Call(t.run.step, action.tool))
    requires g5 == Cycled(g1, t.counter + 1, t.run.step, action) && Midpoint(w, t, g, g1)
    requires Report(w, traceId, t, false) == Report(w, traceId, e, true)
    ensures Onward(w, traceId, t, g, action, e, e1, g1, g5)
  {
    hide See, Report, MayCall, D.Pass, D.Perform, D.Writes, Midpoint, Free;
  }

  lemma AgainStep(w: World, t: Tables, action: Action, u: Tables)
    requires OnwardTables(w, t, action, Reentered(w, u, action), Again(w, u, action))
    ensures Again(w, u, action).run.step == t.run.step && Again(w, u, action).run.mode == t.run.mode
  {
  }

  lemma AgainTables(w: World, t: Tables, g: State, action: Action, t1: Tables, u: Tables)
    requires Approving(w, t, g, action) && action.key.Some?
    requires u == D.Pause(t1, action) && D.Writes(u.events) == 0 && Contiguous(u)
    requires t1.run == t.run.(policyCalls := t.run.step + 1, version := t1.run.version)
    requires t1.claims == t.claims && t1.approvals == t.approvals && t1.counter == t.counter + 1
    ensures OnwardTables(w, t, action, Reentered(w, u, action), Again(w, u, action))
  {
    hide See, D.Pass, D.Pause, D.Perform, D.Writes, Contiguous, W.PreflightCode, W.ConsentCode, AllCompleted, Reentered,
        Again, Approving;
    ApprovingView(w, t, g, action);
    PauseIsWaiting(t1, action);
    AgainView(w, u, action);
    AgainWrites(w, u, action);
  }

  lemma ApprovingView(w: World, t: Tables, g: State, action: Action)
    requires Approving(w, t, g, action) && action.key.Some?
    ensures w.scenario.approvalSupplied && action.CallTool? && t.run.status.Running? && t.run.pendingAction.None?
    ensures t.run.step < |w.scenario.actions| && action == w.scenario.actions[t.run.step]
    ensures RequiresApproval(action.tool)
    ensures w.job.faults == w.scenario.faults && W.PreflightCode(w.job.faults, action).None?
    ensures t.run.mode == w.mode && AllCompleted(t.claims) && forall k :: k in t.approvals ==> k < t.run.step
  {
    hide See, Rested, Below, D.Writes, W.PreflightCode, AllCompleted, Contiguous;
  }

  lemma MidwayView(w: World, t: Tables, g: State, action: Action, t1: Tables, g1: State)
    requires Midway(w, t, g, None, action, t1, g1)
    ensures t1.run == t.run.(policyCalls := t.run.step + 1, version := t1.run.version)
    ensures t1.claims == t.claims && t1.approvals == t.approvals && t1.counter == t.counter + 1
    ensures Free(g1) && g1.cursor.active == Some(Call(t.run.step, action.tool)) && t1.run.mode == w.mode
    ensures |g1.cursor.seen| == t.run.step + 1 && g1.cursor.lastStep == t.run.step
    ensures Midpoint(w, t, g, g1) && g1.cursor.seen[t.run.step] == CallKind
  {
    hide See, Below, LastStep, D.Writes, W.Stabilise, D.CarryCall, D.Pass, Contiguous;
  }

  lemma ApprovedUsed(w: World, traceId: nat, t: Tables, g: State, action: Action, e: Tables, e1: Tables, g1: State,
      g5: State)
    requires Onward(w, traceId, t, g, action, e, e1, g1, g5) && Rested(g.ledger, t.run.step) && !Unused(t, action)
    ensures Report(w, traceId, t, false).None?
  {
    hide D.Perform, D.Pass, See, Report, Rested, Below, LastStep, D.Writes, Contiguous, AllCompleted, W.PreflightCode,
        W.ConsentCode;
    UsedKeyRefused(w, e1, g5, action);
    ApprovedRefused(w, traceId, t, g, action, e, e1, g1, g5);
  }

  /** A gated call was executed but wrote nothing: no cycle is valid. */
  lemma NoWriteNoClaims(w: World, c: Case, g: State, step: nat)
    requires step < |w.scenario.actions| && Gated(w.scenario.actions[step]) && Executed(g.ledger, step) && c.writes != 1
    ensures Conclude(c, FrozenOf(w.scenario), g).None?
  {
    var entries := Project(w.scenario.actions);
    assert entries[step] == Entry(step, w.scenario.actions[step]);
    hide Settled, PositionsOk, AttemptSemantics, Executed, Project;
    assert step in GatedSteps(entries, g);
  }

  lemma ApprovedFails(w: World, traceId: nat, t: Tables, g: State, action: Action, e: Tables, e1: Tables, g1: State,
      g5: State)
    requires Onward(w, traceId, t, g, action, e, e1, g1, g5) && Rested(g.ledger, t.run.step) && Unused(t, action)
    requires !Succeeds(w.scenario.faults, action.tool, w.mode)
    ensures Report(w, traceId, t, false).None?
  {
    hide D.Perform, D.Pass, See, Rested, Below, LastStep, D.Writes, Contiguous, AllCompleted, W.PreflightCode,
        W.ConsentCode, Succeeds, ClaimsOf, Executed;
    var g' := PerformFails(w, e1, g5, action);
    PerformWrites(w, e1, action);
    D.PerformGrows(w.job, e1, action);
    EndsHere(w, e, true);
    FinalContiguous(w, e, e1, action);
    ClaimsSeen(w, traceId, 0, Final(w, e, true));
    hide Final;
    NoWriteNoClaims(w, CaseOf(w.mode, traceId, 0, Final(w, e, true)), g', t.run.step);
  }

  lemma FinalContiguous(w: World, e: Tables, e1: Tables, action: Action)
    requires action.CallTool? && e.run.status.Running? && e1.run.status.Running?
    requires D.Pass(w.job, e) == D.Perform(w.job, e1, action)
    requires Contiguous(e1)
    ensures Contiguous(Final(w, e, true))
  {
    D.PerformGrows(w.job, e1, action);
    D.LoopGrows(w.job, D.Pass(w.job, e));
    hide D.Pass, D.Perform;
    assert D.Loop(w.job, e) == D.Loop(w.job, D.Pass(w.job, e));
  }

  lemma {:induction false} FirstInProjection(entries: seq<LogicalAction>, step: nat, from: nat)
    requires forall i :: 0 <= i < |entries| ==> entries[i].step == from + i
    requires from <= step < from + |entries|
    ensures FirstAt(entries, step) == Some(entries[step - from])
  {
    if entries[0].step != step {
      FirstInProjection(entries[1..], step, from + 1);
    }
  }

  /** One wait, decision and resume around two announcements, before the first start. */
  lemma CycleComplete(w: World, t: Tables, g: State, g1: State, g5: State, g': State, action: Action)
    requires t.run.step < |w.scenario.actions| && action == w.scenario.actions[t.run.step] && Gated(action)
    requires Midpoint(w, t, g, g1) && g5 == Cycled(g1, t.counter + 1, t.run.step, action)
    requires StartsKept(g5.ledger, g'.ledger, t.run.step, t.counter + 5)
    requires g'.consent == g5.consent && g'.cursor.positions == g5.cursor.positions
    ensures CycleOk(ONE_WRITE, FrozenOf(w.scenario), g', t.run.step)
  {
    FirstInProjection(Project(w.scenario.actions), t.run.step, 0);
    assert ConsentAt(w, g1, None);
    assert !Executed(g1.ledger, t.run.step);
    hide Below, FirstAt, ExpectedDigest, AllBelow;
  }

  lemma BelowWrote(w: World, t: Tables, g: State, g1: State, g5: State, g': State, action: Action)
    requires t.run.step < |w.scenario.actions| && action == w.scenario.actions[t.run.step] && Gated(action)
    requires w.scenario.approvalSupplied
    requires Midpoint(w, t, g, g1) && g5 == Cycled(g1, t.counter + 1, t.run.step, action)
    requires StartsKept(g5.ledger, g'.ledger, t.run.step, t.counter + 5) && Executed(g'.ledger, t.run.step)
    requires g'.consent == g5.consent && g'.cursor.positions == g5.cursor.positions
    ensures Below(w, g', t.run.step + 1, Some(t.run.step))
  {
    CycleComplete(w, t, g, g1, g5, g', action);
    hide CycleOk, StartsKept, Executed, LastStep, ConsentAt;
    forall k | 0 <= k < t.run.step + 1
      ensures Announced(w, g', k, Some(t.run.step))
    {
      if k < t.run.step {
        assert Announced(w, g1, k, None);
      }
    }
    assert ConsentAt(w, g', Some(t.run.step)) by { WroteConsent(w, g', t.run.step); }
  }

  lemma WroteConsent(w: World, g: State, step: nat)
    requires w.scenario.approvalSupplied && CycleOk(ONE_WRITE, FrozenOf(w.scenario), g, step)
    ensures ConsentAt(w, g, Some(step))
  {
  }

  lemma ApprovedSuccess(w: World, traceId: nat, t: Tables, g: State, action: Action, e: Tables, e1: Tables, g1: State,
      g5: State)
    returns (g': State)
    requires Onward(w, traceId, t, g, action, e, e1, g1, g5) && Head(w, t, g, None) && w.scenario.approvalSupplied
    requires Unused(t, action) && Succeeds(w.scenario.faults, action.tool, w.mode)
    ensures if FixtureOutput(action.tool, action.args).Some?
            then Resumed(w, traceId, t, action, D.Pass(w.job, e), g', None, Some(t.run.step))
            else Report(w, traceId, t, false).None?
  {
    FixtureIsBackend(w, t.run.step, action);
    hide *;
    g' := ApprovedCall(w, traceId, t, g, action, e, e1, g1, g5);
    if Expected(w, t.run.step, BackendOutput(action.tool, action.args)) {
      ApprovedResumes(w, traceId, t, g, action, e, e1, g1, g5, g');
    } else {
      ApprovedRefused(w, traceId, t, g, action, e, e1, g1, g5);
    }
  }

  lemma SameKeys(t: Tables, e1: Tables, action: Action)
    requires Unused(t, action) && e1.claims == t.claims
    ensures Unused(e1, action)
  {
  }

  lemma ApprovedCall(w: World, traceId: nat, t: Tables, g: State, action: Action, e: Tables, e1: Tables, g1: State,
      g5: State)
    returns (g': State)
    requires Onward(w, traceId, t, g, action, e, e1, g1, g5) && Head(w, t, g, None)
    requires Unused(t, action) && Succeeds(w.scenario.faults, action.tool, w.mode)
    ensures e.run.status.Running?
    ensures if Expected(w, t.run.step, BackendOutput(action.tool, action.args))
            then Passed(w, e1, g5, action, D.Pass(w.job, e), g') && D.Writes(D.Pass(w.job, e).events) == 1
                && D.Grows(e1, D.Pass(w.job, e))
            else See(w, D.Pass(w.job, e).events).Refused?
  {
    hide *;
    HeadView(w, t, g, None);
    OnwardView(w, traceId, t, g, action, e, e1, g1, g5);
    OnwardGate(w, t, g, action, e1, g1, g5);
    SameKeys(t, e1, action);
    g' := PerformSucceeds(w, e1, g5, action);
    PerformWrites(w, e1, action);
    D.PerformGrows(w.job, e1, action);
  }

  lemma ApprovedRefused(w: World, traceId: nat, t: Tables, g: State, action: Action, e: Tables, e1: Tables, g1: State,
      g5: State)
    requires Onward(w, traceId, t, g, action, e, e1, g1, g5) && e.run.status.Running?
    requires See(w, D.Pass(w.job, e).events).Refused?
    ensures Report(w, traceId, t, false).None?
  {
    OnwardView(w, traceId, t, g, action, e, e1, g1, g5);
    hide *;
    PerformStops(w, e1, action);
    if D.Pass(w.job, e).run.status.Running? {
      RefusedOn(w, traceId, e, true);
    } else {
      RefusedEnd(w, traceId, e, true);
    }
  }

  lemma FixtureIsBackend(w: World, step: nat, action: Action)
    requires step < |w.scenario.actions| && w.scenario.actions[step] == action && action.CallTool?
    ensures Expected(w, step, BackendOutput(action.tool, action.args))
            <==> FixtureOutput(action.tool, action.args).Some?
  {
  }

  lemma ApprovedResumes(w: World, traceId: nat, t: Tables, g: State, action: Action, e: Tables, e1: Tables, g1: State,
      g5: State, g': State)
    requires Onward(w, traceId, t, g, action, e, e1, g1, g5) && Head(w, t, g, None) && w.scenario.approvalSupplied
    requires Passed(w, e1, g5, action, D.Pass(w.job, e), g')
    requires D.Writes(D.Pass(w.job, e).events) == 1 && D.Grows(e1, D.Pass(w.job, e))
    ensures Resumed(w, traceId, t, action, D.Pass(w.job, e), g', None, Some(t.run.step))
  {
    hide *;
    HeadView(w, t, g, None);
    OnwardView(w, traceId, t, g, action, e, e1, g1, g5);
    OnwardGate(w, t, g, action, e1, g1, g5);
    PassedView(w, e1, g5, action, D.Pass(w.job, e), g');
    GrownContiguous(e1, D.Pass(w.job, e));
    BelowWrote(w, t, g, g1, g5, g', action);
    HeadAgain(w, e1, g5, action, D.Pass(w.job, e), g', Some(t.run.step));
    GoesOn(w, traceId, e, true);
    ResumedHolds(w, traceId, t, action, e, e1, g5, g');
  }

  lemma ResumedHolds(w: World, traceId: nat, t: Tables, action: Action, e: Tables, e1: Tables, g5: State, g': State)
    requires action.CallTool? && e.run.status.Running?
    requires Passed(w, e1, g5, action, D.Pass(w.job, e), g') && Head(w, D.Pass(w.job, e), g', Some(t.run.step))
    requires e1.run.step == t.run.step && e1.claims == t.claims
    requires Report(w, traceId, t, false) == Report(w, traceId, D.Pass(w.job, e), true)
    ensures Resumed(w, traceId, t, action, D.Pass(w.job, e), g', None, Some(t.run.step))
  {
    hide D.Pass, See, Head, Report, BackendOutput, Rested, Executed, StartsKept, AllCompleted;
  }

  lemma OnwardView(w: World, traceId: nat, t: Tables, g: State, action: Action, e: Tables, e1: Tables, g1: State,
      g5: State)
    requires Onward(w, traceId, t, g, action, e, e1, g1, g5)
    ensures action.CallTool? && Gated(action) && t.run.step < |w.scenario.actions|
    ensures e.run.status.Running? && e1.run.status.Running? && action == w.scenario.actions[t.run.step]
    ensures RequiresApproval(action.tool)
    ensures e1.run.step == t.run.step && D.Writes(e1.events) == 0 && IsWrite(action.tool)
    ensures e1.run.policyCalls == e1.run.step + 1 && e1.run.mode == t.run.mode && e1.run.context == t.run.context
    ensures e1.claims == t.claims
    ensures forall k :: k in e1.approvals ==> k <= e1.run.step
    ensures Contiguous(e1) && e1.counter == t.counter + 5
    ensures Midpoint(w, t, g, g1) && g5 == Cycled(g1, t.counter + 1, t.run.step, action)
    ensures InCall(w, e1, g5, Call(t.run.step, action.tool)) && MayCall(w, e1, action)
    ensures D.Pass(w.job, e) == D.Perform(w.job, e1, action)
    ensures Report(w, traceId, t, false) == Report(w, traceId, e, true)
  {
    hide D.Pass, D.Perform, See, D.Writes, Contiguous, MayCall, Report, Midpoint, Cycled, InCall;
  }

  lemma OnwardGate(w: World, t: Tables, g: State, action: Action, e1: Tables, g1: State, g5: State)
    requires action.CallTool? && InCall(w, e1, g5, Call(t.run.step, action.tool)) && Midpoint(w, t, g, g1)
    requires g5 == Cycled(g1, t.counter + 1, t.run.step, action)
    ensures Free(g5) && g5.delivery == g.delivery && g5.ledger == g.ledger
    ensures |g5.cursor.seen| == t.run.step + 1 && g5.cursor.lastStep == t.run.step
    ensures forall k :: k in g5.cursor.positions ==> k <= t.run.step
  {
    LastPositions(w, g1, t.run.step);
    hide See, AgreementHead.Below, LastStep;
  }

  lemma PassedView(w: World, t: Tables, g: State, action: Action, u: Tables, g': State)
    requires action.CallTool? && Passed(w, t, g, action, u, g')
    ensures StartsKept(g.ledger, g'.ledger, t.run.step, t.counter) && Executed(g'.ledger, t.run.step)
    ensures g'.consent == g.consent && g'.cursor.positions == g.cursor.positions && u.run.status == t.run.status
  {
    hide See, BackendOutput, Rested, Executed, StartsKept, AllCompleted;
  }

  lemma HeadView(w: World, t: Tables, g: State, wrote: Option<nat>)
    requires Head(w, t, g, wrote)
    ensures w.job.actions == w.scenario.actions && w.job.faults == w.scenario.faults && t.run.mode == w.mode
    ensures t.run.context == w.scenario.context.(results := g.delivery.outputs) && Rested(g.ledger, t.run.step)
    ensures AnsweredTo(w.scenario.actions, g.delivery.accepted, t.run.step)
  {
    hide See, Rested, Below, D.Writes, AllCompleted, Contiguous;
  }

  /** The whole approved case: refused, or going on from the next loop head. */
  lemma GatedCase(w: World, traceId: nat, t: Tables, g: State, action: Action) returns (u: Tables, g': State)
    requires Approving(w, t, g, action)
    ensures action.key.Some? && Unused(t, action) && Succeeds(w.scenario.faults, action.tool, w.mode)
            && FixtureOutput(action.tool, action.args).Some? ==>
              Resumed(w, traceId, t, action, u, g', None, Some(t.run.step))
    ensures action.key.None? || !Unused(t, action) || !Succeeds(w.scenario.faults, action.tool, w.mode)
            || FixtureOutput(action.tool, action.args).None? ==>
              Report(w, traceId, t, false).None?
  {
    u, g' := t, g;
    HeadView(w, t, g, None);
    hide D.Pass, See, Below, LastStep, D.Writes, Contiguous, AllCompleted, W.PreflightCode, Report, Head, Rested,
        Succeeds, FixtureOutput, Onward, Resumed;
    if action.key.None? {
      KeylessRefused(w, traceId, t, g, action);
    } else {
      var e, e1, g1, g5 := ApproveOnward(w, traceId, t, g, action);
      if !Unused(t, action) {
        ApprovedUsed(w, traceId, t, g, action, e, e1, g1, g5);
      } else if !Succeeds(w.scenario.faults, action.tool, w.mode) {
        ApprovedFails(w, traceId, t, g, action, e, e1, g1, g5);
      } else {
        g' := ApprovedSuccess(w, traceId, t, g, action, e, e1, g1, g5);
        u := D.Pass(w.job, e);
      }
    }
  }
}