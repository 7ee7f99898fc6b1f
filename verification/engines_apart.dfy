/** Attempts counted by step: once the desktop has left a step behind, or failed, no later action or
    answer changes how often it tried that step, and the mobile engine never takes an attempt back. */
module EnginesApart {
  import opened Domain
  import opened Evidence
  import opened Rows
  import opened EngineCalls
  import W = Gateway
  import P = Protocol
  import D = Desktop
  import AC = AgreementCalls
  import M = Mobile
  import MS = MobileSafety

  function AttemptsAt(ids: seq<AttemptId>, k: nat): nat {
    if ids == [] then 0 else AttemptsAt(ids[..|ids| - 1], k) + (if ids[|ids| - 1].step == k then 1 else 0)
  }

  function DesktopAt(t: Tables, k: nat): nat {
    AttemptsAt(Ids(AttemptEvidence(t.events)), k)
  }

  function MobileAt(m: M.Record, k: nat): nat {
    AttemptsAt(Ids(MobileAttempts(m.trace)), k)
  }

  /** The desktop will not try this step any more. */
  predicate Ahead(t: Tables, k: nat) {
    t.run.step > k || t.run.status.Failed?
  }

  lemma {:induction false} CountsAdd(a: seq<AttemptId>, b: seq<AttemptId>, k: nat)
    ensures AttemptsAt(a + b, k) == AttemptsAt(a, k) + AttemptsAt(b, k)
  {
    if b == [] {
      assert a + b == a;
    } else {
      assert (a + b)[..|a + b| - 1] == a + b[..|b| - 1];
      CountsAdd(a, b[..|b| - 1], k);
    }
  }

  lemma {:induction false} EvidenceAdds(a: seq<Attempt>, b: seq<Attempt>, k: nat)
    ensures AttemptsAt(Ids(a + b), k) == AttemptsAt(Ids(a), k) + AttemptsAt(Ids(b), k)
  {
    assert Ids(a + b) == Ids(a) + Ids(b);
    CountsAdd(Ids(a), Ids(b), k);
  }

  lemma {:induction false} OneStep(ids: seq<AttemptId>, step: nat, k: nat)
    requires forall i :: 0 <= i < |ids| ==> ids[i].step == step
    ensures AttemptsAt(ids, k) == if k == step then |ids| else 0
  {
    if ids != [] {
      OneStep(ids[..|ids| - 1], step, k);
    }
  }

  lemma {:induction false} CallStep(faults: seq<FaultRule>, step: nat, tool: Tool, n: nat, limit: nat)
    requires n <= limit
    ensures CallAttempts(faults, step, tool, n, limit) != []
    ensures forall i :: 0 <= i < |CallAttempts(faults, step, tool, n, limit)| ==>
              CallAttempts(faults, step, tool, n, limit)[i].id.step == step
    decreases limit - n
  {
    hide FaultFor;
    if n < limit {
      CallStep(faults, step, tool, n + 1, limit);
    }
  }

  /** The attempts of a call count at its own step and nowhere else. */
  lemma {:induction false} CallCounts(before: seq<Attempt>, faults: seq<FaultRule>, step: nat, tool: Tool, limit: nat,
      k: nat)
    requires 1 <= limit
    ensures var call := CallAttempts(faults, step, tool, 1, limit);
            AttemptsAt(Ids(before + call), k) == AttemptsAt(Ids(before), k) + (if k == step then |call| else 0)
    ensures CallAttempts(faults, step, tool, 1, limit) != []
  {
    hide CallAttempts;
    var call := CallAttempts(faults, step, tool, 1, limit);
    EvidenceAdds(before, call, k);
    CallStep(faults, step, tool, 1, limit);
    OneStep(Ids(call), step, k);
  }

  // ---------------------------------------------------------------- the desktop

  lemma CallElsewhere(job: D.Job, t: Tables, action: Action, k: nat)
    requires action.CallTool? && k != t.run.step
    ensures DesktopAt(W.Call(t, action, job.faults, t.counter, job.now, job.claimSeconds).0, k) == DesktopAt(t, k)
  {
    hide W.AttemptsFrom, AttemptEvidence, CallAttempts, W.Unclaimed, W.ConsentCode, AttemptsAt;
    var limit := W.Limit(t.run.mode);
    CallCounts(AttemptEvidence(t.events), job.faults, t.run.step, action.tool, limit, k);
    if W.PreflightCode(job.faults, action).None? {
      LoopEvidence(t, action, job.faults, 1);
      if action.key.Some? {
        var request := OfRequest(action.tool, action.args);
        var claimed := ClaimTool(t, action.key.value, t.counter, request, true, job.now, job.claimSeconds).0;
        LoopEvidence(claimed, action, job.faults, 1);
      }
    }
  }

  lemma TerminateAt(t: Tables, code: Code, detail: FailureDetail, advance: bool, k: nat)
    ensures var u := D.Terminate(t, code, detail, advance);
            DesktopAt(u, k) == DesktopAt(t, k) && u.run.status.Failed?
  {
    hide AttemptEvidence, AttemptsAt, D.Save;
    SaveEvidence(t, P.Ended(t.run, code, detail, advance), Note(0, Error, RunFailed(Failure(code, detail))));
  }

  lemma PerformElsewhere(job: D.Job, t: Tables, action: Action, k: nat)
    requires action.CallTool? && t.run.status.Running? && k < t.run.step
    ensures var u := D.Perform(job, t, action); DesktopAt(u, k) == DesktopAt(t, k) && Ahead(u, k)
  {
    hide W.Call, AttemptEvidence, AttemptsAt, D.Terminate, D.Checkpoint;
    CallElsewhere(job, t, action, k);
    D.CallKeeps(t, action, job.faults, t.counter, job.now, job.claimSeconds);
    var (called, result) := W.Call(t, action, job.faults, t.counter, job.now, job.claimSeconds);
    match result
    case CallFailed(code, _, _) => TerminateAt(called, code, Bare, false, k);
    case CallOk(output, attempts, cached) => CheckpointKeeps(called, output, attempts, cached);
  }

  lemma PauseAt(t: Tables, action: Action, k: nat)
    requires action.CallTool?
    ensures var u := D.Pause(t, action); DesktopAt(u, k) == DesktopAt(t, k) && u.run.step == t.run.step
  {
    hide AttemptEvidence, AttemptsAt, D.Save;
    var run := t.run.(status := Status.WaitingApproval, pendingApproval := true, pendingAction := Some(action),
                      pendingDigest := Some(OfAction(action)));
    SaveEvidence(t, run, Note(0, Fine, WaitingFor(t.run.step, action.tool, OfAction(action))));
  }

  lemma SucceedAt(t: Tables, outcome: Code, summary: string, refs: seq<string>, k: nat)
    ensures var u := D.Succeed(t, outcome, summary, refs);
            DesktopAt(u, k) == DesktopAt(t, k) && u.run.step == t.run.step + 1
  {
    hide AttemptEvidence, AttemptsAt, D.Save;
    var result := Outcome(outcome, summary, refs);
    var run := t.run.(status := Status.Succeeded, step := t.run.step + 1, pendingAction := None,
                      pendingDigest := None, result := Some(result));
    SaveEvidence(t, run, Note(0, Fine, RunSucceeded(result)));
  }

  lemma AppendAt(t: Tables, note: Note, k: nat)
    requires !note.body.AttemptClosed?
    ensures DesktopAt(Append(t, note), k) == DesktopAt(t, k)
  {
    hide AttemptEvidence, AttemptsAt, Append;
    AppendEvidence(t, note);
    assert AttemptEvidence(t.events) + [] == AttemptEvidence(t.events);
  }

  lemma CarryCallElsewhere(job: D.Job, t: Tables, action: Action, k: nat)
    requires action.CallTool? && t.run.status.Running? && k < t.run.step
    ensures var u := D.CarryCall(job, t, action); DesktopAt(u, k) == DesktopAt(t, k) && Ahead(u, k)
  {
    hide D.Perform, D.Terminate, D.Pause, DesktopAt, W.PreflightCode;
    var failure := W.PreflightCode(job.faults, action);
    if failure.Some? {
      var note := Note(0, Error, PreflightFailed(t.run.step, action.tool, OfAction(action), failure.value));
      AppendAt(t, note, k);
      TerminateAt(Append(t, note), failure.value, Bare, false, k);
    } else {
      PauseAt(t, action, k);
      TerminateAt(t, ApprovalMismatch, Bare, false, k);
      TerminateAt(t, ApprovalDeniedCode, Bare, false, k);
      PerformElsewhere(job, t, action, k);
    }
  }

  lemma CarryElsewhere(job: D.Job, t: Tables, action: Action, k: nat)
    requires t.run.status.Running? && k < t.run.step
    ensures var u := D.Carry(job, t, action); DesktopAt(u, k) == DesktopAt(t, k) && Ahead(u, k)
  {
    hide D.CarryCall, D.Terminate, D.Succeed, DesktopAt;
    var note := Note(0, Fine, PolicyAction(t.run.step, action));
    AppendAt(t, note, k);
    var told := Append(t, note);
    match action
    case Finish(summary, refs, outcome) => SucceedAt(told, outcome, summary, refs, k);
    case Fail(code, explanation) => TerminateAt(told, code, Explained(explanation), true, k);
    case CallTool(_, _, _) => CarryCallElsewhere(job, told, W.Stabilise(t.run.step, action), k);
  }

  lemma PassElsewhere(job: D.Job, t: Tables, k: nat)
    requires t.run.status.Running? && k < t.run.step
    ensures var u := D.Pass(job, t); DesktopAt(u, k) == DesktopAt(t, k) && Ahead(u, k)
  {
    assert D.Reserve(t).events == t.events;
    SameEvents(t, D.Reserve(t), k);
    hide D.Carry, D.Terminate, DesktopAt, D.Reserve;
    if t.run.pendingAction.Some? {
      CarryElsewhere(job, t, t.run.pendingAction.value, k);
    } else if D.Used(t.run) >= job.budget {
      TerminateAt(t, ActionBudgetExhausted, Bare, false, k);
    } else if t.run.step >= |job.actions| {
      TerminateAt(D.Reserve(t), PolicyError, Explained("PolicyExhaustedError"), false, k);
    } else {
      CarryElsewhere(job, D.Reserve(t), job.actions[t.run.step], k);
    }
  }

  lemma SameEvents(t: Tables, u: Tables, k: nat)
    requires u.events == t.events
    ensures DesktopAt(u, k) == DesktopAt(t, k)
  {
  }

  lemma {:induction false} LoopElsewhere(job: D.Job, t: Tables, k: nat)
    requires Ahead(t, k)
    ensures DesktopAt(D.Loop(job, t), k) == DesktopAt(t, k) && Ahead(D.Loop(job, t), k)
    decreases if t.run.status.Running? then 1 else 0, D.Remaining(job, t.run)
  {
    hide D.Pass, DesktopAt;
    if t.run.status.Running? {
      PassElsewhere(job, t, k);
      LoopElsewhere(job, D.Pass(job, t), k);
    }
  }

  lemma EnterAt(t: Tables, k: nat)
    ensures var u := D.Enter(t); DesktopAt(u, k) == DesktopAt(t, k) && u.run.step == t.run.step
    ensures D.Enter(t).run.status.Failed? <==> t.run.status.Failed?
  {
    hide AttemptEvidence, AttemptsAt, D.Save, Append;
    var status := t.run.status;
    if status.Queued? || status.WaitingApproval? {
      SaveEvidence(t, t.run.(status := Status.Running, pendingApproval := false), Note(0, Fine, RunRunning(status)));
    } else if status.Running? {
      EnteredRow(t);
      AppendAt(t, Note(0, Fine, RunRunning(Status.Running)), k);
    }
  }

  lemma EnteredRow(t: Tables)
    ensures Append(t, Note(0, Fine, RunRunning(Status.Running))).run == t.run
  {
  }

  lemma ExecuteElsewhere(job: D.Job, t: Tables, token: Token, k: nat)
    requires Ahead(t, k)
    ensures var u := D.ExecuteOwned(job, t, token); DesktopAt(u, k) == DesktopAt(t, k) && Ahead(u, k)
  {
    hide D.Loop, D.Enter, DesktopAt;
    var leased := t.(lease := Some(Lease(token, job.now + job.leaseSeconds)));
    SameEvents(t, leased, k);
    EnterAt(leased, k);
    LoopElsewhere(job, D.Enter(leased), k);
    SameEvents(D.Loop(job, D.Enter(leased)), D.ExecuteOwned(job, t, token), k);
  }

  lemma DenyAt(t: Tables, digest: Digest, answer: D.Answer, k: nat)
    ensures DesktopAt(D.Deny(t, digest, answer), k) == DesktopAt(t, k)
  {
    var run := P.Ended(t.run, ApprovalDeniedCode, Reasoned(answer.reason), false);
    var denied := Note(0, Error, ApprovalDenied(t.run.step, digest, answer.actor, answer.reason));
    var failed := Note(0, Error, RunFailed(Failure(ApprovalDeniedCode, Reasoned(answer.reason))));
    var start := t.(run := run.(version := t.run.version + 1));
    AppendTwo(start, denied, failed);
    hide AttemptEvidence, AttemptsAt, Append;
    AppendAt(start, denied, k);
    AppendAt(Append(start, denied), failed, k);
  }

  /** No answer brings the desktop back to a step it has left. */
  lemma ApproveElsewhere(job: D.Job, t: Tables, answer: D.Answer, token: Token, k: nat)
    requires Ahead(t, k)
    ensures var u := D.Approve(job, t, answer, token); DesktopAt(u, k) == DesktopAt(t, k) && Ahead(u, k)
  {
    hide D.ExecuteOwned, D.Deny, DesktopAt, Append;
    if t.run.status.WaitingApproval? && t.run.pendingDigest.Some? {
      var digest := t.run.pendingDigest.value;
      var row := ApprovalRow(digest, answer.actor, answer.allow, answer.reason);
      var recorded := Rows.Record(t, t.run.step, row, true);
      if recorded.Ok? {
        RecordAt(t, row, recorded.value, k);
        ExecuteElsewhere(job, recorded.value, token, k);
        DenyAt(recorded.value, digest, answer, k);
      }
    }
  }

  lemma RecordAt(t: Tables, row: ApprovalRow, u: Tables, k: nat)
    requires Rows.Record(t, t.run.step, row, true) == Ok(u)
    ensures DesktopAt(u, k) == DesktopAt(t, k) && u.run == t.run
  {
    hide DesktopAt;
    if u != t {
      var decided := t.(approvals := t.approvals[t.run.step := row]);
      SameEvents(t, decided, k);
      AppendAt(decided, Note(t.counter + 1, Fine, ApprovalRecorded(t.run.step, row.digest, row.actor, row.allow)), k);
    }
  }

  /** A call under a key that was used before makes no attempt, and leaves its step behind. */
  lemma UsedKeyPerforms(job: D.Job, t: Tables, action: Action)
    requires Ready(job, t, action) && !AC.Unused(t, action)
    ensures var u := D.Perform(job, t, action);
            AttemptEvidence(u.events) == AttemptEvidence(t.events) && Ahead(u, t.run.step)
  {
    AC.UsedCall(t, action, job.faults, t.counter, job.now, job.claimSeconds);
    var (called, result) := W.Call(t, action, job.faults, t.counter, job.now, job.claimSeconds);
    hide W.Call, AttemptEvidence, AC.AllCompleted, W.ConsentCode, W.PreflightCode, D.Save;
    match result
    case CallFailed(code, _, _) =>
      SaveEvidence(called, P.Ended(called.run, code, Bare, false), Note(0, Error, RunFailed(Failure(code, Bare))));
    case CallOk(output, attempts, cached) => CheckpointKeeps(called, output, attempts, cached);
  }

  // ---------------------------------------------------------------- the mobile engine

  lemma {:induction false} ClosingsAre(trace: seq<M.Entry>)
    ensures Ids(MobileAttempts(trace)) == MS.ClosedIds(trace)
  {
    if trace != [] {
      ClosingsAre(trace[..|trace| - 1]);
    }
  }

  lemma ClosingsGrow(m: M.Record, m': M.Record, ids: seq<AttemptId>, k: nat)
    requires MS.ClosedIds(m'.trace) == MS.ClosedIds(m.trace) + ids
    ensures MobileAt(m, k) <= MobileAt(m', k)
  {
    hide MobileAttempts, MS.ClosedIds;
    ClosingsAre(m.trace);
    ClosingsAre(m'.trace);
    CountsAdd(MS.ClosedIds(m.trace), ids, k);
  }

  lemma TransactionAttempts(s: Scenario, m: M.Record, k: nat)
    requires MS.Safe(s, m) && !M.Stopped(m.run)
    ensures M.Transaction(s, m).Some?
    ensures var m' := M.Transaction(s, m).value; MobileAt(m, k) <= MobileAt(m', k) && m'.run.mode == m.run.mode
  {
    assert m.run.step !in m.effects by { hide MS.Numbered, MS.AttemptsSafe, MS.DecisionsSafe, MS.RunSafe; }
    hide M.Transaction, MS.Safe, MobileAt, MS.ClosedIds, MS.OpenedIds;
    var o, attempted := MS.TransactionDid(s, m);
    var ids := if attempted then [AttemptId(m.run.step, s.actions[m.run.step].tool, m.run.nextAttempt)] else [];
    ClosingsGrow(m, M.Transaction(s, m).value, ids, k);
  }

  lemma {:induction false} SettleAttempts(s: Scenario, m: M.Record, k: nat)
    requires MS.Safe(s, m)
    ensures MobileAt(m, k) <= MobileAt(Settle(s, m), k) && Settle(s, m).run.mode == m.run.mode
    decreases MS.Measure(s, m)
  {
    hide MS.Safe, M.Transaction, MS.Measure, MobileAt;
    if !M.Stopped(m.run) {
      MS.TransactionSafe(s, m);
      TransactionAttempts(s, m, k);
      SettleAttempts(s, M.Transaction(s, m).value, k);
    }
  }

  lemma DecideAttempts(m: M.Record, d: M.Decision, m': M.Record, k: nat)
    requires M.Decide(m, d) == Ok(m')
    ensures MobileAt(m, k) <= MobileAt(m', k) && m'.run.mode == m.run.mode
  {
    hide M.Decide, MobileAt, MS.ClosedIds, MS.OpenedIds, MS.Numbered;
    if m' != m {
      MS.DecideView(m, d, m');
      ClosingsGrow(m, m', [], k);
    }
  }
}
