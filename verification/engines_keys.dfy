/** Why the engines part over a key used twice: the desktop answers the second read from its claim,
    or refuses it when the request differs; the mobile engine keeps no keys of reads and tries again. */
module EngineKeys {
  import opened Domain
  import opened Evidence
  import opened Rows
  import opened EngineCalls
  import opened EnginesApart
  import opened Engines
  import opened AgreementCached
  import W = Gateway
  import D = Desktop
  import M = Mobile
  import MS = MobileSafety

  /** Two reads under one key, then an end, without faults. */
  predicate TwoReads(s: Scenario, first: Action, second: Action, finish: Action) {
    && KeyedRead(first) && KeyedRead(second) && first.key == second.key && finish.Finish?
    && s.actions == [first, second, finish] && s.faults == []
  }

  /** The walk says so before the run. */
  lemma {:induction false} SecondReadSplits(s: Scenario, first: Action, second: Action, finish: Action, mode: Mode)
    requires TwoReads(s, first, second, finish)
    ensures StopAfter(s, mode, []) == Splits(1) && Comparable(s, 3)
    ensures forall k :: 0 <= k < 3 && s.actions[k].CallTool? ==> !GivesUp(s.faults, mode, s.actions[k].tool)
  {
    assert KeyAt(s, 0) == first.key == KeyAt(s, 1);
    assert Older(s, first.key.value, 1) && Reused(s, 1) && !Reused(s, 0);
    assert DesktopFault(s.faults, mode, first.tool).None? && !GivesUp(s.faults, mode, first.tool);
    ReadsAreUngated(first);
    ReadsAreUngated(second);
    hide KeyAt, Older, Reused, DesktopFault, ValidInput, GivesUp;
    assert Walk(s, mode, 0) == AfterCall(s, mode, 0) == Walk(s, mode, 1) == AfterCall(s, mode, 1) == Splits(1);
    assert StopAfter(s, mode, []) == Walk(s, mode, 0);
  }

  lemma ReadsAreUngated(read: Action)
    requires KeyedRead(read)
    ensures read.CallTool? && ValidInput(read.tool, read.args) && !RequiresApproval(read.tool) && Registered(read.tool)
  {
  }

  function Answered(step: nat, read: Action): Attempt
    requires read.CallTool?
  {
    Attempt(AttemptId(step, read.tool, 1), ClosedOk, None, None)
  }

  lemma ReadTried(s: Scenario, m: M.Record, read: Action) returns (m': M.Record)
    requires MS.Safe(s, m) && s.faults == [] && KeyedRead(read) && !M.Stopped(m.run) && m.run.nextAttempt == 1
    requires m.run.step < |s.actions| && s.actions[m.run.step] == read
    ensures MS.Safe(s, m') && Settle(s, m) == Settle(s, m')
    ensures MobileAttempts(m'.trace) == MobileAttempts(m.trace) + [Answered(m.run.step, read)]
    ensures m'.run.status.Running? && m'.run.step == m.run.step + 1 && m'.run.nextAttempt == 1
  {
    hide MS.Safe, Settle, MobileAttempts;
    m' := MobilePerforms(s, m, read, 1);
    assert FaultFor(s.faults, read.tool, 1).None?;
  }

  /** The mobile engine makes both reads and succeeds. */
  lemma {:induction false} MobileReadsTwice(s: Scenario, first: Action, second: Action, finish: Action, mode: Mode)
    requires TwoReads(s, first, second, finish)
    ensures MobileRun(s, mode, []).run.status.Succeeded? && MobileAt(MobileRun(s, mode, []), 1) >= 1
  {
    hide *;
    var m0 := M.NewRecord(mode);
    TwoReadsView(s, first, second, finish);
    NewIsHead(mode);
    FirstMobileStop(s, mode);
    var m1 := ReadTried(s, m0, first);
    RunningGoesOn(m1);
    var m2 := ReadTried(s, m1, second);
    RunningGoesOn(m2);
    LastCounts(m2, MobileAttempts(m1.trace), Answered(1, second));
    AnsweredStep(1, second);
    SettleAttempts(s, m2, 1);
    MobileFinishes(s, m2);
    SettlesOnce(s, m2);
  }

  lemma TwoReadsView(s: Scenario, first: Action, second: Action, finish: Action)
    requires TwoReads(s, first, second, finish)
    ensures KeyedRead(first) && KeyedRead(second) && first.CallTool? && second.CallTool? && finish.Finish?
    ensures s.actions == [first, second, finish] && s.faults == []
  {
  }

  lemma NewIsHead(mode: Mode)
    ensures var m := M.NewRecord(mode); m.run.step == 0 && m.run.nextAttempt == 1 && !M.Stopped(m.run)
  {
  }

  lemma RunningGoesOn(m: M.Record)
    requires m.run.status.Running?
    ensures !M.Stopped(m.run)
  {
  }

  lemma AnsweredStep(step: nat, read: Action)
    requires read.CallTool?
    ensures Answered(step, read).id.step == step
  {
  }

  lemma LastCounts(m: M.Record, before: seq<Attempt>, last: Attempt)
    requires MobileAttempts(m.trace) == before + [last]
    ensures MobileAt(m, last.id.step) >= 1
  {
    hide MobileAttempts;
    assert (before + [last])[..|before|] == before;
  }

  lemma {:induction false} SettlesOnce(s: Scenario, m: M.Record)
    requires MS.Safe(s, m) && !M.Stopped(m.run) && M.Transaction(s, m).Some?
    requires M.Transaction(s, m).value.run.status.Succeeded?
    ensures Settle(s, m) == M.Transaction(s, m).value
  {
    hide MS.Safe, M.Transaction, MS.Measure;
    MS.TransactionSafe(s, m);
    StoppedRecord(s, M.Transaction(s, m).value);
  }

  /** The same read twice, with no fault: both engines succeed, and yet the desktop never tried the
      second read, in both modes. */
  lemma {:induction false} RepeatedReadSeparates(read: Action, finish: Action, mode: Mode, job: D.Job, context: Context)
    requires RepeatsRead(job, read, finish)
    ensures var s := Scenario(job.actions, job.faults, context, false);
            var t, m := DesktopRun(s, mode, job, []), MobileRun(s, mode, []);
            && Comparable(s, job.budget) && t.run.status.Succeeded? && m.run.status.Succeeded?
            && DesktopAt(t, 1) < MobileAt(m, 1) && !Alike(t, m)
  {
    var s := Scenario(job.actions, job.faults, context, false);
    SecondReadSplits(s, read, read, finish, mode);
    MobileReadsTwice(s, read, read, finish, mode);
    RunSucceeds(read, finish, mode, job, context);
    CaseIsFirstStop(s, mode, job);
    hide DesktopRun, MobileRun, StopAfter, Alike, D.RunCase, OutputOf, OnlyFirstAttempts, DesktopAt, MobileAt;
    EnginesAgreeExactly(s, mode, job, []);
  }

  lemma {:induction false} CaseIsFirstStop(s: Scenario, mode: Mode, job: D.Job)
    requires !s.approvalSupplied
    ensures D.RunCase(s, mode, job) == DesktopRun(s, mode, job, [])
  {
    hide D.FirstStop;
  }

  lemma ConflictCall(job: D.Job, t: Tables, first: Action, second: Action)
    requires KeyedRead(first) && KeyedRead(second) && first.key == second.key && job.faults == [] && Answers(t, first)
    requires OfRequest(first.tool, first.args) != OfRequest(second.tool, second.args)
    ensures W.Call(t, second, job.faults, t.counter, job.now, job.claimSeconds)
            == (t, W.CallFailed(IdempotencyConflict, 0, false))
  {
    assert W.PreflightCode(job.faults, second).None? && W.ConsentCode(t.approvals, t.run.step, second).None?;
    hide W.PreflightCode, W.ConsentCode, BackendOutput, W.AttemptsFrom;
  }

  /** The second pass of the desktop refuses the other request. */
  lemma ConflictPasses(job: D.Job, t: Tables, first: Action, second: Action)
    requires KeyedRead(first) && KeyedRead(second) && first.key == second.key && job.faults == [] && Answers(t, first)
    requires OfRequest(first.tool, first.args) != OfRequest(second.tool, second.args)
    requires 1 < |job.actions| && job.actions[1] == second && 1 < job.budget && AtHead(t, 1)
    ensures var u := D.Pass(job, t); u.run.status.Failed? && u.run.result == Some(Failure(IdempotencyConflict, Bare))
  {
    hide W.Call, OnlyFirstAttempts, D.Pass, D.Reserve, BackendOutput;
    PassCalls(job, second, t, 1);
    ToldView(t, second, 1);
    assert Answers(Told(t, second), first);
    ConflictCall(job, Told(t, second), first, second);
  }

  lemma {:induction false} DesktopRefuses(s: Scenario, first: Action, second: Action, finish: Action, mode: Mode,
      job: D.Job)
    requires TwoReads(s, first, second, finish)
    requires OfRequest(first.tool, first.args) != OfRequest(second.tool, second.args)
    requires job.actions == s.actions && job.faults == s.faults && 3 <= job.budget
    ensures var t := DesktopRun(s, mode, job, []);
            t.run.status.Failed? && t.run.result == Some(Failure(IdempotencyConflict, Bare))
  {
    hide FirstEntry, D.Pass, D.Loop, Answers, KeyedRead, OutputOf, AtHead, DesktopRun, StopAfter;
    var t0 := FirstEntry(s, mode, job);
    EntryHead(s, mode, job);
    HeadRuns(t0, 0);
    ReadPasses(job, first, t0, 0);
    var t1 := D.Pass(job, t0);
    HeadRuns(t1, 1);
    ConflictPasses(job, t1, first, second);
    StoppedTables(job, t1);
    LoopPasses(job, t0);
    FirstStops(s, mode, job);
  }

  /** The same key with another request: the desktop fails, and the mobile engine succeeds. */
  lemma {:induction false} ConflictingReadSeparates(s: Scenario, first: Action, second: Action, finish: Action,
      mode: Mode, job: D.Job)
    requires TwoReads(s, first, second, finish)
    requires OfRequest(first.tool, first.args) != OfRequest(second.tool, second.args)
    requires job.actions == s.actions && job.faults == s.faults && 3 <= job.budget
    ensures var t, m := DesktopRun(s, mode, job, []), MobileRun(s, mode, []);
            && Comparable(s, job.budget) && !Alike(t, m) && m.run.status.Succeeded?
            && t.run.status.Failed? && t.run.result == Some(Failure(IdempotencyConflict, Bare))
  {
    SecondReadSplits(s, first, second, finish, mode);
    MobileReadsTwice(s, first, second, finish, mode);
    hide TwoReads, MobileRun, StopAfter, DesktopRun, AttemptEvidence, MobileAttempts;
    DesktopRefuses(s, first, second, finish, mode, job);
  }

  lemma EntryHead(s: Scenario, mode: Mode, job: D.Job)
    ensures AtHead(FirstEntry(s, mode, job), 0) && FirstEntry(s, mode, job).claims == map[]
  {
    hide FirstEntry, AtHead;
    EntryIsHead(s, mode, job);
  }

  lemma HeadRuns(t: Tables, step: nat)
    requires AtHead(t, step)
    ensures t.run.status.Running?
  {
  }
}
