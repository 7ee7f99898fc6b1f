/** One tool call in the desktop and in the mobile engine, and exactly when the two make the
    same attempts of it. */
module EngineCalls {
  import opened Domain
  import opened Evidence
  import opened Rows
  import W = Gateway
  import P = Protocol
  import D = Desktop
  import AC = AgreementCalls
  import M = Mobile
  import MS = MobileSafety

  // ---------------------------------------------------------------- what a call leaves behind

  /** The closing of an attempt under an injected fault or none. */
  function Tried(id: AttemptId, fault: Option<FaultKind>): Attempt {
    match fault
    case None => Attempt(id, ClosedOk, None, None)
    case Some(kind) => Attempt(id, ClosedError, Some(FaultCode(kind)), Some(Transient(kind)))
  }

  /** The attempts of a call from the `n`-th on, in an engine that makes at most `limit`. */
  function CallAttempts(faults: seq<FaultRule>, step: nat, tool: Tool, n: nat, limit: nat): seq<Attempt>
    requires n <= limit
    decreases limit - n
  {
    var fault := FaultFor(faults, tool, n);
    [Tried(AttemptId(step, tool, n), fault)]
    + (if fault.Some? && Transient(fault.value) && n < limit then CallAttempts(faults, step, tool, n + 1, limit)
        else [])
  }

  /** The fault that fails the call, unless it works. */
  function LastFault(faults: seq<FaultRule>, tool: Tool, n: nat, limit: nat): Option<FaultKind>
    requires n <= limit
    decreases limit - n
  {
    var fault := FaultFor(faults, tool, n);
    if fault.Some? && Transient(fault.value) && n < limit then LastFault(faults, tool, n + 1, limit) else fault
  }

  /** The fault that fails the desktop's call, unless it works. */
  function DesktopFault(faults: seq<FaultRule>, mode: Mode, tool: Tool): Option<FaultKind> {
    LastFault(faults, tool, 1, W.Limit(mode))
  }

  function MobileLimit(mode: Mode): (limit: nat)
    ensures 1 <= limit
  {
    if mode.Fragile? then 1 else M.ATTEMPT_LIMIT
  }

  predicate TransientAt(faults: seq<FaultRule>, tool: Tool, n: nat) {
    var fault := FaultFor(faults, tool, n);
    fault.Some? && Transient(fault.value)
  }

  /** The desktop gives up on the tool where the mobile engine tries once more. */
  predicate GivesUp(faults: seq<FaultRule>, mode: Mode, tool: Tool) {
    mode.Resilient? && TransientAt(faults, tool, 1) && TransientAt(faults, tool, 2)
  }

  /** Both engines make the same attempts of a call with the same verdict exactly unless its
      tool has transient faults planned at both of the attempts that the desktop allows. */
  lemma {:induction false} CallsAgreeUnlessGivenUp(faults: seq<FaultRule>, mode: Mode, step: nat, tool: Tool)
    ensures !GivesUp(faults, mode, tool)
            <==>
              && CallAttempts(faults, step, tool, 1, W.Limit(mode))
                 == CallAttempts(faults, step, tool, 1, MobileLimit(mode))
              && DesktopFault(faults, mode, tool) == LastFault(faults, tool, 1, MobileLimit(mode))
    ensures GivesUp(faults, mode, tool) ==>
              && |CallAttempts(faults, step, tool, 1, W.Limit(mode))| == 2
              && |CallAttempts(faults, step, tool, 1, MobileLimit(mode))| == 3
              && DesktopFault(faults, mode, tool).Some?
  {
    hide FaultFor;
    if mode.Resilient? {
      TwoOrThree(faults, step, tool);
    }
  }

  lemma {:induction false} TwoOrThree(faults: seq<FaultRule>, step: nat, tool: Tool)
    ensures if TransientAt(faults, tool, 1) && TransientAt(faults, tool, 2)
            then |CallAttempts(faults, step, tool, 1, 2)| == 2 && |CallAttempts(faults, step, tool, 1, 3)| == 3
                 && LastFault(faults, tool, 1, 2).Some?
            else CallAttempts(faults, step, tool, 1, 2) == CallAttempts(faults, step, tool, 1, 3)
                 && LastFault(faults, tool, 1, 2) == LastFault(faults, tool, 1, 3)
  {
    hide FaultFor;
    assert |CallAttempts(faults, step, tool, 3, 3)| == 1 && |CallAttempts(faults, step, tool, 2, 2)| == 1;
    if TransientAt(faults, tool, 2) {
      assert CallAttempts(faults, step, tool, 2, 3)
          == [Tried(AttemptId(step, tool, 2), FaultFor(faults, tool, 2))] + CallAttempts(faults, step, tool, 3, 3);
    } else {
      assert CallAttempts(faults, step, tool, 2, 2) == CallAttempts(faults, step, tool, 2, 3);
    }
  }

  // ---------------------------------------------------------------- the desktop

  lemma SaveEvidence(t: Tables, run: Run, note: Note)
    requires !note.body.AttemptClosed?
    ensures AttemptEvidence(D.Save(t, run, [note]).events) == AttemptEvidence(t.events)
  {
    AppendOne(t.(run := run.(version := t.run.version + 1)), note);
    AppendEvidence(t.(run := run.(version := t.run.version + 1)), note);
  }

  lemma {:induction false} OneAttemptEvidence(t: Tables, action: Action, faults: seq<FaultRule>, n: nat)
    requires action.CallTool?
    ensures AttemptEvidence(W.OneAttempt(t, action, faults, n).events)
            == AttemptEvidence(t.events)
                + [Tried(AttemptId(t.run.step, action.tool, n), FaultFor(faults, action.tool, n))]
  {
    W.OneAttemptByEvents(t, action, faults, n);
    hide AttemptEvidence, Append, BackendOutput;
    var id, span, fault := AttemptId(t.run.step, action.tool, n), t.counter + 1, FaultFor(faults, action.tool, n);
    var t1 := Append(t, Started(id, span));
    AppendEvidence(t, Started(id, span));
    match fault {
      case None => AppendEvidence(t1, SucceededNote(id, span, BackendOutput(action.tool, action.args)));
      case Some(kind) =>
        var t2 := Append(t1, Note(span, Error, FaultInjected(id, kind)));
        AppendEvidence(t1, Note(span, Error, FaultInjected(id, kind)));
        AppendEvidence(t2, FailedNote(id, span, FaultCode(kind), true));
        AppendEvidence(t2, Note(span, Error, OutputRejected(id)));
        AppendEvidence(Append(t2, Note(span, Error, OutputRejected(id))), FailedNote(id, span, InvalidOutput, false));
    }
  }

  lemma {:induction false} LoopEvidence(t: Tables, action: Action, faults: seq<FaultRule>, n: nat)
    requires action.CallTool? && Registered(action.tool) && 1 <= n <= W.Limit(t.run.mode)
    ensures var (t', result) := W.AttemptsFrom(t, action, faults, n);
            var limit := W.Limit(t.run.mode);
            var last := LastFault(faults, action.tool, n, limit);
            && AttemptEvidence(t'.events)
                == AttemptEvidence(t.events) + CallAttempts(faults, t.run.step, action.tool, n, limit)
            && result.CallOk? == last.None?
            && (result.CallFailed? ==> result.code == FaultCode(last.value))
    decreases W.Limit(t.run.mode) - n
  {
    OneAttemptEvidence(t, action, faults, n);
    W.OneAttemptKeepsRun(t, action, faults, n);
    hide W.OneAttempt, AttemptEvidence, BackendOutput, FaultFor, Tried;
    if TransientAt(faults, action.tool, n) && n < W.Limit(t.run.mode) {
      var t1 := W.OneAttempt(t, action, faults, n);
      LoopEvidence(t1, action, faults, n + 1);
      var first := [Tried(AttemptId(t.run.step, action.tool, n), FaultFor(faults, action.tool, n))];
      var more := CallAttempts(faults, t.run.step, action.tool, n + 1, W.Limit(t.run.mode));
      assert (AttemptEvidence(t.events) + first) + more == AttemptEvidence(t.events) + (first + more);
    }
  }

  /** The tables may perform the stable action. */
  predicate Ready(job: D.Job, t: Tables, action: Action) {
    && action.CallTool? && t.run.status.Running? && AC.AllCompleted(t.claims)
    && W.PreflightCode(job.faults, action).None? && W.ConsentCode(t.approvals, t.run.step, action).None?
  }

  lemma DesktopPerforms(job: D.Job, t: Tables, action: Action)
    requires Ready(job, t, action) && AC.Unused(t, action)
    ensures var u, fault := D.Perform(job, t, action), DesktopFault(job.faults, t.run.mode, action.tool);
            && AttemptEvidence(u.events)
                == AttemptEvidence(t.events) + CallAttempts(job.faults, t.run.step, action.tool, 1, W.Limit(t.run.mode))
            && u.run.mode == t.run.mode && u.approvals == t.approvals
            && (if fault.None?
                then
                  && u.run.status.Running? && u.run.step == t.run.step + 1 && u.run.pendingAction.None?
                  && u.run.policyCalls == t.run.policyCalls && AC.AllCompleted(u.claims)
                  && u.claims.Keys == t.claims.Keys + (if action.key.Some? then {action.key.value} else {})
                else u.run.status.Failed? && u.run.result == Some(Failure(FaultCode(fault.value), Bare)))
  {
    var t0 := AC.NewCall(t, action, job.faults, t.counter, job.now, job.claimSeconds);
    LoopEvidence(t0, action, job.faults, 1);
    D.CallKeeps(t, action, job.faults, t.counter, job.now, job.claimSeconds);
    var (called, result) := W.Call(t, action, job.faults, t.counter, job.now, job.claimSeconds);
    hide W.Call, W.AttemptsFrom, AttemptEvidence, LastFault, CallAttempts, AC.AllCompleted, W.ConsentCode,
        W.PreflightCode;
    match result
    case CallFailed(code, _, _) =>
      SaveEvidence(called, P.Ended(called.run, code, Bare, false), Note(0, Error, RunFailed(Failure(code, Bare))));
    case CallOk(output, attempts, cached) =>
      CheckpointKeeps(called, output, attempts, cached);
  }

  lemma CheckpointKeeps(t: Tables, output: Output, attempts: nat, cached: bool)
    ensures var u := D.Checkpoint(t, output, attempts, cached);
            && AttemptEvidence(u.events) == AttemptEvidence(t.events) && u.claims == t.claims
            && u.run == P.CheckpointRun(t.run, output).(version := t.run.version + 1)
  {
    var run := P.CheckpointRun(t.run, output);
    var note := Note(0, Fine,
        Checkpointed(t.run.step, attempts, run.step, cached, OfOutput(output), OfContext(run.context)));
    SaveEvidence(t, run, note);
    AppendOne(t.(run := run.(version := t.run.version + 1)), note);
  }

  // ---------------------------------------------------------------- the mobile engine

  /** The closings of the mobile trace, as attempt evidence. */
  function MobileAttempts(trace: seq<M.Entry>): seq<Attempt> {
    if trace == [] then []
    else
      var rest, fact := MobileAttempts(trace[..|trace| - 1]), trace[|trace| - 1].fact;
      match fact
      case Erred(id, code, transient) => rest + [Attempt(id, ClosedError, Some(code), Some(transient))]
      case Delivered(id, _) => rest + [Attempt(id, ClosedOk, None, None)]
      case _ => rest
  }

  lemma TellAttempts(m: M.Record, fact: M.Fact)
    ensures M.Tell(m, fact) == m.(trace := M.Tell(m, fact).trace)
    ensures MobileAttempts(M.Tell(m, fact).trace) == MobileAttempts(m.trace) + (
              match fact
              case Erred(id, code, transient) => [Attempt(id, ClosedError, Some(code), Some(transient))]
              case Delivered(id, _) => [Attempt(id, ClosedOk, None, None)]
              case _ => [])
  {
    assert M.Tell(m, fact).trace[..|m.trace|] == m.trace;
  }

  /** The rows of `_advance` when it stops, however many calls that takes. */
  ghost function Settle(s: Scenario, m: M.Record): M.Record
    requires MS.Safe(s, m)
    decreases MS.Measure(s, m)
  {
    if M.Stopped(m.run) then m
    else
      MS.TransactionSafe(s, m);
      Settle(s, M.Transaction(s, m).value)
  }

  /** A call of `_advance` that returns has settled the run. */
  lemma {:induction false} AdvanceSettles(s: Scenario, m: M.Record, passes: nat)
    requires MS.Safe(s, m)
    ensures var (m', outcome) := M.Advance(s, m, passes);
            MS.Safe(s, m') && (outcome.Ok? ==> m' == Settle(s, m))
    decreases passes
  {
    hide M.Transaction, MS.Safe, MS.Measure;
    if passes > 0 && !M.Stopped(m.run) {
      MS.TransactionSafe(s, m);
      AdvanceSettles(s, M.Transaction(s, m).value, passes - 1);
    }
  }

  /** The next transaction of the record tries its call. */
  predicate Trying(s: Scenario, m: M.Record, action: Action, n: nat) {
    && !M.Stopped(m.run) && m.run.nextAttempt == n && m.run.step < |s.actions| && s.actions[m.run.step] == action
    && action.CallTool? && ValidInput(action.tool, action.args)
    && (RequiresApproval(action.tool) ==>
      m.run.step in m.decisions && m.decisions[m.run.step].allow && m.decisions[m.run.step].digest == OfAction(action))
  }

  lemma PrologueAttempts(s: Scenario, m: M.Record)
    requires !M.Stopped(m.run) && m.run.step < |s.actions|
    ensures var announced := M.Announce(M.Begin(m), s.actions[m.run.step]);
            && MobileAttempts(announced.trace) == MobileAttempts(m.trace)
            && announced == m.(run := m.run.(status := Status.Running, announced := m.run.step),
                trace := announced.trace)
  {
    hide M.Tell, MobileAttempts;
    TellAttempts(m.(run := m.run.(status := Status.Running)), M.Begun);
    var begun := M.Begin(m);
    TellAttempts(begun.(run := begun.run.(announced := m.run.step)), M.Announced(m.run.step, s.actions[m.run.step]));
  }

  lemma FaultAttempts(m: M.Record, id: AttemptId, kind: FaultKind)
    ensures var m' := M.Fault(m, id, kind);
            && m' == m.(run := MS.AfterFault(m.run, id, kind), trace := m'.trace)
            && MobileAttempts(m'.trace) == MobileAttempts(m.trace) + [Tried(id, Some(kind))]
  {
    hide M.Tell, MobileAttempts;
    var m1 := M.Tell(m, M.Injected(id, kind));
    TellAttempts(m, M.Injected(id, kind));
    var m2 := if Transient(kind) then m1 else M.Tell(m1, M.Invalid(id));
    TellAttempts(m1, M.Invalid(id));
    var m3 := M.Tell(m2, M.Erred(id, FaultCode(kind), Transient(kind)));
    TellAttempts(m2, M.Erred(id, FaultCode(kind), Transient(kind)));
    BreakAttempts(m3, FaultCode(kind), None);
  }

  lemma BreakAttempts(m: M.Record, code: Code, reason: Option<string>)
    ensures var m' := M.Break(m, code, reason);
            && MobileAttempts(m'.trace) == MobileAttempts(m.trace)
            && m' == m.(run := m.run.(status := Status.Failed, pending := None, result := Some(M.Lost(code, reason))),
                trace := m'.trace)
  {
    TellAttempts(m.(run := m.run.(status := Status.Failed, pending := None, result := Some(M.Lost(code, reason)))),
        M.Closed(M.Lost(code, reason)));
  }

  lemma DeliverAttempts(m: M.Record, action: Action, id: AttemptId, output: Output)
    requires action.CallTool? && M.Deliver(m, action, id, output).Some?
    ensures var m' := M.Deliver(m, action, id, output).value;
            && m'.run == m.run.(step := id.step + 1, nextAttempt := 1, pending := None) && m'.decisions == m.decisions
            && MobileAttempts(m'.trace) == MobileAttempts(m.trace) + [Tried(id, None)]
  {
    hide M.Tell, MobileAttempts;
    var raw := if IsWrite(action.tool) && id.step in m.effects then m.effects[id.step].output else output;
    var m1 := m.(effects := if IsWrite(action.tool) && id.step !in m.effects
                            then m.effects[id.step := M.Effect(OfAction(action), output)] else m.effects);
    TellAttempts(m1, M.Delivered(id, raw));
    var m2 := M.Tell(m1, M.Delivered(id, raw));
    TellAttempts(m2.(run := m2.run.(step := id.step + 1, nextAttempt := 1, pending := None)), M.Saved(id.step + 1));
  }

  /** One transaction that tries a call. */
  lemma {:induction false} TransactionTries(s: Scenario, m: M.Record, action: Action, n: nat)
    requires MS.Safe(s, m) && Trying(s, m, action, n)
    ensures M.Transaction(s, m).Some?
    ensures var id, fault, m' := AttemptId(m.run.step, action.tool, n), FaultFor(s.faults, action.tool, n),
            M.Transaction(s, m).value;
            && MobileAttempts(m'.trace) == MobileAttempts(m.trace) + [Tried(id, fault)]
            && m'.decisions == m.decisions
            && m'.run == (
              var run := m.run.(status := Status.Running, announced := m.run.step);
              match fault
              case None => run.(step := m.run.step + 1, nextAttempt := 1, pending := None)
              case Some(kind) => MS.AfterFault(run, id, kind))
  {
    MS.TransactionSafe(s, m);
    PrologueAttempts(s, m);
    hide M.Tell, M.Fault, M.Deliver, M.Begin, M.Announce, MobileAttempts, MS.Safe, BackendOutput, Tried, MS.AfterFault;
    var id, fault := AttemptId(m.run.step, action.tool, n), FaultFor(s.faults, action.tool, n);
    var announced := M.Announce(M.Begin(m), action);
    TellAttempts(announced, M.Opened(id));
    var started := M.Tell(announced, M.Opened(id));
    match fault
    case Some(kind) => FaultAttempts(started, id, kind);
    case None => DeliverAttempts(started, action, id, BackendOutput(action.tool, action.args));
  }

  /** A call of the mobile engine from its `n`-th attempt on. */
  lemma {:induction false} MobilePerforms(s: Scenario, m: M.Record, action: Action, n: nat) returns (m': M.Record)
    requires MS.Safe(s, m) && Trying(s, m, action, n) && 1 <= n <= MobileLimit(m.run.mode)
    ensures MS.Safe(s, m') && Settle(s, m) == Settle(s, m')
    ensures MobileAttempts(m'.trace)
            == MobileAttempts(m.trace) + CallAttempts(s.faults, m.run.step, action.tool, n, MobileLimit(m.run.mode))
    ensures m'.decisions == m.decisions && m'.run.mode == m.run.mode
    ensures var fault := LastFault(s.faults, action.tool, n, MobileLimit(m.run.mode));
            if fault.None? then m'.run.status.Running? && m'.run.step == m.run.step + 1 && m'.run.nextAttempt == 1
            else m'.run.status.Failed? && m'.run.result == Some(M.Lost(FaultCode(fault.value), None))
    decreases MobileLimit(m.run.mode) - n
  {
    hide M.Transaction, MS.Safe, MobileAttempts, FaultFor, MS.Measure, Tried;
    MS.TransactionSafe(s, m);
    TransactionTries(s, m, action, n);
    m' := M.Transaction(s, m).value;
    assert Settle(s, m) == Settle(s, m');
    hide Settle;
    if TransientAt(s.faults, action.tool, n) && n < MobileLimit(m.run.mode) {
      var first := [Tried(AttemptId(m.run.step, action.tool, n), FaultFor(s.faults, action.tool, n))];
      var more := CallAttempts(s.faults, m.run.step, action.tool, n + 1, MobileLimit(m.run.mode));
      assert (MobileAttempts(m.trace) + first) + more == MobileAttempts(m.trace) + (first + more);
      m' := MobilePerforms(s, m', action, n + 1);
    }
  }
}
