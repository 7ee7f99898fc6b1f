/** The mobile engine: one transaction per attempt, a crash is a rollback
    (distribution/mobile_app.py).

    A record holds the rows of one run in the four tables keyed by it. */
module Mobile {
  import opened Domain

  datatype Pending = Pending(step: nat, digest: Digest, tool: Tool, args: Arguments)

  datatype Decision = Decision(actor: string, allow: bool, step: nat, digest: Digest, reason: Option<string>)

  datatype Verdict = Won(outcome: Code, summary: string, refs: seq<string>) | Lost(code: Code, reason: Option<string>)

  /** The run dictionary, without its identity and times. */
  datatype Progress = Progress(
    mode: Mode, status: Status, step: nat, nextAttempt: nat, announced: int, pending: Option<Pending>,
        result: Option<Verdict>)

  datatype Fact =
    | Created(mode: Mode)
    | Begun
    | Announced(step: nat, action: Action)
    | PreflightRejected(step: nat, tool: Tool)
    | Awaiting(step: nat, tool: Tool)
    | Recorded(decision: Decision)
    | Denied(decision: Decision)
    | Opened(id: AttemptId)
    | Injected(id: AttemptId, kind: FaultKind)
    | Invalid(id: AttemptId)
    | Erred(id: AttemptId, code: Code, transient: bool)
    | Delivered(id: AttemptId, output: Output)
    | Saved(step: nat)
    | Closed(verdict: Verdict)

  datatype Entry = Entry(sequence: nat, fact: Fact)

  datatype Effect = Effect(digest: Digest, output: Output)

  datatype Record = Record(run: Progress, trace: seq<Entry>, decisions: map<nat, Decision>, effects: map<nat, Effect>)

  const ATTEMPT_LIMIT := 3
  const PASS_LIMIT := 64

  /** `COALESCE(MAX(sequence), 0)`. */
  function MaxSequence(trace: seq<Entry>): nat {
    if trace == [] then 0
    else
      var rest, last := MaxSequence(trace[..|trace| - 1]), trace[|trace| - 1].sequence;
      if last > rest then last else rest
  }

  function Tell(m: Record, fact: Fact): Record {
    m.(trace := m.trace + [Entry(MaxSequence(m.trace) + 1, fact)])
  }

  function Break(m: Record, code: Code, reason: Option<string>): Record {
    Tell(m.(run := m.run.(status := Status.Failed, pending := None, result := Some(Lost(code, reason)))),
        Closed(Lost(code, reason)))
  }

  function NewRecord(mode: Mode): Record {
    Tell(Record(Progress(mode, Queued, 0, 1, -1, None, None), [], map[], map[]), Created(mode))
  }

  predicate Stopped(run: Progress) {
    Terminal(run.status) || run.status.WaitingApproval?
  }

  // ---------------------------------------------------------------- one attempt

  /** What follows the start of an attempt that fails under the given fault. */
  function Fault(m: Record, id: AttemptId, kind: FaultKind): Record {
    var retry := Transient(kind) && m.run.mode.Resilient? && id.attempt < ATTEMPT_LIMIT;
    var injected := Tell(m, Injected(id, kind));
    var rejected := if Transient(kind) then injected else Tell(injected, Invalid(id));
    var erred := Tell(rejected, Erred(id, FaultCode(kind), Transient(kind)));
    if retry then erred.(run := erred.run.(nextAttempt := erred.run.nextAttempt + 1))
    else Break(erred, FaultCode(kind), None)
  }

  /** The success of an attempt: its effect if it is a write, its output and the checkpoint.
      None is the conflict that rolls the transaction back. */
  function Deliver(m: Record, action: Action, id: AttemptId, output: Output): Option<Record>
    requires action.CallTool?
  {
    if IsWrite(action.tool) && id.step in m.effects && m.effects[id.step].digest != OfAction(action) then None
    else
      var kept := IsWrite(action.tool) && id.step in m.effects;
      var raw := if kept then m.effects[id.step].output else output;
      var effects := if IsWrite(action.tool) && !kept then m.effects[id.step := Effect(OfAction(action), output)]
          else m.effects;
      var delivered := Tell(m.(effects := effects), Delivered(id, raw));
      Some(Tell(delivered.(run := delivered.run.(step := id.step + 1, nextAttempt := 1, pending := None)),
          Saved(id.step + 1)))
  }

  /** `_attempt`. */
  function Attempt(s: Scenario, m: Record, action: Action): Option<Record>
    requires action.CallTool?
  {
    var step := m.run.step;
    var id := AttemptId(step, action.tool, m.run.nextAttempt);
    if !ValidInput(action.tool, action.args) then
      Some(Break(Tell(m, PreflightRejected(step, action.tool)), InvalidInput, None))
    else if RequiresApproval(action.tool) && step !in m.decisions then
      Some(Tell(m.(run := m.run.(status := Status.WaitingApproval,
                                 pending := Some(Pending(step, OfAction(action), action.tool, action.args)))),
                Awaiting(step, action.tool)))
    else if RequiresApproval(action.tool)
        && (m.decisions[step].digest != OfAction(action) || !m.decisions[step].allow) then
      Some(Break(m, ApprovalMismatch, None))
    else
      var underway, fault := Tell(m, Opened(id)), FaultFor(s.faults, action.tool, id.attempt);
      if fault.Some? then Some(Fault(underway, id, fault.value))
      else Deliver(underway, action, id, BackendOutput(action.tool, action.args))
  }

  // ---------------------------------------------------------------- one transaction

  function Begin(m: Record): Record {
    if m.run.status.Queued? then Tell(m.(run := m.run.(status := Status.Running)), Begun) else m
  }

  function Announce(m: Record, action: Action): Record {
    if m.run.announced == m.run.step then m
    else Tell(m.(run := m.run.(announced := m.run.step)), Announced(m.run.step, action))
  }

  /** One transaction of `_advance`, for a run that is not stopped; None is a rollback. */
  function Transaction(s: Scenario, m: Record): Option<Record> {
    var begun := Begin(m);
    var step := m.run.step;
    if step >= |s.actions| then Some(Break(begun, ScenarioExhausted, None))
    else
      var announced := Announce(begun, s.actions[step]);
      match s.actions[step]
      case Finish(summary, refs, outcome) =>
        Some(Tell(announced.(run := announced.run.(status := Status.Succeeded,
            result := Some(Won(outcome, summary, refs)))),
                  Closed(Won(outcome, summary, refs))))
      case Fail(code, _) => Some(Break(announced, code, None))
      case CallTool(_, _, _) => Attempt(s, announced, s.actions[step])
  }

  datatype Failure = Conflict | BudgetExceeded | Mismatch | InvalidBody

  /** `_advance`: at most `passes` transactions, each committed on its own. */
  function Advance(s: Scenario, m: Record, passes: nat): (Record, Result<Progress, Failure>)
    decreases passes
  {
    if passes == 0 then (m, Err(BudgetExceeded))
    else if Stopped(m.run) then (m, Ok(m.run))
    else
      match Transaction(s, m)
      case None => (m, Err(Conflict))
      case Some(m') => Advance(s, m', passes - 1)
  }

  // ---------------------------------------------------------------- decisions

  predicate ValidDecision(d: Decision) {
    && 1 <= |d.actor| <= 128 && d.step < 100
    && (d.reason.Some? ==> |d.reason.value| <= 500)
  }

  /** The transaction of `_approve`. */
  function Decide(m: Record, d: Decision): Result<Record, Failure> {
    if !ValidDecision(d) then Err(InvalidBody)
    else if d.step in m.decisions then if m.decisions[d.step] == d then Ok(m) else Err(Mismatch)
    else if !m.run.status.WaitingApproval? || m.run.pending.None?
            || m.run.pending.value.step != d.step || m.run.pending.value.digest != d.digest then Err(Mismatch)
    else
      var decided := m.(decisions := m.decisions[d.step := d]);
      var recorded := Tell(decided, Recorded(d));
      var cleared := recorded.(run := recorded.run.(pending := None));
      Ok(if d.allow then cleared.(run := cleared.run.(status := Status.Queued))
         else Break(Tell(cleared, Denied(d)), ApprovalDeniedCode, d.reason))
  }
}

/** The same in place: the tables are a field, and every transaction commits or rolls back. */
module MobileEngine {
  import opened Domain
  import opened Mobile

  type RunId = nat

  class MobileApp {
    var rows: map<RunId, Record>
    const scenario: Scenario

    constructor (scenario: Scenario)
      ensures rows == map[] && this.scenario == scenario
    {
      rows := map[];
      this.scenario := scenario;
    }

    /** `_event`. */
    method Event(m: Record, fact: Fact) returns (told: Record)
      ensures told == Tell(m, fact)
    {
      var sequence := 0;
      assert m.trace[..0] == [];
      for i := 0 to |m.trace|
        invariant sequence == MaxSequence(m.trace[..i])
      {
        assert m.trace[..i + 1][..i] == m.trace[..i];
        if m.trace[i].sequence > sequence {
          sequence := m.trace[i].sequence;
        }
      }
      assert m.trace[..|m.trace|] == m.trace;
      told := m.(trace := m.trace + [Entry(sequence + 1, fact)]);
    }

    /** `_fail`. */
    method Fail(m: Record, code: Code, reason: Option<string>) returns (failed: Record)
      ensures failed == Break(m, code, reason)
    {
      var run := m.run.(status := Status.Failed, pending := None, result := Some(Lost(code, reason)));
      failed := Event(m.(run := run), Closed(Lost(code, reason)));
    }

    /** `_attempt`: validate, wait for approval, try once. */
    method TryOnce(record: Record, action: Action) returns (m: Option<Record>)
      requires action.CallTool?
      ensures m == Attempt(scenario, record, action)
    {
      hide Tell, Fault, Deliver, BackendOutput;
      var step := record.run.step;
      if !ValidInput(action.tool, action.args) {
        var rejected := Event(record, PreflightRejected(step, action.tool));
        rejected := Fail(rejected, InvalidInput, None);
        return Some(rejected);
      }
      if RequiresApproval(action.tool) {
        if step !in record.decisions {
          var paused := record.run.(status := Status.WaitingApproval,
                                    pending := Some(Pending(step, OfAction(action), action.tool, action.args)));
          var waiting := Event(record.(run := paused), Awaiting(step, action.tool));
          return Some(waiting);
        }
        if record.decisions[step].digest != OfAction(action) || !record.decisions[step].allow {
          var mismatch := Fail(record, ApprovalMismatch, None);
          return Some(mismatch);
        }
      }
      var id := AttemptId(step, action.tool, record.run.nextAttempt);
      var underway := Event(record, Opened(id));
      var fault := FaultFor(scenario.faults, action.tool, id.attempt);
      if fault.Some? {
        var failed := FailAttempt(underway, id, fault.value);
        return Some(failed);
      }
      m := FinishAttempt(underway, action, id, BackendOutput(action.tool, action.args));
    }

    method FailAttempt(underway: Record, id: AttemptId, kind: FaultKind) returns (m: Record)
      ensures m == Fault(underway, id, kind)
    {
      hide Tell;
      m := Event(underway, Injected(id, kind));
      if !Transient(kind) {
        m := Event(m, Invalid(id));
      }
      var retry := Transient(kind) && m.run.mode.Resilient? && id.attempt < ATTEMPT_LIMIT;
      assert m.run == underway.run by { SameRun(underway, id, kind); }
      m := Event(m, Erred(id, FaultCode(kind), Transient(kind)));
      if retry {
        m := m.(run := m.run.(nextAttempt := m.run.nextAttempt + 1));
      } else {
        m := Fail(m, FaultCode(kind), None);
      }
    }

    lemma SameRun(m: Record, id: AttemptId, kind: FaultKind)
      ensures Tell(m, Injected(id, kind)).run == m.run && Tell(Tell(m, Injected(id, kind)), Invalid(id)).run == m.run
    {
    }

    method FinishAttempt(underway: Record, action: Action, id: AttemptId, output: Output) returns (m: Option<Record>)
      requires action.CallTool?
      ensures m == Deliver(underway, action, id, output)
    {
      hide Tell;
      var raw, effects := output, underway.effects;
      if IsWrite(action.tool) {
        if id.step in effects {
          if effects[id.step].digest != OfAction(action) {
            return None;
          }
          raw := effects[id.step].output;
        } else {
          effects := effects[id.step := Effect(OfAction(action), output)];
        }
      }
      var delivered := Event(underway.(effects := effects), Delivered(id, raw));
      delivered := delivered.(run := delivered.run.(step := id.step + 1, nextAttempt := 1, pending := None));
      delivered := Event(delivered, Saved(id.step + 1));
      m := Some(delivered);
    }

    /** One committed transaction of the loop, or None and nothing changed. */
    method Transact(id: RunId) returns (committed: bool)
      requires id in rows && !Stopped(rows[id].run)
      modifies this
      ensures match Transaction(scenario, old(rows)[id])
              case Some(m) => committed && rows == old(rows)[id := m]
              case None => !committed && rows == old(rows)
    {
      hide Tell, Attempt;
      var m := rows[id];
      if m.run.status.Queued? {
        m := Event(m.(run := m.run.(status := Status.Running)), Begun);
      }
      var step := m.run.step;
      assert m == Begin(rows[id]) && step == rows[id].run.step by { BeginKeepsStep(rows[id]); }
      if step >= |scenario.actions| {
        m := Fail(m, ScenarioExhausted, None);
      } else {
        var action := scenario.actions[step];
        if m.run.announced != step {
          m := Event(m.(run := m.run.(announced := step)), Announced(step, action));
        }
        match action
        case Finish(summary, refs, outcome) =>
          m := Event(m.(run := m.run.(status := Status.Succeeded, result := Some(Won(outcome, summary, refs)))),
                     Closed(Won(outcome, summary, refs)));
        case Fail(code, _) =>
          m := Fail(m, code, None);
        case CallTool(_, _, _) =>
          var tried := TryOnce(m, action);
          if tried.None? {
            return false;
          }
          m := tried.value;
      }
      rows := rows[id := m];
      committed := true;
    }

    lemma BeginKeepsStep(m: Record)
      ensures Begin(m).run.step == m.run.step
    {
    }

    /** `_advance`. */
    method AdvanceRun(id: RunId) returns (outcome: Result<Progress, Failure>)
      requires id in rows
      modifies this
      ensures var (m, expected) := Advance(scenario, old(rows)[id], PASS_LIMIT);
              rows == old(rows)[id := m] && outcome == expected
    {
      hide Transaction;
      ghost var start := rows;
      for i := 0 to PASS_LIMIT
        invariant id in rows && rows == start[id := rows[id]]
        invariant Advance(scenario, rows[id], PASS_LIMIT - i) == Advance(scenario, start[id], PASS_LIMIT)
      {
        if Stopped(rows[id].run) {
          return Ok(rows[id].run);
        }
        var committed := Transact(id);
        if !committed {
          return Err(Conflict);
        }
      }
      outcome := Err(BudgetExceeded);
    }

    /** `_approve`: decide in one transaction, then advance. */
    method ApproveRun(id: RunId, d: Decision) returns (outcome: Result<Progress, Failure>)
      requires id in rows
      modifies this
      ensures match Decide(old(rows)[id], d)
              case Err(e) => outcome == Err(e) && rows == old(rows)
              case Ok(decided) =>
                var (m, expected) := Advance(scenario, decided, PASS_LIMIT);
                rows == old(rows)[id := m] && outcome == expected
    {
      hide Tell, Advance;
      if !ValidDecision(d) {
        return Err(InvalidBody);
      }
      var m := rows[id];
      if d.step in m.decisions {
        if m.decisions[d.step] != d {
          return Err(Mismatch);
        }
      } else {
        if !m.run.status.WaitingApproval? || m.run.pending.None? || m.run.pending.value.step != d.step
           || m.run.pending.value.digest != d.digest {
          return Err(Mismatch);
        }
        m := Event(m.(decisions := m.decisions[d.step := d]), Recorded(d));
        m := m.(run := m.run.(pending := None));
        if d.allow {
          m := m.(run := m.run.(status := Status.Queued));
        } else {
          m := Event(m, Denied(d));
          m := Fail(m, ApprovalDeniedCode, d.reason);
        }
        rows := rows[id := m];
      }
      assert Decide(old(rows)[id], d) == Ok(m);
      outcome := AdvanceRun(id);
    }

    /** `_start`. */
    method StartRun(id: RunId, mode: Mode) returns (outcome: Result<Progress, Failure>)
      requires id !in rows
      modifies this
      ensures var (m, expected) := Advance(scenario, NewRecord(mode), PASS_LIMIT);
              rows == old(rows)[id := m] && outcome == expected
    {
      hide Tell, Advance;
      var m := Event(Record(Progress(mode, Queued, 0, 1, -1, None, None), [], map[], map[]), Created(mode));
      rows := rows[id := m];
      outcome := AdvanceRun(id);
    }
  }
}
