/** The evidence gate's automaton: `_trace_claims` re-derives every claim from one ordered
    trace, or refuses it (evaluation/gate.py). */
module Gate {
  import opened Domain
  import opened Evidence

  // ---------------------------------------------------------------- what the gate reads

  datatype LogicalAction = LogicalAction(
    step: nat, kind: Kind, tool: Option<Tool>, payload: Action, digest: Digest, expected: Option<Digest>)

  datatype Frozen = Frozen(
    actions: seq<LogicalAction>, context: Context, approvalSupplied: bool)

  datatype Item = Item(eventId: nat, traceId: nat, parent: Option<nat>, event: Event)

  datatype TraceDigest = OfTrace(items: seq<Item>) | OtherTraceDigest(text: string)

  datatype Case = Case(
    mode: Mode, traceId: nat, digest: TraceDigest, items: seq<Item>, preWrites: nat, writes: nat)

  datatype Claims = Claims(
    tools: seq<Tool>, attempts: seq<Attempt>, faults: seq<Fault>, rejections: seq<AttemptId>,
    accepted: seq<Accepted>, status: Status, result: RunResult, reconstructed: bool)

  function Events(items: seq<Item>): (events: seq<Event>)
    ensures |events| == |items|
    ensures forall i :: 0 <= i < |items| ==> events[i] == items[i].event
  {
    seq(|items|, i requires 0 <= i < |items| => items[i].event)
  }

  predicate HeaderOk(c: Case) {
    && c.digest == OfTrace(c.items)
    && (forall i :: 0 <= i < |c.items| ==> c.items[i].traceId == c.traceId && c.items[i].parent == Some(c.traceId))
    && (forall i, j :: 0 <= i < j < |c.items| ==> c.items[i].eventId != c.items[j].eventId)
    && (forall i, j :: 0 <= i < j < |c.items| ==> c.items[i].event.sequence < c.items[j].event.sequence)
  }

  type Plan = map<nat, LogicalAction>

  /** `{item.action_step: item}`: a later entry for a step replaces an earlier one. */
  function ByStep(actions: seq<LogicalAction>): Plan {
    if actions == [] then map[]
    else
      var last := actions[|actions| - 1];
      ByStep(actions[..|actions| - 1])[last.step := last]
  }

  predicate EntryOk(entry: LogicalAction) {
    && KindOf(entry.payload) == entry.kind
    && entry.tool == (if entry.payload.CallTool? then Some(entry.payload.tool) else None)
    && entry.digest == OfAction(entry.payload)
    && entry.expected == ExpectedDigest(entry.payload)
  }

  function ExpectedDigest(action: Action): Option<Digest> {
    if !action.CallTool? then None
    else
      var output := FixtureOutput(action.tool, action.args);
      if output.Some? then Some(OfOutput(output.value)) else None
  }

  predicate FrozenOk(frozen: Frozen) {
    && var plan := ByStep(frozen.actions);
    && (forall k :: k in plan ==> k < |plan|)
    && (forall k: nat :: k < |plan| ==> k in plan)
    && forall i :: 0 <= i < |frozen.actions| ==> EntryOk(frozen.actions[i])
  }

  // ---------------------------------------------------------------- the automaton's state

  datatype Wait = Wait(sequence: nat, step: nat, tool: Tool, digest: Digest)

  datatype Decision = Decision(sequence: nat, step: nat, digest: Digest, actor: string, allow: bool)

  datatype Denial = Denial(step: nat, digest: Digest, actor: string)

  datatype Success = Success(id: AttemptId, output: Output)

  datatype Call = Call(step: nat, tool: Tool)

  function CallOf(id: AttemptId): Call {
    Call(id.step, id.tool)
  }

  /** Announced actions: their kinds by step, where they were announced, and the active call. */
  datatype Cursor = Cursor(
    seen: seq<Kind>, lastStep: int, positions: map<nat, seq<nat>>, tools: seq<Tool>,
    active: Option<Call>, terminalAction: Option<Action>)

  /** Attempts: the open ones, the closed ones in order, and what was recorded inside them. */
  datatype Ledger = Ledger(
    started: set<AttemptId>, attempts: seq<Attempt>, startedAt: map<AttemptId, nat>, spans: map<AttemptId, Span>,
    last: map<Call, Attempt>, faults: seq<Fault>, rejections: seq<AttemptId>)

  /** A success waiting for its checkpoint, and the outputs checkpointed so far. */
  datatype Delivery = Delivery(pending: Option<Success>, accepted: seq<Accepted>, outputs: map<nat, Output>)

  datatype Consent = Consent(
    waits: seq<Wait>, decisions: seq<Decision>, resumes: seq<nat>,
    mustDeny: Option<Denial>, denied: Option<Option<string>>, mustFailDenied: Option<string>)

  datatype Ending = Ending(preflight: Option<Code>, mustFail: Option<Code>, final: Option<(Status, RunResult)>)

  datatype State = State(cursor: Cursor, ledger: Ledger, delivery: Delivery, consent: Consent, ending: Ending)

  /** `Refused` is the `return None` in the middle of the loop. */
  datatype Verdict = Refused | Live(state: State)

  function Init(context: Context): State {
    State(Cursor([], -1, map[], [], None, None),
          Ledger({}, [], map[], map[], map[], [], []),
          Delivery(None, [], context.results),
          Consent([], [], [], None, None, None),
          Ending(None, None, None))
  }

  function MaxAttempts(mode: Mode): nat {
    if mode.Fragile? then 1 else 2
  }

  /** What an outstanding obligation forbids, whatever the event says. */
  predicate Blocked(g: State, body: Body) {
    || (g.delivery.pending.Some? && !body.Checkpointed?)
    || (g.ending.mustFail.Some? && !body.RunFailed?)
    || (g.consent.mustDeny.Some? && !body.ApprovalDenied?)
    || (g.consent.mustFailDenied.Some? && !body.RunFailed?)
    || g.ending.final.Some?
    || (g.cursor.terminalAction.Some? && !body.RunSucceeded? && !body.RunFailed?)
  }

  predicate Announceable(plan: Plan, u: Cursor, step: nat, action: Action) {
    && step in plan && action == plan[step].payload && KindOf(action) == plan[step].kind
    && plan[step].tool == (if action.CallTool? then Some(action.tool) else None)
    && OfAction(action) == plan[step].digest
    && u.lastStep <= step
    && (step < |u.seen| ==> u.seen[step] == KindOf(action))
    && step <= |u.seen|
  }

  function Announce(u: Cursor, sequence: nat, step: nat, action: Action): Cursor {
    var novel := step == |u.seen|;
    Cursor(
      if novel then u.seen + [KindOf(action)] else u.seen,
      if step > u.lastStep then step else u.lastStep,
      u.positions[step := (if step in u.positions then u.positions[step] else []) + [sequence]],
      if novel && action.CallTool? then u.tools + [action.tool] else u.tools,
      if action.CallTool? then Some(Call(step, action.tool)) else None,
      if action.CallTool? then None else Some(action))
  }

  function OnPolicy(plan: Plan, g: State, sequence: nat, step: nat, action: Action): Verdict {
    if Announceable(plan, g.cursor, step, action)
    then Live(g.(cursor := Announce(g.cursor, sequence, step, action)))
    else Refused
  }

  /** The next attempt of a call is 1, or one more than a transient failure. */
  predicate MayStart(mode: Mode, l: Ledger, id: AttemptId) {
    && id !in l.started
    && (if id.attempt == 1 then CallOf(id) !in l.last
        else
          && CallOf(id) in l.last
          && id.attempt == l.last[CallOf(id)].id.attempt + 1
          && l.last[CallOf(id)].closing.ClosedError?
          && l.last[CallOf(id)].transient == Some(true))
    && id.attempt <= MaxAttempts(mode)
  }

  function Open(l: Ledger, sequence: nat, span: Span, id: AttemptId): Ledger {
    l.(started := l.started + {id}, startedAt := l.startedAt[id := sequence], spans := l.spans[id := span])
  }

  function OnStarted(mode: Mode, g: State, sequence: nat, note: Note, id: AttemptId): Verdict {
    if g.cursor.active == Some(CallOf(id)) && note.status.Fine? && MayStart(mode, g.ledger, id)
    then Live(g.(ledger := Open(g.ledger, sequence, note.span, id)))
    else Refused
  }

  /** The event belongs to the open attempt of the active call, in its span. */
  predicate OfOpenAttempt(g: State, note: Note, id: AttemptId) {
    && g.cursor.active == Some(CallOf(id)) && id in g.ledger.started
    && id in g.ledger.spans && note.span == g.ledger.spans[id]
  }

  function Close(l: Ledger, a: Attempt): Ledger {
    l.(started := l.started - {a.id}, attempts := l.attempts + [a], last := l.last[CallOf(a.id) := a])
  }

  function OnClosed(plan: Plan, g: State, note: Note): Verdict
    requires note.body.AttemptClosed?
  {
    var id, closing, output := note.body.id, note.body.closing, note.body.output;
    if !OfOpenAttempt(g, note, id) || note.status != (if closing.ClosedOk? then Fine else Error) then Refused
    else if !closing.ClosedOk? then Live(g.(ledger := Close(g.ledger, ClosingOf(note.body))))
    else if output.None? || id.step !in plan || plan[id.step].expected != Some(OfOutput(output.value)) then Refused
    else Live(g.(
      ledger := Close(g.ledger, ClosingOf(note.body)),
      delivery := g.delivery.(pending := Some(Success(id, output.value)))))
  }

  function OnInside(g: State, note: Note, id: AttemptId, l: Ledger): Verdict {
    if OfOpenAttempt(g, note, id) && note.status.Error? then Live(g.(ledger := l)) else Refused
  }

  predicate CheckpointMatches(context: Context, success: Success, outputs: map<nat, Output>, body: Body)
    requires body.Checkpointed?
  {
    && body.step == success.id.step && body.attempt == success.id.attempt && body.next == success.id.step + 1
    && body.outputDigest == OfOutput(success.output)
    && body.contextDigest == OfContext(context.(results := outputs))
  }

  function OnCheckpoint(context: Context, g: State, note: Note): Verdict
    requires note.body.Checkpointed?
  {
    if g.delivery.pending.None? || !note.status.Fine? then Refused
    else
      var success := g.delivery.pending.value;
      var outputs := g.delivery.outputs[success.id.step := success.output];
      if !CheckpointMatches(context, success, outputs, note.body) then Refused
      else Live(g.(
        delivery := Delivery(None, g.delivery.accepted + [Accepted(success.id.step, success.id.tool, success.output)],
            outputs),
        cursor := g.cursor.(active := None)))
  }

  function OnPreflight(plan: Plan, g: State, note: Note): Verdict
    requires note.body.PreflightFailed?
  {
    var body := note.body;
    if g.cursor.active != Some(Call(body.step, body.tool)) || !note.status.Error?
       || g.ledger.started != {} || g.ending.preflight.Some?
       || body.step !in plan || body.digest != plan[body.step].digest
       || !(body.failure.UnknownTool? || body.failure.InvalidInput?
            || body.failure.InvalidFaultPlan? || body.failure.IdempotencyKeyRequired?)
    then Refused
    else Live(g.(ending := g.ending.(preflight := Some(body.failure), mustFail := Some(body.failure))))
  }

  predicate AnyAllowed(decisions: seq<Decision>) {
    exists i :: 0 <= i < |decisions| && decisions[i].allow
  }

  /** A decision names the active call, by step, tool and digest. */
  predicate NamesActive(plan: Plan, g: State, step: nat, digest: Digest) {
    && step in plan && digest == plan[step].digest
    && plan[step].tool.Some? && g.cursor.active == Some(Call(step, plan[step].tool.value))
  }

  function OnDecision(plan: Plan, g: State, sequence: nat, note: Note): Verdict
    requires note.body.ApprovalRecorded?
  {
    var body, k := note.body, g.consent;
    if !NamesActive(plan, g, body.step, body.digest)
       || (body.allow && (k.mustDeny.Some? || k.denied.Some?))
       || (!body.allow && AnyAllowed(k.decisions))
    then Refused
    else Live(g.(consent := k.(
      decisions := k.decisions + [Decision(sequence, body.step, body.digest, body.actor, body.allow)],
      mustDeny := if body.allow then k.mustDeny else Some(Denial(body.step, body.digest, body.actor)))))
  }

  function OnDenied(plan: Plan, g: State, note: Note): Verdict
    requires note.body.ApprovalDenied?
  {
    var body, k := note.body, g.consent;
    if !note.status.Error? || !NamesActive(plan, g, body.step, body.digest)
       || k.mustDeny != Some(Denial(body.step, body.digest, body.actor))
       || AnyAllowed(k.decisions)
    then Refused
    else Live(g.(consent := k.(denied := Some(body.reason), mustDeny := None, mustFailDenied := body.reason)))
  }

  /** Which terminal event, with which result, may end the trace here. */
  predicate TerminalOk(g: State, succeeded: bool, result: RunResult) {
    match g.cursor.terminalAction
    case Some(Finish(summary, refs, outcome)) => succeeded && result == Outcome(outcome, summary, refs)
    case Some(Fail(code, explanation)) => !succeeded && result == Failure(code, Explained(explanation))
    case Some(CallTool(_, _, _)) => false
    case None =>
      && !succeeded
      && (if g.consent.denied.Some? then result == Failure(ApprovalDeniedCode, Reasoned(g.consent.denied.value))
          else if g.ending.preflight.Some? then result == Failure(g.ending.preflight.value, Bare)
          else g.ledger.attempts != [] && g.ledger.attempts[|g.ledger.attempts| - 1].closing.ClosedError?)
  }

  function OnTerminal(g: State, note: Note, succeeded: bool, result: RunResult): Verdict {
    if g.ledger.started != {} || note.status != (if succeeded then Fine else Error) || !TerminalOk(g, succeeded, result)
    then Refused
    else
      var plain, denied := g.cursor.terminalAction.None?, g.consent.denied.Some?;
      Live(g.(
        ending := g.ending.(
          final := Some((if succeeded then Succeeded else Failed, result)),
          mustFail := if plain && !denied && g.ending.preflight.Some? then None else g.ending.mustFail),
        consent := g.consent.(
          mustFailDenied := if plain && denied then None else g.consent.mustFailDenied)))
  }

  function OnRunning(g: State, sequence: nat, note: Note, from: Status): Verdict {
    if !note.status.Fine? then Refused
    else if from.WaitingApproval? then Live(g.(consent := g.consent.(resumes := g.consent.resumes + [sequence])))
    else Live(g)
  }

  function OnWaiting(g: State, wait: Wait): Verdict {
    if g.cursor.active == Some(Call(wait.step, wait.tool))
    then Live(g.(consent := g.consent.(waits := g.consent.waits + [wait])))
    else Refused
  }

  function Step(plan: Plan, context: Context, mode: Mode, g: State, event: Event): Verdict {
    var note := event.note;
    if Blocked(g, note.body) then Refused
    else
      match note.body
      case PolicyAction(step, action) => OnPolicy(plan, g, event.sequence, step, action)
      case AttemptStarted(id) => OnStarted(mode, g, event.sequence, note, id)
      case AttemptClosed(_, _, _, _, _) => OnClosed(plan, g, note)
      case FaultInjected(id, kind) =>
        OnInside(g, note, id, g.ledger.(faults := g.ledger.faults + [Fault(id, kind)]))
      case OutputRejected(id) =>
        OnInside(g, note, id, g.ledger.(rejections := g.ledger.rejections + [id]))
      case Checkpointed(_, _, _, _, _, _) => OnCheckpoint(context, g, note)
      case PreflightFailed(_, _, _, _) => OnPreflight(plan, g, note)
      case WaitingFor(step, tool, digest) => OnWaiting(g, Wait(event.sequence, step, tool, digest))
      case ApprovalRecorded(_, _, _, _) => OnDecision(plan, g, event.sequence, note)
      case ApprovalDenied(_, _, _, _) => OnDenied(plan, g, note)
      case RunRunning(from) => OnRunning(g, event.sequence, note, from)
      case RunSucceeded(result) => OnTerminal(g, note, true, result)
      case RunFailed(result) => OnTerminal(g, note, false, result)
      case RetryCancelled(_, _) => Refused
      case RequestRejected(_) => Refused
      case Unreadable(_) => Refused
  }

  /** The automaton's verdict on a whole sequence of events. */
  function Fold(plan: Plan, context: Context, mode: Mode, events: seq<Event>): Verdict {
    if events == [] then Live(Init(context))
    else
      match Fold(plan, context, mode, events[..|events| - 1])
      case Refused => Refused
      case Live(g) => Step(plan, context, mode, g, events[|events| - 1])
  }

  // ---------------------------------------------------------------- the closing checks

  function MatchingFaults(faults: seq<Fault>, a: Attempt): set<FaultKind> {
    set kind | kind in {Timeout, RateLimit, ToolError, MalformedOutput}
               && multiset(faults)[Fault(a.id, kind)] == 1
               && a.code == Some(FaultCode(kind)) && a.transient == Some(Transient(kind))
  }

  /** Each closing is a success, an output rejection, or the failure of exactly one fault. */
  predicate AttemptExplained(faults: seq<Fault>, rejections: seq<AttemptId>, a: Attempt) {
    match a.closing
    case ClosedOk => true
    case ClosedCancelled => false
    case ClosedError =>
      if a.code == Some(InvalidOutput) then a.transient == Some(false) && multiset(rejections)[a.id] == 1
      else |MatchingFaults(faults, a)| == 1
  }

  function OfCall(attempts: seq<Attempt>, call: Call): seq<Attempt> {
    if attempts == [] then []
    else
      var rest := OfCall(attempts[..|attempts| - 1], call);
      var a := attempts[|attempts| - 1];
      if CallOf(a.id) == call then rest + [a] else rest
  }

  predicate Retried(previous: Attempt, later: Attempt) {
    && later.id.attempt == previous.id.attempt + 1
    && previous.closing.ClosedError?
    && previous.transient == Some(true)
  }

  predicate RetryChain(attempts: seq<Attempt>) {
    forall i :: 0 <= i < |attempts| - 1 ==> Retried(attempts[i], attempts[i + 1])
  }

  predicate AttemptSemantics(l: Ledger) {
    && (forall i :: 0 <= i < |l.attempts| ==> AttemptExplained(l.faults, l.rejections, l.attempts[i]))
    && (forall i :: 0 <= i < |l.attempts| ==> RetryChain(OfCall(l.attempts, CallOf(l.attempts[i].id))))
  }

  predicate Executed(l: Ledger, step: nat) {
    exists id :: id in l.startedAt && id.step == step
  }

  predicate GatedEntry(entry: LogicalAction) {
    entry.kind.CallKind? && entry.tool.Some? && RequiresApproval(entry.tool.value)
  }

  function AnnouncementsAllowed(plan: Plan, g: State, step: nat): nat {
    if step in plan && GatedEntry(plan[step]) && Executed(g.ledger, step) then 2 else 1
  }

  predicate PositionsOk(plan: Plan, g: State) {
    forall step :: step in g.cursor.positions ==> |g.cursor.positions[step]| == AnnouncementsAllowed(plan, g, step)
  }

  function GatedSteps(actions: seq<LogicalAction>, g: State): set<nat> {
    set i | 0 <= i < |actions| && GatedEntry(actions[i]) && Executed(g.ledger, actions[i].step) :: actions[i].step
  }

  function FirstAt(actions: seq<LogicalAction>, step: nat): Option<LogicalAction> {
    if actions == [] then None
    else if actions[0].step == step then Some(actions[0])
    else FirstAt(actions[1..], step)
  }

  /** One wait, one decision and one resume, all for `step`, in the one order that counts. */
  predicate CycleOk(c: Case, frozen: Frozen, g: State, step: nat) {
    var entry, k := FirstAt(frozen.actions, step), g.consent;
    && entry.Some? && entry.value.tool.Some?
    && |k.waits| == 1 && |k.decisions| == 1 && |k.resumes| == 1
    && k.waits[0].step == step && k.decisions[0].step == step
    && step in g.cursor.positions && |g.cursor.positions[step]| == 2
    && k.waits[0].tool == entry.value.tool.value
    && k.waits[0].digest == entry.value.digest
    && k.decisions[0].digest == entry.value.digest
    && k.decisions[0].actor == REVIEWER && k.decisions[0].allow
    && g.cursor.positions[step][0] < k.waits[0].sequence < k.decisions[0].sequence < k.resumes[0]
    && k.resumes[0] < g.cursor.positions[step][1]
    && (forall id :: id in g.ledger.startedAt && id.step == step ==>
        g.cursor.positions[step][1] < g.ledger.startedAt[id])
    && c.preWrites == 0 && c.writes == 1
  }

  /** None refuses the case; otherwise whether an approval was reconstructed. */
  function ApprovalCycles(c: Case, frozen: Frozen, g: State): Option<bool> {
    var steps, k := GatedSteps(frozen.actions, g), g.consent;
    if steps == {} then
      if k.waits == [] && k.decisions == [] && k.resumes == [] then Some(false) else None
    else if frozen.approvalSupplied && (exists step :: step in steps && steps == {step} && CycleOk(c, frozen, g, step))
    then Some(true)
    else None
  }

  predicate Settled(g: State) {
    && g.ledger.started == {} && g.delivery.pending.None? && g.ending.mustFail.None?
    && g.consent.mustDeny.None? && g.consent.mustFailDenied.None? && g.ending.final.Some?
  }

  function Conclude(c: Case, frozen: Frozen, g: State): Option<Claims> {
    if !Settled(g) || !PositionsOk(ByStep(frozen.actions), g) || !AttemptSemantics(g.ledger) then None
    else
      var reconstructed := ApprovalCycles(c, frozen, g);
      if reconstructed.None? then None
      else Some(Claims(g.cursor.tools, g.ledger.attempts, g.ledger.faults, g.ledger.rejections, g.delivery.accepted,
                       g.ending.final.value.0, g.ending.final.value.1, reconstructed.value))
  }

  /** The whole of `_trace_claims`, as a function of the case and its frozen scenario. */
  function ClaimsOf(c: Case, frozen: Frozen): Option<Claims> {
    if !HeaderOk(c) || !FrozenOk(frozen) then None
    else
      var g := Fold(ByStep(frozen.actions), frozen.context, c.mode, Events(c.items));
      if g.Refused? then None else Conclude(c, frozen, g.state)
  }

  /** The loop of `_trace_claims`: one pass over the items, leaving at the first refusal. */
  method TraceClaims(c: Case, frozen: Frozen) returns (claims: Option<Claims>)
    ensures claims == ClaimsOf(c, frozen)
  {
    if !HeaderOk(c) || !FrozenOk(frozen) {
      return None;
    }
    var plan := ByStep(frozen.actions);
    var g := Init(frozen.context);
    ghost var events := Events(c.items);
    assert events[..0] == [];
    for i := 0 to |c.items|
      invariant Fold(plan, frozen.context, c.mode, events[..i]) == Live(g)
    {
      assert events[..i + 1][..i] == events[..i];
      var next := Step(plan, frozen.context, c.mode, g, c.items[i].event);
      if next.Refused? {
        RefusalIsFinal(plan, frozen.context, c.mode, events, i + 1);
        return None;
      }
      g := next.state;
    }
    assert events[..|c.items|] == events;
    claims := Conclude(c, frozen, g);
  }

  /** Once a prefix is refused, so is every extension of it. */
  lemma {:induction false} RefusalIsFinal(plan: Plan, context: Context, mode: Mode, events: seq<Event>, n: nat)
    requires n <= |events|
    requires Fold(plan, context, mode, events[..n]).Refused?
    ensures Fold(plan, context, mode, events).Refused?
    decreases |events|
  {
    if n == |events| {
      assert events[..n] == events;
    } else {
      var before := events[..|events| - 1];
      assert before[..n] == events[..n];
      RefusalIsFinal(plan, context, mode, before, n);
    }
  }
}
