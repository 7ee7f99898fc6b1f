/** The uncrashed desktop worker is one of the workers of `Protocol`: whatever it commits, some
    interleaving of store transactions commits.  So what holds in every interleaving holds of
    the runs that the runner grades. */
module DesktopProtocol {
  import opened Domain
  import opened Rows
  import opened Gateway
  import opened Protocol
  import opened ProtocolProgress
  import opened ProtocolConsent
  import opened ProtocolAnnounced
  import opened Desktop
  import DesktopWorker
  import H = GatewayHandlers
  import E = Engines

  function ConfigOf(job: Job): Config {
    Config(job.budget, job.leaseSeconds, job.claimSeconds, job.faults)
  }

  // ---------------------------------------------------------------- reachability

  ghost predicate Reaches(cfg: Config, s: State, s': State) {
    exists steps :: Execution(cfg, s, steps) == Some(s')
  }

  lemma ReachesSelf(cfg: Config, s: State)
    ensures Reaches(cfg, s, s)
  {
    assert Execution(cfg, s, []) == Some(s);
  }

  lemma ReachesNext(cfg: Config, s: State, step: Step, s': State)
    requires Next(cfg, s, step) == Some(s')
    ensures Reaches(cfg, s, s')
  {
    hide Next;
    var steps := [step];
    assert steps[..0] == [];
    assert Execution(cfg, s, steps) == Some(s');
  }

  lemma {:induction false} ExecutionOn(cfg: Config, s: State, first: seq<Step>, m: State, second: seq<Step>)
    requires Execution(cfg, s, first) == Some(m)
    ensures Execution(cfg, s, first + second) == Execution(cfg, m, second)
  {
    hide Next;
    if second == [] {
      assert first + second == first;
    } else {
      var k := |second| - 1;
      assert (first + second)[..|first + second| - 1] == first + second[..k];
      ExecutionOn(cfg, s, first, m, second[..k]);
    }
  }

  lemma ReachesOn(cfg: Config, s: State, m: State, s': State)
    requires Reaches(cfg, s, m) && Reaches(cfg, m, s')
    ensures Reaches(cfg, s, s')
  {
    hide Execution;
    var first :| Execution(cfg, s, first) == Some(m);
    var second :| Execution(cfg, m, second) == Some(s');
    ExecutionOn(cfg, s, first, m, second);
  }

  // ---------------------------------------------------------------- moves of one worker

  /** A worker's lease token and clock, and the tokens used so far. */
  datatype Seat = Seat(cfg: Config, token: Token, now: int, tokens: set<Token>)

  /** The worker has announced an action and not yet asked for its claim. */
  predicate BeforeClaim(pc: Pc) {
    pc.Announced? || pc.Consulting? || pc.Cleared? || pc.Calling?
  }

  ghost predicate At(seat: Seat, s: State, t: Tables, pc: Pc) {
    && s.t == t && s.tokens == seat.tokens
    && seat.token in s.workers && s.workers[seat.token] == Worker(pc, t.run)
    && Owns(t.lease, seat.token, seat.now)
    && (forall c :: c in s.claimTokens ==> c <= t.counter)
    && (BeforeClaim(pc) ==> t.counter !in s.claimTokens)
  }

  /** The worker gets from one position to another with nobody else acting in between. */
  ghost predicate Moves(seat: Seat, t: Tables, pc: Pc, t': Tables, pc': Pc) {
    forall s :: At(seat, s, t, pc) ==> exists s' :: Reaches(seat.cfg, s, s') && At(seat, s', t', pc')
  }

  lemma MovesSelf(seat: Seat, t: Tables, pc: Pc)
    ensures Moves(seat, t, pc, t, pc)
  {
    hide At, Reaches;
    forall s | At(seat, s, t, pc)
      ensures exists s' :: Reaches(seat.cfg, s, s') && At(seat, s', t, pc)
    {
      ReachesSelf(seat.cfg, s);
    }
  }

  lemma MovesOn(seat: Seat, t: Tables, pc: Pc, u: Tables, pcu: Pc, v: Tables, pcv: Pc)
    requires Moves(seat, t, pc, u, pcu) && Moves(seat, u, pcu, v, pcv)
    ensures Moves(seat, t, pc, v, pcv)
  {
    hide At, Reaches;
    forall s | At(seat, s, t, pc)
      ensures exists s' :: Reaches(seat.cfg, s, s') && At(seat, s', v, pcv)
    {
      var m :| Reaches(seat.cfg, s, m) && At(seat, m, u, pcu);
      var s' :| Reaches(seat.cfg, m, s') && At(seat, s', v, pcv);
      ReachesOn(seat.cfg, s, m, s');
    }
  }

  lemma CommitMoves(seat: Seat, t: Tables, pc: Pc, plan: Plan)
    requires Planned(seat.cfg, Worker(pc, t.run)) == Some(plan) && !BeforeClaim(plan.next)
    ensures Moves(seat, t, pc, Save(t, plan.run, plan.notes), plan.next)
  {
    hide Planned, AppendAll, Reaches;
    var t' := Save(t, plan.run, plan.notes);
    AppendAllKeeps(t.(run := plan.run.(version := t.run.version + 1)), plan.notes);
    forall s | At(seat, s, t, pc)
      ensures exists s' :: Reaches(seat.cfg, s, s') && At(seat, s', t', plan.next)
    {
      var s' := s.(t := t', workers := s.workers[seat.token := Worker(plan.next, t'.run)],
          saves := s.saves + [seat.token]);
      assert Next(seat.cfg, s, DoCommit(seat.token, seat.now)) == Some(s');
      ReachesNext(seat.cfg, s, DoCommit(seat.token, seat.now), s');
    }
  }

  lemma ThinkMoves(seat: Seat, t: Tables, pc: Pc, choice: Option<Action>, pc': Pc)
    requires Thought(seat.cfg, t, Worker(pc, t.run), choice) == Some(pc')
    requires BeforeClaim(pc') ==> BeforeClaim(pc)
    ensures Moves(seat, t, pc, t, pc')
  {
    hide Thought, Reaches;
    forall s | At(seat, s, t, pc)
      ensures exists s' :: Reaches(seat.cfg, s, s') && At(seat, s', t, pc')
    {
      var s' := s.(workers := s.workers[seat.token := s.workers[seat.token].(pc := pc')]);
      assert Next(seat.cfg, s, DoThink(seat.token, choice)) == Some(s');
      ReachesNext(seat.cfg, s, DoThink(seat.token, choice), s');
    }
  }

  lemma SayMoves(seat: Seat, t: Tables, pc: Pc, saying: Saying, speech: Speech)
    requires Said(seat.cfg, Worker(pc, t.run), t.counter, saying) == Some(speech)
    ensures Moves(seat, t, pc, Append(t, speech.note), speech.next)
  {
    hide Said, Reaches;
    forall s | At(seat, s, t, pc)
      ensures exists s' :: Reaches(seat.cfg, s, s') && At(seat, s', Append(t, speech.note), speech.next)
    {
      var s' := s.(t := Append(s.t, speech.note),
                   workers := s.workers[seat.token := s.workers[seat.token].(pc := speech.next)]);
      assert Next(seat.cfg, s, DoSay(seat.token, saying)) == Some(s');
      ReachesNext(seat.cfg, s, DoSay(seat.token, saying), s');
    }
  }

  lemma InvokeMoves(seat: Seat, t: Tables)
    ensures Moves(seat, t, Reserved, t, Invoked)
  {
    hide Reaches;
    forall s | At(seat, s, t, Reserved)
      ensures exists s' :: Reaches(seat.cfg, s, s') && At(seat, s', t, Invoked)
    {
      var s' := s.(workers := s.workers[seat.token := s.workers[seat.token].(pc := Invoked)],
                   tickets := s.tickets + [s.workers[seat.token].run.policyCalls]);
      assert Next(seat.cfg, s, DoInvoke(seat.token)) == Some(s');
      ReachesNext(seat.cfg, s, DoInvoke(seat.token), s');
    }
  }

  lemma ClaimMoves(seat: Seat, t: Tables, action: Action)
    requires action.CallTool? && action.key.Some?
    ensures var (t', answer) := ClaimTool(t, action.key.value, t.counter, OfRequest(action.tool, action.args), true,
            seat.now, seat.cfg.claimSeconds);
            Moves(seat, t, Calling(action), t',
                  if Granted(answer, t.counter) then Attempting(action, 1, Some(t.counter))
                      else Returned(action, Unclaimed(action, answer)))
  {
    hide Unclaimed, Reaches;
    var claim := t.counter;
    var (t', answer) := ClaimTool(t, action.key.value, claim, OfRequest(action.tool, action.args), true, seat.now,
        seat.cfg.claimSeconds);
    var pc' := if Granted(answer, claim) then Attempting(action, 1, Some(claim))
        else Returned(action, Unclaimed(action, answer));
    assert t'.run == t.run && t'.lease == t.lease && t'.counter == t.counter;
    hide ClaimTool;
    forall s | At(seat, s, t, Calling(action))
      ensures exists s' :: Reaches(seat.cfg, s, s') && At(seat, s', t', pc')
    {
      var s' := s.(t := t', claimTokens := s.claimTokens + {claim},
                   workers := s.workers[seat.token := s.workers[seat.token].(pc := pc')]);
      assert Next(seat.cfg, s, DoClaim(seat.token, claim, seat.now)) == Some(s');
      ReachesNext(seat.cfg, s, DoClaim(seat.token, claim, seat.now), s');
    }
  }

  lemma SettleMoves(seat: Seat, t: Tables, action: Action, result: CallResult, claim: Token)
    requires action.CallTool? && action.key.Some? && ClaimedBy(t, action.key.value, claim)
    ensures var (t', settled) := SettleCall(t, action, result, claim);
            Moves(seat, t, Settling(action, result, Some(claim)), t', Returned(action, settled))
  {
    hide Reaches;
    var pc := Settling(action, result, Some(claim));
    var (t', settled) := SettleCall(t, action, result, claim);
    forall s | At(seat, s, t, pc)
      ensures exists s' :: Reaches(seat.cfg, s, s') && At(seat, s', t', Returned(action, settled))
    {
      var s' := s.(t := t', workers := s.workers[seat.token := s.workers[seat.token].(pc := Returned(action,
          settled))]);
      assert Next(seat.cfg, s, DoSettle(seat.token)) == Some(s');
      ReachesNext(seat.cfg, s, DoSettle(seat.token), s');
    }
  }

  // ---------------------------------------------------------------- a call

  /** Where one attempt leads. */
  function AfterTrial(mode: Mode, action: Action, ending: H.Ending, n: nat, claim: Option<Token>): Pc {
    match ending
    case Works(output) => Settling(action, CallOk(output, n, false), claim)
    case Rejects => Settling(action, CallFailed(InvalidOutput, n, false), claim)
    case Cancels => Cancelling(action, claim)
    case Breaks(code, transient) =>
      if transient && n < Limit(mode) then Attempting(action, n + 1, claim)
          else Settling(action, CallFailed(code, n, transient), claim)
  }

  lemma {:induction false} TrialMoves(seat: Seat, t: Tables, action: Action, faults: seq<FaultRule>, n: nat,
      handled: H.Handled,
      claim: Option<Token>)
    requires action.CallTool?
    ensures Moves(seat, t, Attempting(action, n, claim), H.Trial(t, action, faults, n, handled),
                  AfterTrial(t.run.mode, action, H.EndingOf(action.tool, FaultFor(faults, action.tool, n), handled), n,
                      claim))
  {
    hide Moves, FaultFor, H.EndingOf, H.Closed, AfterTrial;
    var id, span, fault := AttemptId(t.run.step, action.tool, n), t.counter + 1, FaultFor(faults, action.tool, n);
    var pc, inside := Attempting(action, n, claim), InAttempt(action, n, claim, span);
    var started, opening := Append(t, Started(id, span)), H.Opened(t, id, fault);
    SayMoves(seat, t, pc, Plain, Speech(Started(id, span), inside));
    if fault.Some? {
      SayMoves(seat, started, inside, SayFault(fault.value),
          Speech(Note(span, Error, FaultInjected(id, fault.value)), inside));
      MovesOn(seat, t, pc, started, inside, opening, inside);
    }
    var ending := H.EndingOf(action.tool, fault, handled);
    ClosingMoves(seat, opening, action, n, claim, span, ending);
    MovesOn(seat, t, pc, opening, inside, H.Closed(opening, id, span, ending),
        AfterTrial(t.run.mode, action, ending, n, claim));
  }

  /** The end of an attempt. */
  lemma ClosingMoves(seat: Seat, t: Tables, action: Action, n: nat, claim: Option<Token>, span: Span, ending: H.Ending)
    requires action.CallTool?
    ensures Moves(seat, t, InAttempt(action, n, claim, span),
            H.Closed(t, AttemptId(t.run.step, action.tool, n), span, ending),
                  AfterTrial(t.run.mode, action, ending, n, claim))
  {
    hide Moves, Append;
    var id, inside, next := AttemptId(t.run.step, action.tool, n), InAttempt(action, n, claim, span),
        AfterTrial(t.run.mode, action, ending, n, claim);
    match ending
    case Works(output) => SayMoves(seat, t, inside, SaySucceeded(output),
        Speech(SucceededNote(id, span, output), next));
    case Rejects => RejectionMoves(seat, t, action, n, claim, span);
    case Breaks(code, transient) => SayMoves(seat, t, inside, SayFailed(code, transient),
        Speech(FailedNote(id, span, code, transient), next));
    case Cancels => SayMoves(seat, t, inside, SayCancelled, Speech(H.CancelledNote(id, span), next));
  }

  lemma RejectionMoves(seat: Seat, t: Tables, action: Action, n: nat, claim: Option<Token>, span: Span)
    requires action.CallTool?
    ensures Moves(seat, t, InAttempt(action, n, claim, span),
            H.Closed(t, AttemptId(t.run.step, action.tool, n), span, H.Rejects),
                  Settling(action, CallFailed(InvalidOutput, n, false), claim))
  {
    hide Moves;
    var id, inside, next := AttemptId(t.run.step, action.tool, n), InAttempt(action, n, claim, span),
        Settling(action, CallFailed(InvalidOutput, n, false), claim);
    var rejected := Append(t, Note(span, Error, OutputRejected(id)));
    SayMoves(seat, t, inside, SayRejected, Speech(Note(span, Error, OutputRejected(id)), inside));
    SayMoves(seat, rejected, inside, SayFailed(InvalidOutput, false),
        Speech(FailedNote(id, span, InvalidOutput, false), next));
    MovesOn(seat, t, inside, rejected, inside, Append(rejected, FailedNote(id, span, InvalidOutput, false)), next);
  }

  function AfterTries(action: Action, result: Option<CallResult>, claim: Option<Token>): Pc {
    match result
    case Some(done) => Settling(action, done, claim)
    case None => Cancelling(action, claim)
  }

  lemma {:induction false} TriesMove(seat: Seat, t: Tables, action: Action, faults: seq<FaultRule>,
      moments: seq<H.Moment>, n: nat, claim: Option<Token>)
    requires action.CallTool? && 1 <= n <= Limit(t.run.mode) <= |moments|
    ensures var (t', result) := H.Tries(t, action, faults, moments, n);
            Moves(seat, t, Attempting(action, n, claim), t', AfterTries(action, result, claim))
    decreases Limit(t.run.mode) - n
  {
    hide Moves, H.Trial, FaultFor, H.EndingOf;
    var moment, pc := moments[n - 1], Attempting(action, n, claim);
    TrialMoves(seat, t, action, faults, n, moment.handled, claim);
    H.TrialKeeps(t, action, faults, n, moment.handled);
    var ending, t1 := H.EndingOf(action.tool, FaultFor(faults, action.tool, n), moment.handled),
        H.Trial(t, action, faults, n, moment.handled);
    if ending.Breaks? && ending.transient && n < Limit(t.run.mode) {
      var again := Attempting(action, n + 1, claim);
      var (t', result) := H.Tries(t, action, faults, moments, n);
      if moment.rested {
        TriesMove(seat, t1, action, faults, moments, n + 1, claim);
      } else {
        SayMoves(seat, t1, again, SayCancelled,
            Speech(Note(0, Error, RetryCancelled(action.tool, n)), Cancelling(action, claim)));
      }
      MovesOn(seat, t, pc, t1, again, t', AfterTries(action, result, claim));
    }
  }

  /** Where a call leads. */
  function AfterCall(action: Action, result: Option<CallResult>): Pc {
    match result
    case Some(done) => Returned(action, done)
    case None => Leaving
  }

  /** A cancelled caller gives its claim back and leaves. */
  lemma CancelMoves(seat: Seat, t: Tables, action: Action, claim: Token)
    requires action.CallTool? && action.key.Some? && ClaimedBy(t, action.key.value, claim)
    ensures Moves(seat, t, Cancelling(action, Some(claim)), H.Settled((t, None), action, claim).0, Leaving)
  {
    hide Reaches;
    var pc, t' := Cancelling(action, Some(claim)), H.Settled((t, None), action, claim).0;
    forall s | At(seat, s, t, pc)
      ensures exists s' :: Reaches(seat.cfg, s, s') && At(seat, s', t', Leaving)
    {
      var s' := s.(t := t', workers := s.workers[seat.token := s.workers[seat.token].(pc := Leaving)]);
      assert Next(seat.cfg, s, DoSettle(seat.token)) == Some(s');
      ReachesNext(seat.cfg, s, DoSettle(seat.token), s');
    }
  }

  lemma SettledMoves(seat: Seat, t: Tables, action: Action, result: Option<CallResult>, claim: Token)
    requires action.CallTool? && action.key.Some? && ClaimedBy(t, action.key.value, claim)
    ensures var (t', done) := H.Settled((t, result), action, claim);
            Moves(seat, t, AfterTries(action, result, Some(claim)), t', AfterCall(action, done))
  {
    hide Moves, SettleCall, FailTool;
    if result.Some? {
      SettleMoves(seat, t, action, result.value, claim);
    } else {
      CancelMoves(seat, t, action, claim);
    }
  }

  /** From asking for the claim to the settled result. */
  lemma ClaimedCallMoves(seat: Seat, t: Tables, action: Action, faults: seq<FaultRule>, moments: seq<H.Moment>)
    requires action.CallTool? && action.key.Some? && Limit(t.run.mode) <= |moments|
    ensures var (claimed, answer) := ClaimTool(t, action.key.value, t.counter, OfRequest(action.tool, action.args),
            true, seat.now, seat.cfg.claimSeconds);
            claimed.run == t.run
            && var (t', result) := if Granted(answer, t.counter)
                then H.Settled(H.Tries(claimed, action, faults, moments, 1), action, t.counter)
                                   else (claimed, Some(Unclaimed(action, answer)));
               Moves(seat, t, Calling(action), t', AfterCall(action, result))
  {
    var claim := t.counter;
    var (claimed, answer) := ClaimTool(t, action.key.value, claim, OfRequest(action.tool, action.args), true, seat.now,
        seat.cfg.claimSeconds);
    H.GrantClaims(t, action.key.value, claim, OfRequest(action.tool, action.args), true, seat.now,
        seat.cfg.claimSeconds);
    hide Moves, H.Tries, H.Settled, Unclaimed, ClaimTool;
    ClaimMoves(seat, t, action);
    if Granted(answer, claim) {
      TriesMove(seat, claimed, action, faults, moments, 1, Some(claim));
      H.TriesKeep(claimed, action, faults, moments, 1);
      var (tried, result) := H.Tries(claimed, action, faults, moments, 1);
      SettledMoves(seat, tried, action, result, claim);
      var (t', done) := H.Settled((tried, result), action, claim);
      MovesOn(seat, t, Calling(action), claimed, Attempting(action, 1, Some(claim)), tried,
          AfterTries(action, result, Some(claim)));
      MovesOn(seat, t, Calling(action), tried, AfterTries(action, result, Some(claim)), t', AfterCall(action, done));
    }
  }

  /** A call past its preflight, whatever its handlers do, is a sequence of steps of `Protocol`: it
      leaves the worker with its result, or cancelled with its claim given back. */
  lemma CallsAreInterleavings(seat: Seat, t: Tables, action: Action, moments: seq<H.Moment>)
    requires action.CallTool? && PreflightCode(seat.cfg.faults, action).None? && Limit(t.run.mode) <= |moments|
    requires ConsentCode(t.approvals, t.run.step, action).None?
    ensures var (t', result) := H.CallWith(t, action, seat.cfg.faults, moments, t.counter, seat.now,
            seat.cfg.claimSeconds);
            Moves(seat, t, Cleared(action), t', AfterCall(action, result))
  {
    hide Moves, H.Tries, H.Settled, Unclaimed, ClaimTool;
    var faults := seat.cfg.faults;
    var (t', result) := H.CallWith(t, action, faults, moments, t.counter, seat.now, seat.cfg.claimSeconds);
    if action.key.None? {
      ThinkMoves(seat, t, Cleared(action), None, Attempting(action, 1, None));
      TriesMove(seat, t, action, faults, moments, 1, None);
      ThinkMoves(seat, t', AfterTries(action, result, None), None, AfterCall(action, result));
      MovesOn(seat, t, Cleared(action), t, Attempting(action, 1, None), t', AfterTries(action, result, None));
      MovesOn(seat, t, Cleared(action), t', AfterTries(action, result, None), t', AfterCall(action, result));
    } else {
      ThinkMoves(seat, t, Cleared(action), None, Calling(action));
      ClaimedCallMoves(seat, t, action, faults, moments);
      MovesOn(seat, t, Cleared(action), t, Calling(action), t', AfterCall(action, result));
    }
  }

  /** The same for the incident backend. */
  lemma CallMoves(seat: Seat, t: Tables, action: Action)
    requires action.CallTool? && PreflightCode(seat.cfg.faults, action).None?
    requires ConsentCode(t.approvals, t.run.step, action).None?
    ensures var (t', result) := Call(t, action, seat.cfg.faults, t.counter, seat.now, seat.cfg.claimSeconds);
            Moves(seat, t, Cleared(action), t', Returned(action, result))
  {
    hide Moves, Call, H.CallWith;
    CallsAreInterleavings(seat, t, action, H.BackendMoments(action));
    H.BackendCall(t, action, seat.cfg.faults, t.counter, seat.now, seat.cfg.claimSeconds);
  }

  // ---------------------------------------------------------------- one pass

  lemma FailMoves(seat: Seat, t: Tables, pc: Pc, code: Code, detail: FailureDetail, advance: bool)
    requires Planned(seat.cfg, Worker(pc, t.run)) == FailPlan(t.run, code, detail, advance) && t.run.status.Running?
    ensures Moves(seat, t, pc, Terminate(t, code, detail, advance), AtHead)
  {
    CommitMoves(seat, t, pc, FailPlan(t.run, code, detail, advance).value);
  }

  lemma PerformMoves(seat: Seat, job: Job, t: Tables, action: Action)
    requires seat.cfg == ConfigOf(job) && seat.now == job.now && action.CallTool? && t.run.status.Running?
    ensures Moves(seat, t, Cleared(action), Perform(job, t, action), AtHead)
  {
    hide Moves, Call, Terminate, Checkpoint, PreflightCode, ConsentCode;
    var failure, consent := PreflightCode(job.faults, action), ConsentCode(t.approvals, t.run.step, action);
    var (called, result) := Call(t, action, job.faults, t.counter, job.now, job.claimSeconds);
    CallKeeps(t, action, job.faults, t.counter, job.now, job.claimSeconds);
    var pc := Cleared(action);
    if failure.Some? || consent.Some? {
      RefusedCall(t, action, job);
      var code := if failure.Some? then failure.value else consent.value;
      ThinkMoves(seat, t, pc, None, Failing(code, Bare));
      FailMoves(seat, t, Failing(code, Bare), code, Bare, false);
      MovesOn(seat, t, pc, t, Failing(code, Bare), Terminate(t, code, Bare, false), AtHead);
    } else {
      CallMoves(seat, t, action);
      ReturnMoves(seat, called, action, result);
      MovesOn(seat, t, pc, called, Returned(action, result), Perform(job, t, action), AtHead);
    }
  }

  lemma RefusedCall(t: Tables, action: Action, job: Job)
    requires action.CallTool?
    requires PreflightCode(job.faults, action).Some? || ConsentCode(t.approvals, t.run.step, action).Some?
    ensures var failure, consent := PreflightCode(job.faults, action), ConsentCode(t.approvals, t.run.step, action);
            Call(t, action, job.faults, t.counter, job.now, job.claimSeconds)
            == (t, CallFailed(if failure.Some? then failure.value else consent.value, 0, false))
  {
  }

  /** The save that follows a call. */
  lemma ReturnMoves(seat: Seat, t: Tables, action: Action, result: CallResult)
    requires t.run.status.Running?
    ensures Moves(seat, t, Returned(action, result),
                  match result
                  case CallFailed(code, _, _) => Terminate(t, code, Bare, false)
                  case CallOk(output, attempts, cached) => Checkpoint(t, output, attempts, cached),
                  AtHead)
  {
    hide Moves, Save;
    match result
    case CallFailed(code, _, _) => FailMoves(seat, t, Returned(action, result), code, Bare, false);
    case CallOk(output, attempts, cached) =>
      CommitMoves(seat, t, Returned(action, result), Planned(seat.cfg, Worker(Returned(action, result), t.run)).value);
  }

  lemma CarryCallMoves(seat: Seat, job: Job, t: Tables, chosen: Action)
    requires seat.cfg == ConfigOf(job) && seat.now == job.now && chosen.CallTool? && t.run.status.Running?
    ensures Moves(seat, t, Announced(chosen), CarryCall(job, t, Stabilise(t.run.step, chosen)), AtHead)
  {
    hide Moves, Perform, PreflightCode, Terminate, Pause, Stabilise;
    var step, action := t.run.step, Stabilise(t.run.step, chosen);
    var pc, t' := Announced(chosen), CarryCall(job, t, action);
    var failure := PreflightCode(job.faults, action);
    if failure.Some? {
      var note := Note(0, Error, PreflightFailed(step, action.tool, OfAction(action), failure.value));
      SayMoves(seat, t, pc, Plain, Speech(note, Failing(failure.value, Bare)));
      FailMoves(seat, Append(t, note), Failing(failure.value, Bare), failure.value, Bare, false);
      MovesOn(seat, t, pc, Append(t, note), Failing(failure.value, Bare), t', AtHead);
    } else if RequiresApproval(action.tool) {
      ThinkMoves(seat, t, pc, None, Consulting(action));
      ConsultMoves(seat, job, t, action);
      MovesOn(seat, t, pc, t, Consulting(action), t', AtHead);
    } else {
      ThinkMoves(seat, t, pc, None, Cleared(action));
      PerformMoves(seat, job, t, action);
      MovesOn(seat, t, pc, t, Cleared(action), t', AtHead);
    }
  }

  /** The approval rows are read: wait, refuse or go on. */
  lemma ConsultMoves(seat: Seat, job: Job, t: Tables, action: Action)
    requires seat.cfg == ConfigOf(job) && seat.now == job.now && action.CallTool? && t.run.status.Running?
    requires RequiresApproval(action.tool) && PreflightCode(job.faults, action).None?
    ensures Moves(seat, t, Consulting(action), CarryCall(job, t, action), AtHead)
  {
    hide Moves, Perform, PreflightCode, Terminate, Save;
    var step, pc, t' := t.run.step, Consulting(action), CarryCall(job, t, action);
    if step !in t.approvals {
      ThinkMoves(seat, t, pc, None, Pausing(action));
      CommitMoves(seat, t, Pausing(action), Planned(seat.cfg, Worker(Pausing(action), t.run)).value);
      MovesOn(seat, t, pc, t, Pausing(action), t', AtHead);
    } else if t.approvals[step].digest != OfAction(action) || !t.approvals[step].allow {
      var code := if t.approvals[step].digest != OfAction(action) then ApprovalMismatch else ApprovalDeniedCode;
      ThinkMoves(seat, t, pc, None, Failing(code, Bare));
      FailMoves(seat, t, Failing(code, Bare), code, Bare, false);
      MovesOn(seat, t, pc, t, Failing(code, Bare), t', AtHead);
    } else {
      ThinkMoves(seat, t, pc, None, Cleared(action));
      PerformMoves(seat, job, t, action);
      MovesOn(seat, t, pc, t, Cleared(action), t', AtHead);
    }
  }

  lemma CarryMoves(seat: Seat, job: Job, t: Tables, action: Action)
    requires seat.cfg == ConfigOf(job) && seat.now == job.now && t.run.status.Running?
    ensures Moves(seat, t, Chosen(action), Carry(job, t, action), AtHead)
  {
    hide Moves, CarryCall, Stabilise, Terminate, Save;
    var note := Note(0, Fine, PolicyAction(t.run.step, action));
    var told := Append(t, note);
    SayMoves(seat, t, Chosen(action), Plain, Speech(note, Announced(action)));
    match action {
      case Finish(summary, refs, outcome) =>
        CommitMoves(seat, told, Announced(action), Planned(seat.cfg, Worker(Announced(action), told.run)).value);
      case Fail(code, explanation) => FailMoves(seat, told, Announced(action), code, Explained(explanation), true);
      case CallTool(_, _, _) => CarryCallMoves(seat, job, told, action);
    }
    MovesOn(seat, t, Chosen(action), told, Announced(action), Carry(job, t, action), AtHead);
  }

  lemma PassMoves(seat: Seat, job: Job, t: Tables)
    requires seat.cfg == ConfigOf(job) && seat.now == job.now && t.run.status.Running?
    ensures Moves(seat, t, AtHead, Pass(job, t), AtHead)
  {
    hide Moves, Carry, Terminate, Save;
    var t' := Pass(job, t);
    if t.run.pendingAction.Some? {
      var action := t.run.pendingAction.value;
      ThinkMoves(seat, t, AtHead, None, Chosen(action));
      CarryMoves(seat, job, t, action);
      MovesOn(seat, t, AtHead, t, Chosen(action), t', AtHead);
    } else if Used(t.run) >= job.budget {
      FailMoves(seat, t, AtHead, ActionBudgetExhausted, Bare, false);
    } else {
      var held := Reserve(t);
      CommitMoves(seat, t, AtHead, Planned(seat.cfg, Worker(AtHead, t.run)).value);
      InvokeMoves(seat, held);
      MovesOn(seat, t, AtHead, held, Reserved, held, Invoked);
      InvokedMoves(seat, job, held);
      MovesOn(seat, t, AtHead, held, Invoked, t', AtHead);
    }
  }

  /** What the scripted policy returns, or that it has no action left. */
  lemma InvokedMoves(seat: Seat, job: Job, t: Tables)
    requires seat.cfg == ConfigOf(job) && seat.now == job.now && t.run.status.Running?
    ensures Moves(seat, t, Invoked,
                  if t.run.step >= |job.actions|
                      then Terminate(t, PolicyError, Explained("PolicyExhaustedError"), false)
                  else Carry(job, t, job.actions[t.run.step]), AtHead)
  {
    hide Moves, Carry, Terminate;
    if t.run.step >= |job.actions| {
      var failing := Failing(PolicyError, Explained("PolicyExhaustedError"));
      ThinkMoves(seat, t, Invoked, None, failing);
      FailMoves(seat, t, failing, PolicyError, Explained("PolicyExhaustedError"), false);
      MovesOn(seat, t, Invoked, t, failing, Terminate(t, PolicyError, Explained("PolicyExhaustedError"), false),
          AtHead);
    } else {
      var action := job.actions[t.run.step];
      ThinkMoves(seat, t, Invoked, Some(action), Chosen(action));
      CarryMoves(seat, job, t, action);
      MovesOn(seat, t, Invoked, t, Chosen(action), Carry(job, t, action), AtHead);
    }
  }

  lemma {:induction false} LoopMoves(seat: Seat, job: Job, t: Tables)
    requires seat.cfg == ConfigOf(job) && seat.now == job.now
    ensures Moves(seat, t, AtHead, Loop(job, t), AtHead)
    decreases if t.run.status.Running? then 1 else 0, Remaining(job, t.run)
  {
    hide Moves, Pass;
    if t.run.status.Running? {
      PassMoves(seat, job, t);
      LoopMoves(seat, job, Pass(job, t));
      MovesOn(seat, t, AtHead, Pass(job, t), AtHead, Loop(job, t), AtHead);
    } else {
      MovesSelf(seat, t, AtHead);
    }
  }

  lemma EnterMoves(seat: Seat, t: Tables)
    ensures Moves(seat, t, AtEntry, Enter(t), AtHead)
  {
    hide Moves, Save;
    var status := t.run.status;
    if status.Queued? || status.WaitingApproval? {
      CommitMoves(seat, t, AtEntry, Planned(seat.cfg, Worker(AtEntry, t.run)).value);
    } else if status.Running? {
      SayMoves(seat, t, AtEntry, Plain, Speech(Note(0, Fine, RunRunning(Status.Running)), AtHead));
    } else {
      ThinkMoves(seat, t, AtEntry, None, AtHead);
    }
  }

  // ---------------------------------------------------------------- executions and cases

  /** Nobody holds the run, and the next claim token is free. */
  ghost predicate Idle(s: State) {
    s.t.lease.None? && forall c :: c in s.claimTokens ==> c <= s.t.counter
  }

  lemma Begins(job: Job, s: State, seat: Seat) returns (s': State)
    requires Idle(s) && seat == Seat(ConfigOf(job), seat.token, job.now, s.tokens + {seat.token})
    requires seat.token !in s.tokens && 0 < job.leaseSeconds
    ensures Reaches(seat.cfg, s, s')
    ensures At(seat, s', s.t.(lease := Some(Lease(seat.token, job.now + job.leaseSeconds))), AtEntry)
  {
    hide Reaches;
    var t := s.t.(lease := Some(Lease(seat.token, job.now + job.leaseSeconds)));
    s' := s.(t := t, tokens := seat.tokens, workers := s.workers[seat.token := Worker(AtEntry, t.run)]);
    assert Next(seat.cfg, s, DoBegin(seat.token, job.now)) == Some(s');
    ReachesNext(seat.cfg, s, DoBegin(seat.token, job.now), s');
  }

  lemma ExecutionReaches(job: Job, s: State, token: Token) returns (s': State)
    requires Idle(s) && token !in s.tokens && 0 < job.leaseSeconds
    ensures Reaches(ConfigOf(job), s, s') && Idle(s')
    ensures s'.t == ExecuteOwned(job, s.t, token) && s'.tokens == s.tokens + {token}
  {
    hide Loop, Enter, Moves, Reaches, At, Idle;
    var seat := Seat(ConfigOf(job), token, job.now, s.tokens + {token});
    var t0 := s.t.(lease := Some(Lease(token, job.now + job.leaseSeconds)));
    var s0 := Begins(job, s, seat);
    var t1 := Loop(job, Enter(t0));
    EnterMoves(seat, t0);
    LoopMoves(seat, job, Enter(t0));
    MovesOn(seat, t0, AtEntry, Enter(t0), AtHead, t1, AtHead);
    ThinkMoves(seat, t1, AtHead, None, Leaving);
    MovesOn(seat, t0, AtEntry, t1, AtHead, t1, Leaving);
    var s1 := Arrives(seat, s0, t0, AtEntry, t1, Leaving);
    ReachesOn(seat.cfg, s, s0, s1);
    s' := Leaves(seat, s1, t1);
    ReachesOn(seat.cfg, s, s1, s');
  }

  lemma Arrives(seat: Seat, s: State, t: Tables, pc: Pc, t': Tables, pc': Pc) returns (s': State)
    requires Moves(seat, t, pc, t', pc') && At(seat, s, t, pc)
    ensures Reaches(seat.cfg, s, s') && At(seat, s', t', pc')
  {
    hide At, Reaches;
    s' :| Reaches(seat.cfg, s, s') && At(seat, s', t', pc');
  }

  lemma Leaves(seat: Seat, s: State, t: Tables) returns (s': State)
    requires At(seat, s, t, Leaving)
    ensures Reaches(seat.cfg, s, s') && Idle(s') && s'.t == t.(lease := None) && s'.tokens == seat.tokens
  {
    s' := s.(workers := s.workers - {seat.token}, t := t.(lease := None));
    assert Next(seat.cfg, s, DoRelease(seat.token)) == Some(s');
    ReachesNext(seat.cfg, s, DoRelease(seat.token), s');
  }

  lemma DenialReaches(job: Job, s: State, token: Token, digest: Digest, answer: Answer) returns (s': State)
    requires Idle(s) && token !in s.tokens && 0 < job.leaseSeconds && s.t.run.status.WaitingApproval?
    requires s.t.run.step in s.t.approvals && s.t.approvals[s.t.run.step].digest == digest
    requires !s.t.approvals[s.t.run.step].allow
    ensures Reaches(ConfigOf(job), s, s') && Idle(s') && s'.t == Deny(s.t, digest, answer)
    ensures s'.tokens == s.tokens + {token}
  {
    hide Moves, Reaches, AppendAll;
    var cfg, step := ConfigOf(job), s.t.run.step;
    var seat := Seat(cfg, token, job.now, s.tokens + {token});
    var pc := Denying(step, digest, answer.actor, answer.reason);
    var t0 := s.t.(lease := Some(Lease(token, job.now + job.leaseSeconds)));
    var s0 := s.(t := t0, tokens := seat.tokens, workers := s.workers[token := Worker(pc, t0.run)]);
    assert Next(cfg, s, DoBeginDenial(token, job.now, pc)) == Some(s0);
    ReachesNext(cfg, s, DoBeginDenial(token, job.now, pc), s0);
    var plan := Planned(cfg, Worker(pc, t0.run)).value;
    CommitMoves(seat, t0, pc, plan);
    var t1 := Save(t0, plan.run, plan.notes);
    DesktopWorker.LeaseAside(s.t, t0.lease, plan.run, plan.notes);
    var s1 := Arrives(seat, s0, t0, pc, t1, Leaving);
    ReachesOn(cfg, s, s0, s1);
    s' := Leaves(seat, s1, t1);
    ReachesOn(cfg, s, s1, s');
  }

  /** The first stop, under token 0. */
  lemma FirstStopReaches(scenario: Scenario, mode: Mode, job: Job) returns (s: State)
    requires 0 < job.leaseSeconds
    ensures Reaches(ConfigOf(job), Start(mode, scenario.context), s) && Idle(s)
    ensures s.t == FirstStop(scenario, mode, job) && s.tokens == {0}
  {
    hide ExecuteOwned, Reaches;
    s := ExecutionReaches(job, Start(mode, scenario.context), 0);
  }

  /** A decision on the pending step, as the store records it. */
  lemma DecisionReaches(cfg: Config, s: State, row: ApprovalRow, t: Tables) returns (s': State)
    requires Idle(s) && Rows.Record(s.t, s.t.run.step, row, true) == Ok(t)
    ensures Reaches(cfg, s, s') && Idle(s') && s' == s.(t := t)
    ensures t.run == s.t.run && t.run.step in t.approvals && t.approvals[t.run.step] == row
  {
    s' := s.(t := t);
    ReachesNext(cfg, s, DoDecide(s.t.run.step, row), s');
  }

  /** One answer to whatever the run waits for. */
  lemma AnswerReaches(job: Job, s: State, answer: Answer, token: Token) returns (s': State)
    requires Idle(s) && token !in s.tokens && 0 < job.leaseSeconds
    ensures Reaches(ConfigOf(job), s, s') && Idle(s') && s'.tokens <= s.tokens + {token}
    ensures s'.t == Approve(job, s.t, answer, token)
  {
    hide ExecuteOwned, Reaches, Deny, Idle;
    var cfg, pending := ConfigOf(job), s.t.run.pendingDigest;
    s' := s;
    ReachesSelf(cfg, s);
    if s.t.run.status.WaitingApproval? && pending.Some? {
      var row := ApprovalRow(pending.value, answer.actor, answer.allow, answer.reason);
      var recorded := Rows.Record(s.t, s.t.run.step, row, true);
      if recorded.Ok? {
        var m := DecisionReaches(cfg, s, row, recorded.value);
        if answer.allow {
          s' := ExecutionReaches(job, m, token);
        } else {
          s' := DenialReaches(job, m, token, pending.value, answer);
        }
        ReachesOn(cfg, s, m, s');
      }
    }
  }

  /** Everything that one worker and one reviewer commit for a scenario, after any number of
      answers, is committed by an interleaving of `Protocol`. */
  lemma {:induction false} TheWorkerIsAnInterleaving(scenario: Scenario, mode: Mode, job: Job, answers: seq<Answer>)
    returns (s: State)
    requires 0 < job.leaseSeconds
    ensures Reaches(ConfigOf(job), Start(mode, scenario.context), s) && Idle(s)
    ensures s.t == E.DesktopRun(scenario, mode, job, answers) && forall x :: x in s.tokens ==> x <= |answers|
  {
    hide Reaches, FirstStop, Approve, Idle;
    if answers == [] {
      s := FirstStopReaches(scenario, mode, job);
    } else {
      var m := TheWorkerIsAnInterleaving(scenario, mode, job, answers[..|answers| - 1]);
      s := AnswerReaches(job, m, answers[|answers| - 1], |answers|);
      ReachesOn(ConfigOf(job), Start(mode, scenario.context), m, s);
    }
  }

  /** The runner's answer, if the scenario supplies one. */
  function SuiteAnswers(scenario: Scenario): seq<Answer> {
    if scenario.approvalSupplied then [Answer(REVIEWER, true, Some("frozen suite approval"))] else []
  }

  /** The runner's case is such a run. */
  lemma {:induction false} CaseIsARun(scenario: Scenario, mode: Mode, job: Job)
    ensures RunCase(scenario, mode, job) == E.DesktopRun(scenario, mode, job, SuiteAnswers(scenario))
  {
    hide ExecuteOwned, FirstStop;
    if scenario.approvalSupplied {
      var answer := Answer(REVIEWER, true, Some("frozen suite approval"));
      assert [answer][..0] == [];
      assert E.DesktopRun(scenario, mode, job, []) == FirstStop(scenario, mode, job);
      assert E.DesktopRun(scenario, mode, job, [answer]) == Approve(job, FirstStop(scenario, mode, job), answer, 1);
    }
  }

  /** What the protocol guarantees of a trace and its row: checkpoints 0, 1, ... once each, one end
      event exactly when the run ended, and before every gated attempt the announcement of its call
      and the one decision of its step, which allows exactly that call. */
  ghost predicate Orderly(t: Tables) {
    && Contiguous(t) && CheckpointSteps(t.events) == UpTo(|CheckpointSteps(t.events)|)
    && |Ends(t.events)| == (if Terminal(t.run.status) then 1 else 0)
    && forall n :: 0 <= n < |t.events| && StartsGated(t.events[n].note) ==>
         StartMatches(t.events, n) && |DecisionsAt(t.events, t.events[n].note.body.id.step)| == 1
  }

  lemma ReachedIsOrderly(cfg: Config, mode: Mode, context: Context, s: State)
    requires Reaches(cfg, Start(mode, context), s)
    ensures Orderly(s.t)
  {
    hide Execution, CheckpointSteps, Ends, StartMatches, DecisionsAt;
    var steps :| Execution(cfg, Start(mode, context), steps) == Some(s);
    ProgressIsExactlyOnce(cfg, mode, context, steps, s);
    forall n | 0 <= n < |s.t.events| && StartsGated(s.t.events[n].note)
      ensures StartMatches(s.t.events, n) && |DecisionsAt(s.t.events, s.t.events[n].note.body.id.step)| == 1
    {
      StartsMatchTheTrace(cfg, mode, context, steps, s, n);
    }
  }

  /** So the runs of one worker inherit the protocol's guarantees after any answers, and with them
      the graded ones. */
  lemma {:induction false} GradedRunsAreSafe(scenario: Scenario, mode: Mode, job: Job, answers: seq<Answer>)
    requires 0 < job.leaseSeconds
    ensures Orderly(E.DesktopRun(scenario, mode, job, answers)) && Orderly(RunCase(scenario, mode, job))
  {
    hide Reaches, E.DesktopRun, RunCase, Orderly, SuiteAnswers;
    CaseIsARun(scenario, mode, job);
    var s := TheWorkerIsAnInterleaving(scenario, mode, job, answers);
    var graded := TheWorkerIsAnInterleaving(scenario, mode, job, SuiteAnswers(scenario));
    ReachedIsOrderly(ConfigOf(job), mode, scenario.context, s);
    ReachedIsOrderly(ConfigOf(job), mode, scenario.context, graded);
  }
}
