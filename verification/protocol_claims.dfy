/** Tool calls under every interleaving: every success reported for a key is the one output its
    claim was completed with. */
module ProtocolClaims {
  import opened Domain
  import opened Rows
  import opened Gateway
  import opened Protocol
  import opened ProtocolCore

  /** The claim of the action is completed with this output, for this very request. */
  predicate CompletedWith(t: Tables, action: Action, output: Output)
    requires action.CallTool? && action.key.Some?
  {
    && action.key.value in t.claims && t.claims[action.key.value].state.Completed?
    && t.claims[action.key.value].payload == Some(output)
    && t.claims[action.key.value].request == OfRequest(action.tool, action.args)
  }

  /** A worker carries a claim exactly for an action with a key, whose row is its request's. */
  predicate Bound(t: Tables, action: Action, claim: Option<Token>) {
    && action.CallTool? && (claim.None? <==> action.key.None?)
    && (action.key.Some? ==>
      action.key.value in t.claims && t.claims[action.key.value].request == OfRequest(action.tool, action.args))
  }

  predicate ClaimOk(t: Tables, pc: Pc) {
    match pc
    case Attempting(action, _, claim) => Bound(t, action, claim)
    case InAttempt(action, _, claim, _) => Bound(t, action, claim)
    case Settling(action, _, claim) => Bound(t, action, claim)
    case Cancelling(action, claim) => Bound(t, action, claim)
    case Returned(action, CallOk(output, _, _)) => action.CallTool?
        && (action.key.Some? ==> CompletedWith(t, action, output))
    case _ => true
  }

  predicate ClaimsOk(s: State) {
    && (forall k :: k in s.workers ==> ClaimOk(s.t, s.workers[k].pc))
    && (forall k :: k in s.t.claims && s.t.claims[k].state.Completed? ==> s.t.claims[k].payload.Some?)
  }

  /** No row loses its request, and no completed row changes. */
  predicate Settles(t: Tables, t': Tables) {
    forall k :: k in t.claims ==>
      && k in t'.claims && t'.claims[k].request == t.claims[k].request
      && (t.claims[k].state.Completed? ==> t'.claims[k] == t.claims[k])
  }

  lemma SettlesKeeps(t: Tables, t': Tables, pc: Pc)
    requires ClaimOk(t, pc) && Settles(t, t')
    ensures ClaimOk(t', pc)
  {
  }

  // ---------------------------------------------------------------- one step

  lemma QuietClaims(cfg: Config, s: State, step: Step, s': State)
    requires Next(cfg, s, step) == Some(s') && !step.DoClaim? && !step.DoSettle?
    ensures s'.t.claims == s.t.claims
  {
    if step.DoCommit? {
      var plan := CommitView(cfg, s, step.token, step.now, s');
      AppendAllKeeps(s.t.(run := plan.run.(version := s.t.run.version + 1)), plan.notes);
      hide Next, Commit, Planned, AppendAll;
    } else {
      hide Thought, Said, Commit, Unclaimed, Granted;
    }
  }

  lemma PlanOk(cfg: Config, t: Tables, w: Worker, plan: Plan)
    requires Planned(cfg, w) == Some(plan)
    ensures ClaimOk(t, plan.next)
  {
  }

  lemma ThoughtOk(cfg: Config, t: Tables, w: Worker, choice: Option<Action>, pc: Pc)
    requires ClaimOk(t, w.pc) && Thought(cfg, t, w, choice) == Some(pc)
    ensures ClaimOk(t, pc)
  {
    hide ConsentCode;
  }

  lemma SaidOk(cfg: Config, t: Tables, w: Worker, counter: nat, saying: Saying, speech: Speech)
    requires ClaimOk(t, w.pc) && Said(cfg, w, counter, saying) == Some(speech)
    ensures ClaimOk(t, speech.next)
  {
  }

  /** The other steps that change no claim leave each worker where it is, or nowhere that
      concerns a claim. */
  lemma RestClaims(cfg: Config, s: State, step: Step, s': State)
    requires Next(cfg, s, step) == Some(s')
    requires !step.DoCommit? && !step.DoThink? && !step.DoSay? && !step.DoClaim? && !step.DoSettle?
    ensures forall k :: k in s'.workers ==>
              (k in s.workers && s'.workers[k].pc == s.workers[k].pc) || s'.workers[k].pc.Leaving?
                  || s'.workers[k].pc.Invoked?
              || s'.workers[k].pc.AtEntry? || s'.workers[k].pc.Denying?
  {
    hide Record;
  }

  lemma QuietStep(cfg: Config, s: State, step: Step, s': State)
    requires ClaimsOk(s) && Next(cfg, s, step) == Some(s') && !step.DoClaim? && !step.DoSettle?
    ensures ClaimsOk(s') && Settles(s.t, s'.t)
  {
    QuietClaims(cfg, s, step, s');
    assert forall pc :: ClaimOk(s.t, pc) ==> ClaimOk(s'.t, pc);
    if step.DoCommit? {
      var plan := CommitView(cfg, s, step.token, step.now, s');
      PlanOk(cfg, s.t, s.workers[step.token], plan);
      assert ClaimOk(s.t, Leaving);
      hide Next, Commit, Planned, ClaimOk, AppendAll;
    } else if step.DoThink? {
      ThoughtOk(cfg, s.t, s.workers[step.token], step.choice,
          Thought(cfg, s.t, s.workers[step.token], step.choice).value);
      hide Thought, ClaimOk;
    } else if step.DoSay? {
      SaidOk(cfg, s.t, s.workers[step.token], s.t.counter, step.saying,
          Said(cfg, s.workers[step.token], s.t.counter, step.saying).value);
      hide Said, ClaimOk;
    } else {
      RestClaims(cfg, s, step, s');
      hide Next;
    }
  }

  lemma ClaimSettles(t: Tables, key: Key, token: Token, request: Digest, reclaim: bool, now: int, seconds: nat)
    ensures Settles(t, ClaimTool(t, key, token, request, reclaim, now, seconds).0)
  {
  }

  /** The worker that asked: granted and bound to its request, or answered. */
  lemma AskedOk(t: Tables, action: Action, claim: Token, now: int, seconds: nat)
    requires action.CallTool? && action.key.Some?
    requires forall k :: k in t.claims && t.claims[k].state.Completed? ==> t.claims[k].payload.Some?
    ensures var (t', answer) := ClaimTool(t, action.key.value, claim, OfRequest(action.tool, action.args), true, now,
            seconds);
            && (forall k :: k in t'.claims && t'.claims[k].state.Completed? ==> t'.claims[k].payload.Some?)
            && ClaimOk(t', if Granted(answer, claim) then Attempting(action, 1, Some(claim))
                else Returned(action, Unclaimed(action, answer)))
  {
  }

  lemma ClaimStep(cfg: Config, s: State, token: Token, claim: Token, now: int, s': State)
    requires ClaimsOk(s) && ClaimKey(cfg, s, token, claim, now) == Some(s')
    ensures ClaimsOk(s') && Settles(s.t, s'.t)
  {
    var action := s.workers[token].pc.action;
    hide ClaimTool, Granted, Unclaimed, ClaimOk, Settles;
    ClaimSettles(s.t, action.key.value, claim, OfRequest(action.tool, action.args), true, now, cfg.claimSeconds);
    AskedOk(s.t, action, claim, now, cfg.claimSeconds);
    forall k | k in s'.workers
      ensures ClaimOk(s'.t, s'.workers[k].pc)
    {
      if k != token {
        SettlesKeeps(s.t, s'.t, s.workers[k].pc);
      }
    }
  }

  lemma SettledOk(t: Tables, action: Action, result: CallResult, claim: Token)
    requires Bound(t, action, Some(claim)) && result.CallOk?
    requires forall k :: k in t.claims && t.claims[k].state.Completed? ==> t.claims[k].payload.Some?
    ensures var (t', settled) := SettleCall(t, action, result, claim);
            && Settles(t, t') && ClaimOk(t', Returned(action, settled))
            && (forall k :: k in t'.claims && t'.claims[k].state.Completed? ==> t'.claims[k].payload.Some?)
  {
  }

  lemma FailedOk(t: Tables, action: Action, claim: Token, disposition: Disposition, t': Tables)
    requires Bound(t, action, Some(claim)) && FailTool(t, action.key.value, claim, disposition) == Ok(t')
    requires forall k :: k in t.claims && t.claims[k].state.Completed? ==> t.claims[k].payload.Some?
    ensures Settles(t, t') && forall k :: k in t'.claims && t'.claims[k].state.Completed? ==> t'.claims[k].payload.Some?
  {
  }

  lemma SettleStep(cfg: Config, s: State, token: Token, s': State)
    requires ClaimsOk(s) && Settle(s, token) == Some(s')
    ensures ClaimsOk(s') && Settles(s.t, s'.t)
  {
    var pc := s.workers[token].pc;
    assert ClaimOk(s.t, pc);
    assert ClaimOk(s.t, Leaving) && Settles(s.t, s.t);
    if pc.Settling? && pc.result.CallOk? {
      SettledOk(s.t, pc.action, pc.result, pc.claim.value);
    } else if pc.Settling? {
      var failed := FailTool(s.t, pc.action.key.value, pc.claim.value,
          FailureDisposition(pc.action.tool, pc.result.retryable));
      if failed.Ok? { FailedOk(s.t, pc.action, pc.claim.value, FailureDisposition(pc.action.tool, pc.result.retryable),
          failed.value); }
    } else {
      var failed := FailTool(s.t, pc.action.key.value, pc.claim.value, Disposition.Retryable);
      if failed.Ok? { FailedOk(s.t, pc.action, pc.claim.value, Disposition.Retryable, failed.value); }
    }
    hide SettleCall, FailTool, Settles, Bound, CompletedWith;
    forall k | k in s'.workers
      ensures ClaimOk(s'.t, s'.workers[k].pc)
    {
      if k != token {
        SettlesKeeps(s.t, s'.t, s.workers[k].pc);
      }
    }
  }

  lemma ClaimsStep(cfg: Config, s: State, step: Step, s': State)
    requires ClaimsOk(s) && Next(cfg, s, step) == Some(s')
    ensures ClaimsOk(s') && Settles(s.t, s'.t)
  {
    hide ClaimsOk, Settles, ClaimKey, Settle;
    if step.DoClaim? {
      ClaimStep(cfg, s, step.token, step.claim, step.now, s');
    } else if step.DoSettle? {
      SettleStep(cfg, s, step.token, s');
    } else {
      hide Next;
      QuietStep(cfg, s, step, s');
    }
  }

  // ---------------------------------------------------------------- every interleaving

  lemma {:induction false} ClaimsHold(cfg: Config, mode: Mode, context: Context, steps: seq<Step>, s: State)
    requires Execution(cfg, Start(mode, context), steps) == Some(s)
    ensures ClaimsOk(s)
  {
    hide Next;
    if steps != [] {
      hide ClaimsOk;
      var m := Execution(cfg, Start(mode, context), steps[..|steps| - 1]).value;
      ClaimsHold(cfg, mode, context, steps[..|steps| - 1], m);
      ClaimsStep(cfg, m, steps[|steps| - 1], s);
    }
  }

  lemma {:induction false} ClaimsSettle(cfg: Config, s: State, steps: seq<Step>, s': State)
    requires ClaimsOk(s) && Execution(cfg, s, steps) == Some(s')
    ensures ClaimsOk(s') && Settles(s.t, s'.t)
  {
    hide Next;
    if steps != [] {
      hide ClaimsOk;
      var m := Execution(cfg, s, steps[..|steps| - 1]).value;
      ClaimsSettle(cfg, s, steps[..|steps| - 1], m);
      ClaimsStep(cfg, m, steps[|steps| - 1], s');
    }
  }

  /** Two successful calls under one key, by any workers at any two moments of a run, report
      the same output, and were calls of the same tool with the same arguments, whatever the
      handlers returned to the attempts in between. */
  lemma {:induction false} SuccessesAgree(cfg: Config, mode: Mode, context: Context, steps: seq<Step>, s: State,
      more: seq<Step>,
      s': State,
                       first: Token, second: Token)
    requires Execution(cfg, Start(mode, context), steps) == Some(s) && Execution(cfg, s, more) == Some(s')
    requires first in s.workers && s.workers[first].pc.Returned? && s.workers[first].pc.result.CallOk?
    requires second in s'.workers && s'.workers[second].pc.Returned? && s'.workers[second].pc.result.CallOk?
    requires s.workers[first].pc.action.CallTool? && s'.workers[second].pc.action.CallTool?
    requires s.workers[first].pc.action.key.Some? && s'.workers[second].pc.action.key == s.workers[first].pc.action.key
    ensures s'.workers[second].pc.result.output == s.workers[first].pc.result.output
    ensures s'.workers[second].pc.action.tool == s.workers[first].pc.action.tool
    ensures s'.workers[second].pc.action.args == s.workers[first].pc.action.args
  {
    ClaimsHold(cfg, mode, context, steps, s);
    ClaimsSettle(cfg, s, more, s');
    hide Execution;
    assert ClaimOk(s.t, s.workers[first].pc);
    assert ClaimOk(s'.t, s'.workers[second].pc);
  }
}
