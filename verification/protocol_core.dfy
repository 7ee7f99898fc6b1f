/** What every interleaving keeps: snapshots agree with the row they were read from, saves are
    fenced by tokens, and each commit is one move of the run's own state machine. */
module ProtocolCore {
  import opened Domain
  import opened Rows
  import opened Gateway
  import opened Protocol

  // ---------------------------------------------------------------- views of one step

  /** A commit that succeeded. */
  predicate Saved(cfg: Config, s: State, token: Token, plan: Plan, s': State) {
    && token in s.workers
    && Planned(cfg, s.workers[token]) == Some(plan)
    && s.t.lease.Some? && s.t.lease.value.owner == token
    && s.workers[token].run.version == s.t.run.version
    && s'.t == AppendAll(s.t.(run := plan.run.(version := s.t.run.version + 1)), plan.notes)
    && s'.workers == s.workers[token := Worker(plan.next, s'.t.run)]
    && s'.saves == s.saves + [token]
    && s' == s.(t := s'.t, workers := s'.workers, saves := s'.saves)
  }

  lemma CommitView(cfg: Config, s: State, token: Token, now: int, s': State) returns (plan: Plan)
    requires Commit(cfg, s, token, now) == Some(s')
    ensures token in s.workers && Planned(cfg, s.workers[token]) == Some(plan)
    ensures Saved(cfg, s, token, plan, s')
            || s' == s.(workers := s.workers[token := s.workers[token].(pc := Leaving)])
  {
    plan := Planned(cfg, s.workers[token]).value;
    hide Planned;
    AppendAllKeeps(s.t.(run := plan.run.(version := s.t.run.version + 1)), plan.notes);
  }

  /** Every step but a commit leaves the run row and the save history alone. */
  lemma OthersKeepRun(cfg: Config, s: State, step: Step, s': State)
    requires Next(cfg, s, step) == Some(s') && !step.DoCommit?
    ensures s'.t.run == s.t.run && s'.saves == s.saves
    ensures forall k :: k in s'.workers ==>
              (k in s.workers && s'.workers[k].run == s.workers[k].run) || s'.workers[k].run == s.t.run
  {
    hide Thought, Said, Commit, Unclaimed, Granted;
  }

  // ---------------------------------------------------------------- snapshots

  predicate Coherent(s: State) {
    && s.t.run.version == 1 + |s.saves|
    && (forall k :: k in s.workers ==>
      && s.workers[k].run.version <= s.t.run.version
      && (s.workers[k].run.version == s.t.run.version ==> s.workers[k].run == s.t.run))
  }

  lemma CoherentStep(cfg: Config, s: State, step: Step, s': State)
    requires Coherent(s) && Next(cfg, s, step) == Some(s')
    ensures Coherent(s')
  {
    if step.DoCommit? {
      var plan := CommitView(cfg, s, step.token, step.now, s');
      hide Next, Commit, Planned;
      if Saved(cfg, s, step.token, plan, s') {
        AppendAllKeeps(s.t.(run := plan.run.(version := s.t.run.version + 1)), plan.notes);
      }
    } else {
      OthersKeepRun(cfg, s, step, s');
      hide Next;
    }
  }

  // ---------------------------------------------------------------- fencing

  /** The saves of one token are consecutive. */
  predicate Blocks(saves: seq<Token>) {
    forall i, j, k :: 0 <= i <= j <= k < |saves| && saves[i] == saves[k] ==> saves[j] == saves[i]
  }

  predicate Fenced(s: State) {
    && (forall k :: k in s.workers ==> k in s.tokens)
    && (s.t.lease.Some? ==> s.t.lease.value.owner in s.tokens)
    && (forall i :: 0 <= i < |s.saves| ==> s.saves[i] in s.tokens)
    && Blocks(s.saves)
    && (s.t.lease.Some? && s.t.lease.value.owner in s.saves ==> s.saves[|s.saves| - 1] == s.t.lease.value.owner)
  }

  /** Outside a commit the lease keeps its owner, is dropped, or goes to a token never used. */
  lemma LeaseView(cfg: Config, s: State, step: Step, s': State)
    requires Next(cfg, s, step) == Some(s') && !step.DoCommit?
    ensures s.tokens <= s'.tokens
    ensures s'.t.lease.Some? ==>
              || (s.t.lease.Some? && s'.t.lease.value.owner == s.t.lease.value.owner)
              || (s'.t.lease.value.owner !in s.tokens && s'.t.lease.value.owner in s'.tokens)
    ensures forall k :: k in s'.workers ==> k in s.workers || k in s'.tokens
  {
    hide Thought, Said, Commit, Unclaimed, Granted;
  }

  lemma BlocksExtend(saves: seq<Token>, token: Token)
    requires Blocks(saves)
    requires token in saves ==> saves[|saves| - 1] == token
    ensures Blocks(saves + [token])
  {
  }

  lemma FencedStep(cfg: Config, s: State, step: Step, s': State)
    requires Fenced(s) && Next(cfg, s, step) == Some(s')
    ensures Fenced(s') && s.tokens <= s'.tokens
  {
    if step.DoCommit? {
      var plan := CommitView(cfg, s, step.token, step.now, s');
      hide Next, Commit, Planned, Blocks;
      if Saved(cfg, s, step.token, plan, s') {
        AppendAllKeeps(s.t.(run := plan.run.(version := s.t.run.version + 1)), plan.notes);
        BlocksExtend(s.saves, step.token);
      }
    } else {
      LeaseView(cfg, s, step, s');
      OthersKeepRun(cfg, s, step, s');
      hide Next, Blocks;
    }
  }

  /** A token that has lost the lease never holds it, and never saves, again. */
  predicate Lost(s: State, token: Token) {
    token in s.tokens && (s.t.lease.None? || s.t.lease.value.owner != token)
  }

  lemma LostStep(cfg: Config, s: State, step: Step, s': State, token: Token)
    requires Lost(s, token) && Next(cfg, s, step) == Some(s')
    ensures Lost(s', token)
    ensures s'.saves == s.saves
            || (|s'.saves| == |s.saves| + 1 && s'.saves[..|s.saves|] == s.saves && s'.saves[|s.saves|] != token)
  {
    if step.DoCommit? {
      var plan := CommitView(cfg, s, step.token, step.now, s');
      hide Next, Commit, Planned;
      if Saved(cfg, s, step.token, plan, s') {
        AppendAllKeeps(s.t.(run := plan.run.(version := s.t.run.version + 1)), plan.notes);
      }
    } else {
      LeaseView(cfg, s, step, s');
      OthersKeepRun(cfg, s, step, s');
      hide Next;
    }
  }

  // ---------------------------------------------------------------- runs

  lemma {:induction false} CoreInvariant(cfg: Config, mode: Mode, context: Context, steps: seq<Step>, s: State)
    requires Execution(cfg, Start(mode, context), steps) == Some(s)
    ensures Coherent(s) && Fenced(s)
  {
    hide Next;
    if steps != [] {
      hide Coherent, Fenced;
      var before := steps[..|steps| - 1];
      var m := Execution(cfg, Start(mode, context), before).value;
      CoreInvariant(cfg, mode, context, before, m);
      CoherentStep(cfg, m, steps[|steps| - 1], s);
      FencedStep(cfg, m, steps[|steps| - 1], s);
    }
  }

  /** In every interleaving, with any clock readings, the version counts the committed saves
      and the saves made under one lease token are consecutive. */
  lemma {:induction false} SavesAreFenced(cfg: Config, mode: Mode, context: Context, steps: seq<Step>, s: State)
    requires Execution(cfg, Start(mode, context), steps) == Some(s)
    ensures s.t.run.version == 1 + |s.saves| && Blocks(s.saves)
  {
    CoreInvariant(cfg, mode, context, steps, s);
  }

  /** A worker whose lease was dropped or taken never commits again, whatever happens next. */
  lemma {:induction false} LostWorkerNeverCommits(cfg: Config, s: State, steps: seq<Step>, s': State, token: Token)
    requires Lost(s, token) && Execution(cfg, s, steps) == Some(s')
    ensures Lost(s', token) && |s.saves| <= |s'.saves| && s'.saves[..|s.saves|] == s.saves
    ensures token !in s'.saves[|s.saves|..]
  {
    hide Next, Lost;
    if steps != [] {
      var before := steps[..|steps| - 1];
      var m := Execution(cfg, s, before).value;
      LostWorkerNeverCommits(cfg, s, before, m, token);
      LostStep(cfg, m, steps[|steps| - 1], s', token);
      if s'.saves != m.saves {
        assert s'.saves[|s.saves|..] == m.saves[|s.saves|..] + [s'.saves[|m.saves|]];
        assert s'.saves[..|s.saves|] == m.saves[..|s.saves|];
      }
    }
  }
}
