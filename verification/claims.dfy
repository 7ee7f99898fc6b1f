/** The life of one tool claim under any sequence of store operations on its key, in any order,
    by any owners and with any clock readings (storage/store.py). */
module Claims {
  import opened Domain
  import opened Rows

  datatype ClaimOp =
    | Ask(token: Token, request: Digest, reclaim: bool, now: int, seconds: nat)
    | Finish(token: Token, output: Output)
    | Abandon(token: Token, disposition: Disposition)

  /** The rows, the tokens that were granted the key, and the completions that committed. */
  datatype History = History(t: Tables, grants: seq<Token>, completions: seq<(Token, Output)>)

  function Apply(h: History, key: Key, op: ClaimOp): History {
    match op
    case Ask(token, request, reclaim, now, seconds) =>
      var (t, answer) := ClaimTool(h.t, key, token, request, reclaim, now, seconds);
      h.(t := t, grants := if Granted(answer, token) then h.grants + [token] else h.grants)
    case Finish(token, output) =>
      (match CompleteTool(h.t, key, output, token)
       case Ok(t) => h.(t := t, completions := h.completions + [(token, output)])
       case Err(_) => h)
    case Abandon(token, disposition) =>
      (match FailTool(h.t, key, token, disposition)
       case Ok(t) => h.(t := t)
       case Err(_) => h)
  }

  function Replay(t: Tables, key: Key, ops: seq<ClaimOp>): History {
    if ops == [] then History(t, [], []) else Apply(Replay(t, key, ops[..|ops| - 1]), key, ops[|ops| - 1])
  }

  // ---------------------------------------------------------------- what no operation undoes

  /** The row of a key keeps its request; completed and non-retryable rows keep everything. */
  predicate Keeps(t: Tables, t': Tables, key: Key) {
    key in t.claims ==>
      && key in t'.claims && t'.claims[key].request == t.claims[key].request
      && (t.claims[key].state.Completed? ==> t'.claims[key] == t.claims[key])
      && (t.claims[key].state.FailedClaim? && t.claims[key].disposition != Some(Disposition.Retryable) ==>
          t'.claims[key] == t.claims[key])
  }

  lemma ApplyKeeps(h: History, key: Key, op: ClaimOp)
    ensures Keeps(h.t, Apply(h, key, op).t, key)
  {
  }

  /** Whatever is done to a claim, its request never changes, and a completed or finally
      failed claim stays exactly as it is. */
  lemma {:induction false} ClaimsAreSettledOnce(t: Tables, key: Key, ops: seq<ClaimOp>, more: seq<ClaimOp>)
    ensures Keeps(Replay(t, key, ops).t, Replay(t, key, ops + more).t, key)
  {
    if more == [] {
      assert ops + more == ops;
    } else {
      hide Apply;
      var all := ops + more;
      assert all[..|all| - 1] == ops + more[..|more| - 1];
      ClaimsAreSettledOnce(t, key, ops, more[..|more| - 1]);
      ApplyKeeps(Replay(t, key, ops + more[..|more| - 1]), key, more[|more| - 1]);
    }
  }

  // ---------------------------------------------------------------- grants and completions

  /** Every request for the key is made under a token of its own. */
  predicate FreshTokens(ops: seq<ClaimOp>) {
    forall i, j :: 0 <= i < j < |ops| && ops[i].Ask? && ops[j].Ask? ==> ops[i].token != ops[j].token
  }

  predicate Asked(ops: seq<ClaimOp>, token: Token) {
    exists i :: 0 <= i < |ops| && ops[i].Ask? && ops[i].token == token
  }

  /** The row is owned by its latest grantee, and completed exactly once or not at all. */
  predicate Accounted(h: History, key: Key) {
    if key !in h.t.claims then h.grants == [] && h.completions == []
    else
      var row := h.t.claims[key];
      && h.grants != [] && row.owner == h.grants[|h.grants| - 1]
      && h.completions == (if row.state.Completed? && row.payload.Some? then [(row.owner, row.payload.value)] else [])
      && (row.state.Completed? ==> row.payload.Some?)
  }

  lemma ApplyAccounts(h: History, key: Key, op: ClaimOp)
    requires Accounted(h, key)
    requires op.Ask? ==> forall i :: 0 <= i < |h.grants| ==> h.grants[i] != op.token
    ensures Accounted(Apply(h, key, op), key)
    ensures var h' := Apply(h, key, op); h'.grants == h.grants || (op.Ask? && h'.grants == h.grants + [op.token])
    ensures op.Ask? && !op.reclaim && h.grants != [] ==> Apply(h, key, op).grants == h.grants
  {
  }

  predicate AllAsked(ops: seq<ClaimOp>, tokens: seq<Token>) {
    forall i :: 0 <= i < |tokens| ==> Asked(ops, tokens[i])
  }

  predicate NeverReclaims(ops: seq<ClaimOp>) {
    forall i :: 0 <= i < |ops| && ops[i].Ask? ==> !ops[i].reclaim
  }

  lemma AskedBefore(ops: seq<ClaimOp>, token: Token)
    requires ops != [] && Asked(ops[..|ops| - 1], token)
    ensures Asked(ops, token)
    ensures FreshTokens(ops) && ops[|ops| - 1].Ask? ==> ops[|ops| - 1].token != token
  {
    var before := ops[..|ops| - 1];
    var j :| 0 <= j < |before| && before[j].Ask? && before[j].token == token;
    assert ops[j] == before[j];
  }

  lemma AskedLast(ops: seq<ClaimOp>)
    requires ops != [] && ops[|ops| - 1].Ask?
    ensures Asked(ops, ops[|ops| - 1].token)
  {
  }

  lemma FreshBefore(ops: seq<ClaimOp>)
    requires ops != []
    ensures FreshTokens(ops) ==> FreshTokens(ops[..|ops| - 1])
    ensures NeverReclaims(ops) ==> NeverReclaims(ops[..|ops| - 1]) && (ops[|ops| - 1].Ask? ==> !ops[|ops| - 1].reclaim)
  {
  }

  /** The invariant behind the theorem below. */
  lemma {:induction false} ReplayAccounts(t: Tables, key: Key, ops: seq<ClaimOp>)
    requires key !in t.claims && FreshTokens(ops)
    ensures var h := Replay(t, key, ops);
            Accounted(h, key) && AllAsked(ops, h.grants) && (NeverReclaims(ops) ==> |h.grants| <= 1)
  {
    if ops != [] {
      hide Apply, Accounted, FreshTokens, NeverReclaims, Asked;
      var before, op := ops[..|ops| - 1], ops[|ops| - 1];
      FreshBefore(ops);
      ReplayAccounts(t, key, before);
      var h := Replay(t, key, before);
      forall i | 0 <= i < |h.grants|
        ensures Asked(ops, h.grants[i]) && (op.Ask? ==> h.grants[i] != op.token)
      {
        AskedBefore(ops, h.grants[i]);
      }
      ApplyAccounts(h, key, op);
      if op.Ask? {
        AskedLast(ops);
      }
    }
  }

  /** On a new key: the grantees all asked, at most one completion ever commits, it is the
      latest grantee's and its output is the stored payload; and if no caller allows reclaiming,
      the key is granted at most once. */
  lemma {:induction false} OneCompletionByTheLatestGrantee(t: Tables, key: Key, ops: seq<ClaimOp>)
    requires key !in t.claims && FreshTokens(ops)
    ensures var h := Replay(t, key, ops);
            && |h.completions| <= 1 && AllAsked(ops, h.grants)
            && (h.completions != [] ==>
              && h.grants != [] && h.completions[0].0 == h.grants[|h.grants| - 1]
              && key in h.t.claims && h.t.claims[key].payload == Some(h.completions[0].1))
            && (NeverReclaims(ops) ==> |h.grants| <= 1)
  {
    hide Replay, FreshTokens, NeverReclaims, AllAsked;
    ReplayAccounts(t, key, ops);
  }
}
