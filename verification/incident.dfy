/** The incident backend prepares one rollback per idempotency token (tools/incident.py). */
module Incident {
  import opened Domain

  /** The tool's answer to a valid first call. */
  function Prepared(args: Arguments): Output {
    BackendOutput(PrepareRollback, args)
  }

  datatype Call = Call(token: Key, args: Arguments)

  /** What a sequence of calls leaves: the counter, and the answer kept for each token. */
  function Kept(calls: seq<Call>): map<Key, Output> {
    if calls == [] then map[]
    else
      var before, last := Kept(calls[..|calls| - 1]), calls[|calls| - 1];
      if last.token in before then before else before[last.token := Prepared(last.args)]
  }

  function Tokens(calls: seq<Call>): set<Key> {
    set i | 0 <= i < |calls| :: calls[i].token
  }

  /** The first call with a token decides what every later one is answered. */
  predicate First(calls: seq<Call>, i: int, token: Key) {
    0 <= i < |calls| && calls[i].token == token && forall j :: 0 <= j < i ==> calls[j].token != token
  }

  lemma FirstBefore(calls: seq<Call>, i: int, token: Key)
    requires First(calls, i, token)
    ensures i < |calls| - 1 ==> First(calls[..|calls| - 1], i, token)
    ensures i == |calls| - 1 ==> token !in Tokens(calls[..|calls| - 1])
  {
    var before := calls[..|calls| - 1];
    assert forall j :: 0 <= j < |before| ==> before[j] == calls[j];
  }

  /** As many preparations as distinct tokens, each from its first call. */
  lemma {:induction false} OnePreparationPerToken(calls: seq<Call>)
    ensures Kept(calls).Keys == Tokens(calls) && |Kept(calls)| == |Tokens(calls)|
    ensures forall i, token :: First(calls, i, token) ==>
            token in Kept(calls) && Kept(calls)[token] == Prepared(calls[i].args)
  {
    hide Prepared;
    if calls == [] {
      assert Tokens(calls) == {};
    } else {
      var before, last := calls[..|calls| - 1], calls[|calls| - 1];
      OnePreparationPerToken(before);
      assert Tokens(calls) == Tokens(before) + {last.token};
      assert |Kept(calls)| == |Kept(calls).Keys|;
      hide First, Tokens;
      forall i, token | First(calls, i, token)
        ensures token in Kept(calls) && Kept(calls)[token] == Prepared(calls[i].args)
      {
        FirstIsHere(calls, i, token);
        FirstBefore(calls, i, token);
      }
    }
  }

  lemma FirstIsHere(calls: seq<Call>, i: int, token: Key)
    requires First(calls, i, token)
    ensures 0 <= i < |calls| && calls[i].token == token
  {
  }

  class IncidentBackend {
    var rollbackPreparations: nat
    var byToken: map<Key, Output>
    ghost var calls: seq<Call>

    ghost predicate Valid()
      reads this
    {
      byToken == Kept(calls) && rollbackPreparations == |Tokens(calls)|
    }

    constructor ()
      ensures Valid() && calls == []
    {
      rollbackPreparations, byToken, calls := 0, map[], [];
    }

    /** `prepare_rollback`. */
    method PrepareRollback(args: Arguments, token: Key) returns (output: Output)
      requires Valid()
      modifies this
      ensures Valid() && calls == old(calls) + [Call(token, args)]
      ensures byToken == old(byToken)[token := output]
      ensures token in old(byToken) ==>
              output == old(byToken)[token] && rollbackPreparations == old(rollbackPreparations)
      ensures token !in old(byToken) ==>
              output == Prepared(args) && rollbackPreparations == old(rollbackPreparations) + 1
    {
      OnePreparationPerToken(calls);
      ghost var all := calls + [Call(token, args)];
      assert all[..|all| - 1] == calls;
      OnePreparationPerToken(all);
      assert Tokens(all) == Tokens(calls) + {token};
      calls := all;
      if token in byToken {
        return byToken[token];
      }
      rollbackPreparations := rollbackPreparations + 1;
      output := Prepared(args);
      byToken := byToken[token := output];
    }
  }
}
