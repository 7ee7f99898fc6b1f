/** The rows the store keeps for one run, and what each store transaction does to them
    (storage/store.py).  Every table is keyed by the run or by its trace, so the rows of one
    run form a record of their own.

    A transaction reads its clock before it begins; the reading is the parameter `now`, and
    nothing here assumes that it is current. */
module Rows {
  import opened Domain

  datatype Lease = Lease(owner: Token, expires: int)

  datatype ClaimState = Claimed | Completed | FailedClaim

  datatype Disposition = Retryable | TerminalFailure | Indeterminate

  datatype ClaimRow = ClaimRow(
    state: ClaimState, owner: Token, request: Digest,
    payload: Option<Output>, disposition: Option<Disposition>, expires: int)

  datatype ApprovalRow = ApprovalRow(digest: Digest, actor: string, allow: bool, reason: Option<string>)

  datatype Tables = Tables(
    run: Run, lease: Option<Lease>, counter: nat, events: seq<Event>,
    claims: map<Key, ClaimRow>, approvals: map<nat, ApprovalRow>)

  datatype StoreError =
    | RunMissing | VersionRequired | OwnershipLost | StaleVersion | LiveOwner | NotOwner
    | DecisionConflict | NotPending | ClaimLost | BadLimit

  function Fresh(run: Run): Tables {
    Tables(run.(version := 1), None, 0, [], map[], map[])
  }

  // ---------------------------------------------------------------- the trace

  /** Allocate the next sequence number and insert the event. */
  function Append(t: Tables, note: Note): Tables {
    t.(counter := t.counter + 1, events := t.events + [Event(t.counter + 1, note)])
  }

  function AppendAll(t: Tables, notes: seq<Note>): Tables {
    if notes == [] then t else Append(AppendAll(t, notes[..|notes| - 1]), notes[|notes| - 1])
  }

  /** Every trace is numbered 1, 2, ..., counter without a gap. */
  predicate Contiguous(t: Tables) {
    && t.counter == |t.events|
    && forall i :: 0 <= i < |t.events| ==> t.events[i].sequence == i + 1
  }

  lemma {:induction false} AppendAllKeeps(t: Tables, notes: seq<Note>)
    ensures var t' := AppendAll(t, notes);
            && t'.counter == t.counter + |notes|
            && |t'.events| == |t.events| + |notes|
            && t'.events[..|t.events|] == t.events
            && (forall i :: 0 <= i < |notes| ==> t'.events[|t.events| + i] == Event(t.counter + i + 1, notes[i]))
            && t' == t.(counter := t'.counter, events := t'.events)
            && (Contiguous(t) ==> Contiguous(t'))
  {
    if notes != [] {
      AppendAllKeeps(t, notes[..|notes| - 1]);
    }
  }

  lemma {:induction false} AppendOne(t: Tables, a: Note)
    ensures AppendAll(t, [a]) == Append(t, a)
  {
    assert [a][..0] == [];
  }

  lemma {:induction false} AppendTwo(t: Tables, a: Note, b: Note)
    ensures AppendAll(t, [a, b]) == Append(Append(t, a), b)
  {
    assert [a, b][..1] == [a];
    AppendOne(t, a);
  }

  lemma {:induction false} AppendThree(t: Tables, a: Note, b: Note, c: Note)
    ensures AppendAll(t, [a, b, c]) == Append(Append(Append(t, a), b), c)
  {
    assert [a, b, c][..2] == [a, b];
    AppendTwo(t, a, b);
  }

  lemma {:induction false} AppendFour(t: Tables, a: Note, b: Note, c: Note, d: Note)
    ensures AppendAll(t, [a, b, c, d]) == Append(Append(Append(Append(t, a), b), c), d)
  {
    assert [a, b, c, d][..3] == [a, b, c];
    AppendThree(t, a, b, c);
  }

  // ---------------------------------------------------------------- leases and fenced saves

  predicate Owns(lease: Option<Lease>, token: Token, now: int) {
    lease.Some? && lease.value.owner == token && now < lease.value.expires
  }

  /** `save_run_owned` and `save_run_owned_with_events`: compare-and-swap on the version,
      only under an unexpired lease, with the events in the same transaction. */
  function SaveOwned(t: Tables, run: Run, notes: seq<Note>, token: Token, expected: nat, now: int)
    : Result<Tables, StoreError>
  {
    if !Owns(t.lease, token, now) then Err(OwnershipLost)
    else if t.run.version != expected then Err(StaleVersion)
    else Ok(AppendAll(t.(run := run.(version := expected + 1)), notes))
  }

  function ClaimRun(t: Tables, token: Token, now: int, seconds: nat): Result<Tables, StoreError> {
    if t.lease.None? || t.lease.value.owner == token || t.lease.value.expires <= now
    then Ok(t.(lease := Some(Lease(token, now + seconds))))
    else Err(LiveOwner)
  }

  /** Renewal looks at the owner only: an expired lease nobody took is extended. */
  function RenewRun(t: Tables, token: Token, now: int, seconds: nat): Result<Tables, StoreError> {
    if t.lease.Some? && t.lease.value.owner == token
    then Ok(t.(lease := Some(Lease(token, now + seconds))))
    else Err(OwnershipLost)
  }

  function ReleaseRun(t: Tables, token: Token): Result<Tables, StoreError> {
    if t.lease.Some? && t.lease.value.owner == token then Ok(t.(lease := None)) else Err(NotOwner)
  }

  // ---------------------------------------------------------------- approvals

  /** `_record_approval`: one row per step, first decision wins, one audit event for it. */
  function Record(t: Tables, step: nat, row: ApprovalRow, pendingOnly: bool): Result<Tables, StoreError> {
    if step in t.approvals then
      if t.approvals[step] == row then Ok(t) else Err(DecisionConflict)
    else if pendingOnly && !PendingAt(t.run, step, row.digest) then Err(NotPending)
    else Ok(Append(t.(approvals := t.approvals[step := row]),
                   Note(t.counter + 1, Fine, ApprovalRecorded(step, row.digest, row.actor, row.allow))))
  }

  predicate PendingAt(run: Run, step: nat, digest: Digest) {
    && run.status.WaitingApproval? && run.pendingApproval
    && run.step == step && run.pendingDigest == Some(digest)
  }

  // ---------------------------------------------------------------- tool claims

  /** What `claim_tool_execution` answers: a conflict, or the row as it now stands. */
  datatype ClaimAnswer = ConflictsWith(request: Digest) | Holds(row: ClaimRow)

  predicate Granted(answer: ClaimAnswer, token: Token) {
    answer.Holds? && answer.row.state.Claimed? && answer.row.owner == token
  }

  function ClaimTool(t: Tables, key: Key, token: Token, request: Digest, reclaim: bool, now: int, seconds: nat)
    : (Tables, ClaimAnswer)
  {
    if key !in t.claims then Grant(t, key, ClaimRow(Claimed, token, request, None, None, now + seconds))
    else
      var row := t.claims[key];
      if row.request != request then (t, ConflictsWith(row.request))
      else if row.state.Claimed? && row.expires <= now then
        if reclaim then Grant(t, key, row.(owner := token, expires := now + seconds))
        else Grant(t, key, row.(state := FailedClaim, disposition := Some(Indeterminate)))
      else if row.state.FailedClaim? && row.disposition == Some(Retryable) && reclaim then
        Grant(t, key, ClaimRow(Claimed, token, request, None, None, now + seconds))
      else (t, Holds(row))
  }

  function Grant(t: Tables, key: Key, row: ClaimRow): (Tables, ClaimAnswer) {
    (t.(claims := t.claims[key := row]), Holds(row))
  }

  predicate ClaimedBy(t: Tables, key: Key, token: Token) {
    key in t.claims && t.claims[key].state.Claimed? && t.claims[key].owner == token
  }

  function CompleteTool(t: Tables, key: Key, output: Output, token: Token): Result<Tables, StoreError> {
    if ClaimedBy(t, key, token)
    then Ok(t.(claims := t.claims[key := t.claims[key].(state := Completed, payload := Some(output))]))
    else Err(ClaimLost)
  }

  function FailTool(t: Tables, key: Key, token: Token, disposition: Disposition): Result<Tables, StoreError> {
    if ClaimedBy(t, key, token)
    then Ok(t.(claims := t.claims[key := t.claims[key].(state := FailedClaim, disposition := Some(disposition))]))
    else Err(ClaimLost)
  }

  // ---------------------------------------------------------------- paging

  function After(events: seq<Event>, cursor: nat): seq<Event> {
    if events == [] then []
    else
      var rest := After(events[..|events| - 1], cursor);
      if events[|events| - 1].sequence > cursor then rest + [events[|events| - 1]] else rest
  }

  /** `list_events_page`: at most `limit` events past the cursor, and whether more exist. */
  function Page(t: Tables, cursor: nat, limit: nat): (seq<Event>, bool) {
    var rows := After(t.events, cursor);
    (if |rows| > limit then rows[..limit] else rows, |rows| > limit)
  }
}

/** The store itself: rows by run, changed in place, one method per transaction. */
module Store {
  import opened Domain
  import opened Rows

  type RunId = nat

  class RunStore {
    var rows: map<RunId, Tables>
    const leaseSeconds: nat
    const claimSeconds: nat

    constructor (leaseSeconds: nat, claimSeconds: nat)
      requires 0 < leaseSeconds && 0 < claimSeconds
      ensures rows == map[] && this.leaseSeconds == leaseSeconds && this.claimSeconds == claimSeconds
    {
      rows := map[];
      this.leaseSeconds, this.claimSeconds := leaseSeconds, claimSeconds;
    }

    /** `save_run`: insert an unknown run at version 1, or compare-and-swap a known one. */
    method SaveRun(id: RunId, run: Run, expected: Option<nat>) returns (saved: Result<Run, StoreError>)
      modifies this
      ensures id !in old(rows) ==> saved == Ok(run.(version := 1)) && rows == old(rows)[id := Fresh(run)]
      ensures id in old(rows) && expected == Some(old(rows)[id].run.version) ==>
                && saved == Ok(run.(version := expected.value + 1))
                && rows == old(rows)[id := old(rows)[id].(run := run.(version := expected.value + 1))]
      ensures id in old(rows) && expected != Some(old(rows)[id].run.version) ==> saved.Err? && rows == old(rows)
    {
      if id !in rows {
        var persisted := run.(version := 1);
        rows := rows[id := Tables(persisted, None, 0, [], map[], map[])];
        return Ok(persisted);
      }
      if expected.None? {
        return Err(VersionRequired);
      }
      if rows[id].run.version != expected.value {
        return Err(StaleVersion);
      }
      var persisted := run.(version := expected.value + 1);
      rows := rows[id := rows[id].(run := persisted)];
      saved := Ok(persisted);
    }

    /** Append one event outside any lease. */
    method AppendEvent(id: RunId, note: Note) returns (stored: Result<Event, StoreError>)
      modifies this
      ensures id in old(rows) ==>
                && rows == old(rows)[id := Append(old(rows)[id], note)]
                && stored == Ok(Event(old(rows)[id].counter + 1, note))
      ensures id !in old(rows) ==> stored == Err(RunMissing) && rows == old(rows)
    {
      if id !in rows {
        return Err(RunMissing);
      }
      var t := rows[id];
      var event := Event(t.counter + 1, note);
      rows := rows[id := t.(counter := t.counter + 1, events := t.events + [event])];
      stored := Ok(event);
    }

    method SaveRunOwned(id: RunId, run: Run, notes: seq<Note>, token: Token, expected: nat, now: int)
      returns (saved: Result<Run, StoreError>)
      modifies this
      ensures id !in old(rows) ==> saved == Err(OwnershipLost) && rows == old(rows)
      ensures id in old(rows) ==>
                match SaveOwned(old(rows)[id], run, notes, token, expected, now)
                case Ok(t) => saved == Ok(t.run) && rows == old(rows)[id := t]
                case Err(e) => saved == Err(e) && rows == old(rows)
    {
      if id !in rows || !Owns(rows[id].lease, token, now) {
        return Err(OwnershipLost);
      }
      if rows[id].run.version != expected {
        return Err(StaleVersion);
      }
      var persisted := run.(version := expected + 1);
      var t := rows[id].(run := persisted);
      ghost var start := t;
      assert notes[..0] == [];
      for i := 0 to |notes|
        invariant t == AppendAll(start, notes[..i])
      {
        assert notes[..i + 1][..i] == notes[..i];
        t := t.(counter := t.counter + 1, events := t.events + [Event(t.counter + 1, notes[i])]);
      }
      assert notes[..|notes|] == notes;
      AppendAllKeeps(start, notes);
      rows := rows[id := t];
      saved := Ok(persisted);
    }

    method ClaimRunExecution(id: RunId, token: Token, now: int) returns (claimed: Result<Run, StoreError>)
      modifies this
      ensures id !in old(rows) ==> claimed == Err(RunMissing) && rows == old(rows)
      ensures id in old(rows) ==>
                match ClaimRun(old(rows)[id], token, now, leaseSeconds)
                case Ok(t) => claimed == Ok(t.run) && rows == old(rows)[id := t]
                case Err(e) => claimed == Err(e) && rows == old(rows)
    {
      if id !in rows {
        return Err(RunMissing);
      }
      var lease := rows[id].lease;
      if lease.Some? && lease.value.owner != token && now < lease.value.expires {
        return Err(LiveOwner);
      }
      rows := rows[id := rows[id].(lease := Some(Lease(token, now + leaseSeconds)))];
      claimed := Ok(rows[id].run);
    }

    method RenewRunExecution(id: RunId, token: Token, now: int) returns (renewed: Result<Run, StoreError>)
      modifies this
      ensures id !in old(rows) ==> renewed == Err(OwnershipLost) && rows == old(rows)
      ensures id in old(rows) ==>
                match RenewRun(old(rows)[id], token, now, leaseSeconds)
                case Ok(t) => renewed == Ok(t.run) && rows == old(rows)[id := t]
                case Err(e) => renewed == Err(e) && rows == old(rows)
    {
      if id !in rows || rows[id].lease.None? || rows[id].lease.value.owner != token {
        return Err(OwnershipLost);
      }
      rows := rows[id := rows[id].(lease := Some(Lease(token, now + leaseSeconds)))];
      renewed := Ok(rows[id].run);
    }

    method ReleaseRunExecution(id: RunId, token: Token) returns (released: Result<Run, StoreError>)
      modifies this
      ensures id !in old(rows) ==> released == Err(RunMissing) && rows == old(rows)
      ensures id in old(rows) ==>
                match ReleaseRun(old(rows)[id], token)
                case Ok(t) => released == Ok(t.run) && rows == old(rows)[id := t]
                case Err(e) => released == Err(e) && rows == old(rows)
    {
      if id !in rows {
        return Err(RunMissing);
      }
      if rows[id].lease.None? || rows[id].lease.value.owner != token {
        return Err(NotOwner);
      }
      rows := rows[id := rows[id].(lease := None)];
      released := Ok(rows[id].run);
    }

    /** `record_approval`, and `record_pending_approval` when `pendingOnly`. */
    method RecordApproval(id: RunId, step: nat, row: ApprovalRow, pendingOnly: bool)
      returns (recorded: Result<ApprovalRow, StoreError>)
      modifies this
      ensures id !in old(rows) ==> recorded.Err? && rows == old(rows)
      ensures id in old(rows) ==>
                match Rows.Record(old(rows)[id], step, row, pendingOnly)
                case Ok(t) => recorded == Ok(row) && rows == old(rows)[id := t]
                case Err(e) => recorded == Err(e) && rows == old(rows)
    {
      if id !in rows {
        return Err(if pendingOnly then NotPending else RunMissing);
      }
      var t := rows[id];
      if step in t.approvals {
        return if t.approvals[step] == row then Ok(t.approvals[step]) else Err(DecisionConflict);
      }
      if pendingOnly && !PendingAt(t.run, step, row.digest) {
        return Err(NotPending);
      }
      var audit := Note(t.counter + 1, Fine, ApprovalRecorded(step, row.digest, row.actor, row.allow));
      rows := rows[id := t.(
        approvals := t.approvals[step := row],
        counter := t.counter + 1,
        events := t.events + [Event(t.counter + 1, audit)])];
      recorded := Ok(row);
    }

    method ClaimToolExecution(id: RunId, key: Key, token: Token, request: Digest, reclaim: bool, now: int)
      returns (answer: Result<ClaimAnswer, StoreError>)
      modifies this
      ensures id !in old(rows) ==> answer == Err(RunMissing) && rows == old(rows)
      ensures id in old(rows) ==>
                var (t, given) := ClaimTool(old(rows)[id], key, token, request, reclaim, now, claimSeconds);
                answer == Ok(given) && rows == old(rows)[id := t]
    {
      if id !in rows {
        return Err(RunMissing);
      }
      var t := rows[id];
      var row := ClaimRow(Claimed, token, request, None, None, now + claimSeconds);
      if key in t.claims {
        row := t.claims[key];
        if row.request != request {
          return Ok(ConflictsWith(row.request));
        }
        if row.state.Claimed? && row.expires <= now {
          row := if reclaim then row.(owner := token, expires := now + claimSeconds)
          else row.(state := FailedClaim, disposition := Some(Indeterminate));
        } else if row.state.FailedClaim? && row.disposition == Some(Retryable) && reclaim {
          row := row.(state := Claimed, owner := token, payload := None, disposition := None,
              expires := now + claimSeconds);
        } else {
          return Ok(Holds(row));
        }
      }
      rows := rows[id := t.(claims := t.claims[key := row])];
      answer := Ok(Holds(row));
    }

    method CompleteToolResult(id: RunId, key: Key, output: Output, token: Token) returns (done: Result<(), StoreError>)
      modifies this
      ensures id !in old(rows) ==> done == Err(ClaimLost) && rows == old(rows)
      ensures id in old(rows) ==>
                match CompleteTool(old(rows)[id], key, output, token)
                case Ok(t) => done == Ok(()) && rows == old(rows)[id := t]
                case Err(e) => done == Err(e) && rows == old(rows)
    {
      if id !in rows || !ClaimedBy(rows[id], key, token) {
        return Err(ClaimLost);
      }
      var t := rows[id];
      rows := rows[id := t.(claims := t.claims[key := t.claims[key].(state := Completed, payload := Some(output))])];
      done := Ok(());
    }

    method FailToolExecution(id: RunId, key: Key, token: Token, disposition: Disposition)
      returns (done: Result<(), StoreError>)
      modifies this
      ensures id !in old(rows) ==> done == Err(ClaimLost) && rows == old(rows)
      ensures id in old(rows) ==>
                match FailTool(old(rows)[id], key, token, disposition)
                case Ok(t) => done == Ok(()) && rows == old(rows)[id := t]
                case Err(e) => done == Err(e) && rows == old(rows)
    {
      if id !in rows || !ClaimedBy(rows[id], key, token) {
        return Err(ClaimLost);
      }
      var t := rows[id];
      rows := rows[id := t.(
        claims := t.claims[key := t.claims[key].(state := FailedClaim, disposition := Some(disposition))])];
      done := Ok(());
    }

    /** One cursor page: read rows in sequence order until one more than the limit is seen. */
    method ListEventsPage(id: RunId, cursor: nat, limit: nat) returns (page: Result<(seq<Event>, bool), StoreError>)
      ensures !(1 <= limit <= 100) ==> page == Err(BadLimit)
      ensures 1 <= limit <= 100 ==> page == Ok(if id in rows then Page(rows[id], cursor, limit) else ([], false))
    {
      if !(1 <= limit <= 100) {
        return Err(BadLimit);
      }
      var events := if id in rows then rows[id].events else [];
      var found: seq<Event>, more := [], false;
      assert events[..0] == [];
      for i := 0 to |events|
        invariant var all := After(events[..i], cursor);
                  found == (if |all| > limit then all[..limit] else all) && more == (|all| > limit)
      {
        assert events[..i + 1][..i] == events[..i];
        if events[i].sequence > cursor {
          if |found| < limit {
            found := found + [events[i]];
          } else {
            more := true;
          }
        }
      }
      assert events[..|events|] == events;
      page := Ok((found, more));
    }
  }
}
