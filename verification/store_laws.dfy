/** What the store's transactions promise their callers, one pair of calls at a time. */
module StoreLaws {
  import opened Domain
  import opened Rows

  // ---------------------------------------------------------------- leases

  /** A lease can be taken from its holder exactly once its expiry has come, and from then on
      no clock reading lets the former holder save, renew or release. */
  lemma LeaseIsTakenOnlyAfterExpiry(t: Tables, holder: Token, claimant: Token, now: int, seconds: nat)
    requires t.lease.Some? && t.lease.value.owner == holder && claimant != holder
    ensures ClaimRun(t, claimant, now, seconds).Ok? <==> t.lease.value.expires <= now
    ensures match ClaimRun(t, claimant, now, seconds)
            case Err(e) => e == LiveOwner
            case Ok(t') =>
              && t'.run == t.run && t'.lease == Some(Lease(claimant, now + seconds))
              && (forall run, notes, expected: nat, later: int ::
                  SaveOwned(t', run, notes, holder, expected, later) == Err(OwnershipLost))
              && (forall later: int, more: nat :: RenewRun(t', holder, later, more) == Err(OwnershipLost))
              && ReleaseRun(t', holder) == Err(NotOwner)
  {
  }

  /** The holder may claim its own lease again at any time, and so may anyone an unheld one. */
  lemma OwnLeaseIsKept(t: Tables, token: Token, now: int, seconds: nat)
    requires t.lease.None? || t.lease.value.owner == token
    ensures ClaimRun(t, token, now, seconds) == Ok(t.(lease := Some(Lease(token, now + seconds))))
    ensures t.lease.None? ==>
            RenewRun(t, token, now, seconds) == Err(OwnershipLost) && ReleaseRun(t, token) == Err(NotOwner)
  {
  }

  /** Renewing moves the expiry, also of a lease that has expired untaken; releasing gives the
      run back to whoever asks next. */
  lemma RenewAndRelease(t: Tables, holder: Token, other: Token, now: int, seconds: nat)
    requires t.lease.Some? && t.lease.value.owner == holder && other != holder && 0 < seconds
    ensures RenewRun(t, holder, now, seconds).Ok?
    ensures var t' := RenewRun(t, holder, now, seconds).value;
            && Owns(t'.lease, holder, now)
            && (forall later: int, more: nat :: ClaimRun(t', other, later, more).Ok? <==> now + seconds <= later)
    ensures ReleaseRun(t, holder).Ok?
    ensures var t' := ReleaseRun(t, holder).value;
            forall later: int, more: nat ::
                ClaimRun(t', other, later, more) == Ok(t'.(lease := Some(Lease(other, later + more))))
  {
  }

  /** A save succeeds exactly for the live owner of the current version; it stores the run with
      the next version and appends its events, numbered on; otherwise nothing changes. */
  lemma SavesAreCompareAndSwap(t: Tables, run: Run, notes: seq<Note>, token: Token, expected: nat, now: int)
    requires Contiguous(t)
    ensures SaveOwned(t, run, notes, token, expected, now).Ok?
            <==> Owns(t.lease, token, now) && t.run.version == expected
    ensures match SaveOwned(t, run, notes, token, expected, now)
            case Err(_) => true
            case Ok(t') =>
              && t'.run == run.(version := t.run.version + 1) && t'.lease == t.lease
              && t'.claims == t.claims && t'.approvals == t.approvals && Contiguous(t')
              && |t'.events| == |t.events| + |notes| && t'.events[..|t.events|] == t.events
              && (forall i :: 0 <= i < |notes| ==> t'.events[|t.events| + i] == Event(|t.events| + i + 1, notes[i]))
              && (forall other, more, anyone: Token, later: int ::
                  SaveOwned(t', other, more, anyone, expected, later).Err?)
  {
    AppendAllKeeps(t.(run := run.(version := expected + 1)), notes);
  }

  // ---------------------------------------------------------------- approvals

  /** The first decision for a step stands: repeating it changes nothing, any other is refused,
      and the audit event is written with the row. */
  lemma FirstDecisionStands(t: Tables, step: nat, row: ApprovalRow, pendingOnly: bool, other: ApprovalRow, any: bool)
    requires Record(t, step, row, pendingOnly).Ok?
    ensures var t' := Record(t, step, row, pendingOnly).value;
            && step in t'.approvals && t'.approvals[step] == row
            && (forall k :: k in t.approvals ==> k in t'.approvals && t'.approvals[k] == t.approvals[k])
            && Record(t', step, row, any) == Ok(t')
            && (other != row ==> Record(t', step, other, any) == Err(DecisionConflict))
            && (if step in t.approvals then t' == t
                else
                  && t'.run == t.run && t'.events[..|t.events|] == t.events && |t'.events| == |t.events| + 1
                  && t'.events[|t.events|].note.body == ApprovalRecorded(step, row.digest, row.actor, row.allow))
  {
  }

  /** A first decision that answers a pause is recorded exactly for the step, the fingerprint and the
      flag that the run waits with; any other leaves the rows alone. */
  lemma OnlyPendingStepsAreDecided(t: Tables, step: nat, row: ApprovalRow)
    requires step !in t.approvals
    ensures Record(t, step, row, true).Ok?
            <==> && t.run.status.WaitingApproval? && t.run.pendingApproval
                 && t.run.step == step && t.run.pendingDigest == Some(row.digest)
    ensures Record(t, step, row, true).Err? ==> Record(t, step, row, true) == Err(NotPending)
    ensures Record(t, step, row, false).Ok?
  {
  }

  // ---------------------------------------------------------------- tool claims

  /** A new key is granted; once completed, it answers every later request: the stored output
      to the same request, a conflict to any other, and nobody completes or fails it again. */
  lemma CompletedClaimAnswers(t: Tables, key: Key, token: Token, request: Digest, output: Output, now: int,
      seconds: nat,
                              other: Token, asked: Digest, reclaim: bool, later: int, more: nat)
    requires key !in t.claims
    ensures var (claimed, answer) := ClaimTool(t, key, token, request, reclaim, now, seconds);
            && Granted(answer, token) && CompleteTool(claimed, key, output, token).Ok?
            && var done := CompleteTool(claimed, key, output, token).value;
               && (asked == request ==>
                    var (same, held) := ClaimTool(done, key, other, asked, reclaim, later, more);
                    same == done && held.Holds? && held.row.state.Completed? && held.row.payload == Some(output))
               && (asked != request ==>
                   ClaimTool(done, key, other, asked, reclaim, later, more) == (done, ConflictsWith(request)))
               && (forall again, anyone: Token :: CompleteTool(done, key, again, anyone) == Err(ClaimLost))
               && (forall disposition, anyone: Token :: FailTool(done, key, anyone, disposition) == Err(ClaimLost))
  {
  }

  /** A live claim is nobody else's; an expired one is handed over if the caller may reclaim,
      and otherwise marked indeterminate for good. */
  lemma ExpiredClaim(t: Tables, key: Key, token: Token, now: int, seconds: nat)
    requires key in t.claims && t.claims[key].state.Claimed? && t.claims[key].owner != token
    ensures var row := t.claims[key];
            var (kept, refused) := ClaimTool(t, key, token, row.request, true, now, seconds);
            Granted(refused, token) <==> row.expires <= now
    ensures var row := t.claims[key];
            var (marked, answer) := ClaimTool(t, key, token, row.request, false, now, seconds);
            && !Granted(answer, token)
            && (row.expires <= now ==> forall anyone: Token, later: int, more: nat, reclaim: bool ::
                  ClaimTool(marked, key, anyone, row.request, reclaim, later, more)
                      == (marked, Holds(marked.claims[key]))
                  && marked.claims[key].state.FailedClaim? && marked.claims[key].disposition == Some(Indeterminate))
  {
  }

  /** Whoever is granted a claim holds it, for its request, until the lease given to it runs out: before
      that nobody else is granted it, from then on whoever may reclaim. */
  lemma GrantsAreLeased(t: Tables, key: Key, token: Token, request: Digest, reclaim: bool, now: int, seconds: nat,
      other: Token, again: bool, later: int, more: nat)
    requires key in t.claims ==> t.claims[key].owner != token
    requires Granted(ClaimTool(t, key, token, request, reclaim, now, seconds).1, token) && other != token
    ensures var (t', answer) := ClaimTool(t, key, token, request, reclaim, now, seconds);
            && t' == t.(claims := t.claims[key := answer.row])
            && answer.row.owner == token && answer.row.request == request && answer.row.expires == now + seconds
            && (Granted(ClaimTool(t', key, other, request, again, later, more).1, other)
                <==> again && now + seconds <= later)
            && (key in t.claims ==> t.claims[key].request == request && reclaim)
  {
  }
}
