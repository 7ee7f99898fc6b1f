/** The reference-counted lock table under every interleaving of threads (api/services.py).

    One step is one access to the guard, the table, a counter or an entry's lock. */
module Locks {
  import opened Domain

  type Thread = nat
  type RunId = nat
  type EntryId = nat

  /** Where a thread is in `hold(run)`. */
  datatype Pc =
    | Idle
    | Entering(run: RunId)
    | Found(run: RunId, entry: EntryId)
    | Waiting(run: RunId, entry: EntryId)
    | Inside(run: RunId, entry: EntryId)
    | Exiting(run: RunId, entry: EntryId)
    | Dropping(run: RunId, entry: EntryId)
    | Dropped(run: RunId, entry: EntryId)

  datatype LockEntry = LockEntry(users: int, holder: Option<Thread>)

  datatype State = State(
    table: map<RunId, EntryId>, entries: map<EntryId, LockEntry>, guard: Option<Thread>, threads: map<Thread, Pc>)

  const EMPTY := State(map[], map[], None, map[])

  function PcOf(s: State, thread: Thread): Pc {
    if thread in s.threads then s.threads[thread] else Idle
  }

  function At(s: State, thread: Thread, pc: Pc): State {
    s.(threads := s.threads[thread := pc])
  }

  function Users(s: State, entry: EntryId, users: int): State
    requires entry in s.entries
  {
    s.(entries := s.entries[entry := s.entries[entry].(users := users)])
  }

  function Holder(s: State, entry: EntryId, holder: Option<Thread>): State
    requires entry in s.entries
  {
    s.(entries := s.entries[entry := s.entries[entry].(holder := holder)])
  }

  /** The next access of a thread; `run` is what an idle thread asks for, `spare` the identity
      of the entry it would create.  None when the thread has to wait. */
  function Next(s: State, thread: Thread, run: RunId, spare: EntryId): Option<State> {
    match PcOf(s, thread)
    case Idle => if s.guard.Some? then None else Some(At(s.(guard := Some(thread)), thread, Entering(run)))
    case Entering(run) =>
      if run in s.table then Some(At(s, thread, Found(run, s.table[run])))
      else if spare in s.entries then None
      else Some(At(s.(table := s.table[run := spare], entries := s.entries[spare := LockEntry(0, None)]), thread,
          Found(run, spare)))
    case Found(run, entry) =>
      if entry !in s.entries then None
      else Some(At(Users(s, entry, s.entries[entry].users + 1).(guard := None), thread, Waiting(run, entry)))
    case Waiting(run, entry) =>
      if entry !in s.entries || s.entries[entry].holder.Some? then None
      else Some(At(Holder(s, entry, Some(thread)), thread, Inside(run, entry)))
    case Inside(run, entry) =>
      if entry !in s.entries then None else Some(At(Holder(s, entry, None), thread, Exiting(run, entry)))
    case Exiting(run, entry) => if s.guard.Some? then None
        else Some(At(s.(guard := Some(thread)), thread, Dropping(run, entry)))
    case Dropping(run, entry) =>
      if entry !in s.entries then None
      else Some(At(Users(s, entry, s.entries[entry].users - 1), thread, Dropped(run, entry)))
    case Dropped(run, entry) =>
      if entry !in s.entries then None
      else
        var evict := s.entries[entry].users == 0 && run in s.table && s.table[run] == entry;
        Some(At(s.(table := if evict then s.table - {run} else s.table, guard := None), thread, Idle))
  }

  datatype Move = Move(thread: Thread, run: RunId, spare: EntryId)

  function Schedule(moves: seq<Move>): Option<State> {
    if moves == [] then Some(EMPTY)
    else
      var last := moves[|moves| - 1];
      match Schedule(moves[..|moves| - 1])
      case None => None
      case Some(s) => Next(s, last.thread, last.run, last.spare)
  }

  // ---------------------------------------------------------------- the invariant

  predicate Guarded(pc: Pc) {
    pc.Entering? || pc.Found? || pc.Dropping? || pc.Dropped?
  }

  predicate Uses(pc: Pc) {
    !pc.Idle? && !pc.Entering?
  }

  /** Counted in the entry's users. */
  predicate Counted(pc: Pc, entry: EntryId) {
    (pc.Waiting? || pc.Inside? || pc.Exiting? || pc.Dropping?) && pc.entry == entry
  }

  function Counters(s: State, entry: EntryId): set<Thread> {
    set th | th in s.threads && Counted(s.threads[th], entry)
  }

  predicate GuardOk(s: State) {
    forall th :: th in s.threads ==> (Guarded(s.threads[th]) <==> s.guard == Some(th))
  }

  /** Whoever has an entry shares it with everybody else who uses its run. */
  predicate Shared(s: State) {
    && (forall th :: th in s.threads && Uses(s.threads[th]) ==>
          s.threads[th].run in s.table && s.table[s.threads[th].run] == s.threads[th].entry)
    && (forall r :: r in s.table ==> s.table[r] in s.entries)
    && (forall q, r :: q in s.table && r in s.table && s.table[q] == s.table[r] ==> q == r)
    && (s.guard.Some? ==> s.guard.value in s.threads)
  }

  predicate HoldersOk(s: State) {
    && (forall th :: th in s.threads && s.threads[th].Inside? ==>
          s.threads[th].entry in s.entries && s.entries[s.threads[th].entry].holder == Some(th))
    && (forall e :: e in s.entries && s.entries[e].holder.Some? ==>
          var th := s.entries[e].holder.value; th in s.threads && s.threads[th].Inside? && s.threads[th].entry == e)
  }

  predicate CountsOk(s: State) {
    forall e :: e in s.entries ==> s.entries[e].users == |Counters(s, e)|
  }

  /** An entry stays in the table only while someone counts on it or is about to. */
  predicate Needed(s: State) {
    forall r :: r in s.table ==>
      || (s.table[r] in s.entries && s.entries[s.table[r]].users > 0)
      || (s.guard.Some? && s.guard.value in s.threads && Uses(s.threads[s.guard.value])
          && s.threads[s.guard.value].run == r)
  }

  predicate Inv(s: State) {
    GuardOk(s) && Shared(s) && HoldersOk(s) && CountsOk(s) && Needed(s)
  }

  /** Two sets that agree but on one member. */
  lemma CountsBut(before: set<Thread>, after: set<Thread>, thread: Thread)
    requires before - {thread} == after - {thread}
    ensures |after| == |before| - (if thread in before then 1 else 0) + (if thread in after then 1 else 0)
  {
    var rest := before - {thread};
    assert before == if thread in before then rest + {thread} else rest;
    assert after == if thread in after then rest + {thread} else rest;
  }

  lemma Recount(s: State, s': State, thread: Thread, entry: EntryId)
    requires s'.threads == s.threads[thread := PcOf(s', thread)]
    ensures |Counters(s', entry)| == |Counters(s, entry)|
              - (if Counted(PcOf(s, thread), entry) then 1 else 0) + (if Counted(PcOf(s', thread), entry) then 1 else 0)
  {
    hide Counted;
    Member(s, thread, entry);
    Member(s', thread, entry);
    CountsBut(Counters(s, entry), Counters(s', entry), thread);
  }

  lemma Member(s: State, thread: Thread, entry: EntryId)
    ensures thread in Counters(s, entry) <==> Counted(PcOf(s, thread), entry)
  {
  }

  lemma OneMoves(s: State, thread: Thread, run: RunId, spare: EntryId, s': State)
    requires Next(s, thread, run, spare) == Some(s')
    ensures s'.threads == s.threads[thread := PcOf(s', thread)]
  {
  }

  lemma NewEntries(s: State, thread: Thread, run: RunId, spare: EntryId, s': State)
    requires Next(s, thread, run, spare) == Some(s')
    ensures forall e :: e in s.entries ==> e in s'.entries
    ensures forall e :: e in s'.entries && e !in s.entries ==> s'.entries[e].users == 0 && !Counted(PcOf(s', thread), e)
  {
  }

  /** Every step moves one thread, and changes a counter exactly as it starts or stops counting. */
  lemma StepView(s: State, thread: Thread, run: RunId, spare: EntryId, s': State)
    requires Next(s, thread, run, spare) == Some(s')
    ensures s'.threads == s.threads[thread := PcOf(s', thread)]
    ensures forall e :: e in s.entries ==>
              e in s'.entries && s'.entries[e].users == s.entries[e].users
                - (if Counted(PcOf(s, thread), e) then 1 else 0) + (if Counted(PcOf(s', thread), e) then 1 else 0)
    ensures forall e :: e in s'.entries && e !in s.entries ==> s'.entries[e].users == 0 && !Counted(PcOf(s', thread), e)
  {
    OneMoves(s, thread, run, spare, s');
    NewEntries(s, thread, run, spare, s');
  }

  lemma CountsStep(s: State, thread: Thread, run: RunId, spare: EntryId, s': State)
    requires Inv(s) && Next(s, thread, run, spare) == Some(s')
    ensures CountsOk(s')
  {
    StepView(s, thread, run, spare, s');
    hide Next, Needed, HoldersOk, GuardOk, Counted;
    forall e | e in s'.entries
      ensures s'.entries[e].users == |Counters(s', e)|
    {
      Recount(s, s', thread, e);
      if e !in s.entries {
        NobodyCounts(s, e);
        Member(s, thread, e);
      }
      hide Counters, Shared;
    }
  }

  lemma NobodyCounts(s: State, entry: EntryId)
    requires Shared(s) && entry !in s.entries
    ensures Counters(s, entry) == {}
  {
  }

  /** A step that leaves the table alone moves its thread within one use. */
  lemma SameTable(s: State, thread: Thread, s': State)
    requires Shared(s) && s'.table == s.table && s'.threads == s.threads[thread := PcOf(s', thread)]
    requires forall e :: e in s.entries ==> e in s'.entries
    requires Uses(PcOf(s', thread)) ==>
             Uses(PcOf(s, thread)) && PcOf(s', thread).run == PcOf(s, thread).run
                 && PcOf(s', thread).entry == PcOf(s, thread).entry
    requires s'.guard.Some? ==> s'.guard.value in s'.threads
    ensures Shared(s')
  {
  }

  lemma EnteringShares(s: State, thread: Thread, run: RunId, spare: EntryId, s': State)
    requires Shared(s) && PcOf(s, thread).Entering? && Next(s, thread, run, spare) == Some(s')
    ensures Shared(s')
  {
  }

  lemma DroppedShares(s: State, thread: Thread, run: RunId, spare: EntryId, s': State)
    requires Shared(s) && PcOf(s, thread).Dropped? && Next(s, thread, run, spare) == Some(s')
    requires s.entries[PcOf(s, thread).entry].users == 0 ==>
               forall th :: th in s.threads && th != thread && Uses(s.threads[th]) ==>
                   s.threads[th].entry != PcOf(s, thread).entry
    ensures Shared(s')
  {
  }

  lemma StaysInUse(s: State, thread: Thread, run: RunId, spare: EntryId, s': State)
    requires Shared(s) && Next(s, thread, run, spare) == Some(s') && !PcOf(s, thread).Dropped?
    requires !PcOf(s, thread).Entering?
    ensures s'.table == s.table
    ensures forall e :: e in s.entries ==> e in s'.entries
    ensures (s'.guard.Some? ==> s'.guard.value in s'.threads)
    ensures var pc, pc' := PcOf(s, thread), PcOf(s', thread);
            Uses(pc') ==> Uses(pc) && pc'.run == pc.run && pc'.entry == pc.entry
  {
  }

  lemma SharedStep(s: State, thread: Thread, run: RunId, spare: EntryId, s': State)
    requires Inv(s) && Next(s, thread, run, spare) == Some(s')
    ensures Shared(s')
  {
    if PcOf(s, thread).Dropped? {
      DroppedIsLast(s, thread);
      hide Next, CountsOk, Needed, HoldersOk, GuardOk, Uses;
      DroppedShares(s, thread, run, spare, s');
    } else if PcOf(s, thread).Entering? {
      hide Next, CountsOk, Needed, HoldersOk, GuardOk, Shared;
      EnteringShares(s, thread, run, spare, s');
    } else {
      hide CountsOk, Needed, HoldersOk, GuardOk, Shared, Next;
      OneMoves(s, thread, run, spare, s');
      StaysInUse(s, thread, run, spare, s');
      SameTable(s, thread, s');
    }
  }

  /** Only the thread at the guard can find its entry's counter at zero while it uses it. */
  lemma DroppedIsLast(s: State, thread: Thread)
    requires Inv(s) && PcOf(s, thread).Dropped?
    ensures var pc := PcOf(s, thread);
            pc.entry in s.entries && (s.entries[pc.entry].users == 0 ==>
              forall th :: th in s.threads && th != thread && Uses(s.threads[th]) ==> s.threads[th].entry != pc.entry)
  {
    var pc := PcOf(s, thread);
    if s.entries[pc.entry].users == 0 {
      assert Counters(s, pc.entry) == {};
      forall th | th in s.threads && th != thread && Uses(s.threads[th])
        ensures s.threads[th].entry != pc.entry
      {
        assert th !in Counters(s, pc.entry);
        assert !Guarded(s.threads[th]);
      }
    }
  }

  lemma GuardStep(s: State, thread: Thread, run: RunId, spare: EntryId, s': State)
    requires Inv(s) && Next(s, thread, run, spare) == Some(s')
    ensures GuardOk(s')
  {
    hide CountsOk, Needed, HoldersOk;
  }

  /** Taking or giving back an entry's lock; the other steps touch no holder. */
  lemma HolderView(s: State, thread: Thread, run: RunId, spare: EntryId, s': State)
    requires Shared(s) && Next(s, thread, run, spare) == Some(s')
    ensures var pc, pc' := PcOf(s, thread), PcOf(s', thread);
            && (pc'.Inside? ==> pc.Waiting? && pc'.entry in s.entries && s.entries[pc'.entry].holder.None?
                                && s'.entries == s.entries[pc'.entry := s.entries[pc'.entry].(holder := Some(thread))])
            && (pc.Inside? ==>
                  pc.entry in s.entries && s'.entries == s.entries[pc.entry := s.entries[pc.entry].(holder := None)])
            && (!pc.Inside? && !pc'.Inside? ==>
                  && (forall e :: e in s.entries ==> e in s'.entries && s'.entries[e].holder == s.entries[e].holder)
                  && (forall e :: e in s'.entries && e !in s.entries ==> s'.entries[e].holder.None?))
  {
  }

  lemma HoldersTake(s: State, thread: Thread, s': State)
    requires HoldersOk(s) && s'.threads == s.threads[thread := PcOf(s', thread)] && PcOf(s', thread).Inside?
    requires var entry := PcOf(s', thread).entry;
             entry in s.entries && s.entries[entry].holder.None?
             && s'.entries == s.entries[entry := s.entries[entry].(holder := Some(thread))]
    requires !PcOf(s, thread).Inside?
    ensures HoldersOk(s')
  {
  }

  lemma HoldersGive(s: State, thread: Thread, s': State)
    requires HoldersOk(s) && s'.threads == s.threads[thread := PcOf(s', thread)] && !PcOf(s', thread).Inside?
    requires PcOf(s, thread).Inside?
    requires var entry := PcOf(s, thread).entry;
             entry in s.entries && s'.entries == s.entries[entry := s.entries[entry].(holder := None)]
    ensures HoldersOk(s')
  {
  }

  lemma HoldersSame(s: State, thread: Thread, s': State)
    requires HoldersOk(s) && s'.threads == s.threads[thread := PcOf(s', thread)]
    requires !PcOf(s, thread).Inside? && !PcOf(s', thread).Inside?
    requires forall e :: e in s.entries ==> e in s'.entries && s'.entries[e].holder == s.entries[e].holder
    requires forall e :: e in s'.entries && e !in s.entries ==> s'.entries[e].holder.None?
    ensures HoldersOk(s')
  {
  }

  lemma HoldersStep(s: State, thread: Thread, run: RunId, spare: EntryId, s': State)
    requires Inv(s) && Next(s, thread, run, spare) == Some(s')
    ensures HoldersOk(s')
  {
    StepView(s, thread, run, spare, s');
    HolderView(s, thread, run, spare, s');
    hide Next, CountsOk, Needed, GuardOk, Shared, HoldersOk, PcOf;
    if PcOf(s', thread).Inside? {
      HoldersTake(s, thread, s');
    } else if PcOf(s, thread).Inside? {
      HoldersGive(s, thread, s');
    } else {
      HoldersSame(s, thread, s');
    }
  }

  lemma NeededStep(s: State, thread: Thread, run: RunId, spare: EntryId, s': State)
    requires Inv(s) && Next(s, thread, run, spare) == Some(s')
    ensures Needed(s')
  {
    var pc := PcOf(s, thread);
    if Uses(pc) && !pc.Found? && !pc.Dropped? {
      assert thread in Counters(s, pc.entry);
    }
    if pc.Found? {
      assert s.entries[pc.entry].users >= 0;
    }
    hide CountsOk, HoldersOk;
  }

  lemma {:induction false} InvHolds(moves: seq<Move>, s: State)
    requires Schedule(moves) == Some(s)
    ensures Inv(s)
  {
    if moves != [] {
      var last := moves[|moves| - 1];
      var m := Schedule(moves[..|moves| - 1]).value;
      InvHolds(moves[..|moves| - 1], m);
      GuardStep(m, last.thread, last.run, last.spare, s);
      SharedStep(m, last.thread, last.run, last.spare, s);
      HoldersStep(m, last.thread, last.run, last.spare, s);
      CountsStep(m, last.thread, last.run, last.spare, s);
      NeededStep(m, last.thread, last.run, last.spare, s);
      hide Next, GuardOk, Shared, HoldersOk, CountsOk, Needed;
    }
  }

  predicate SameRun(a: Pc, b: Pc) {
    Uses(a) && Uses(b) && a.run == b.run
  }

  predicate BothInside(a: Pc, b: Pc) {
    SameRun(a, b) && a.Inside? && b.Inside?
  }

  /** Under every interleaving: at most one thread per run is inside `hold`; all threads using
      a run share one entry; the entry of a run counts exactly the threads waiting for, inside
      or leaving it; and when nobody uses the table, it is empty. */
  lemma {:induction false} OneInsidePerRun(moves: seq<Move>, s: State)
    requires Schedule(moves) == Some(s)
    ensures forall a, b :: a in s.threads && b in s.threads && BothInside(s.threads[a], s.threads[b]) ==> a == b
    ensures forall a, b :: a in s.threads && b in s.threads && SameRun(s.threads[a], s.threads[b]) ==>
            s.threads[a].entry == s.threads[b].entry
    ensures forall r :: r in s.table ==>
            s.table[r] in s.entries && s.entries[s.table[r]].users == |Counters(s, s.table[r])|
    ensures (forall th :: th in s.threads ==> s.threads[th].Idle?) ==> s.table == map[]
  {
    InvHolds(moves, s);
    hide Schedule;
    forall r | r in s.table
      ensures exists th :: th in s.threads && !s.threads[th].Idle?
    {
      if s.entries[s.table[r]].users > 0 {
        assert Counters(s, s.table[r]) != {};
        var th :| th in Counters(s, s.table[r]);
      } else {
        assert Uses(s.threads[s.guard.value]);
      }
    }
    if forall th :: th in s.threads ==> s.threads[th].Idle? {
      assert forall r :: r !in s.table;
      assert s.table.Keys == {};
    }
  }
}
