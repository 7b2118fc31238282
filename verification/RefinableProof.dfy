/** Every step of every thread keeps the invariant of the refinable set. */
module RefinableProof {
  import opened Common
  import opened Bits
  import opened Tables
  import opened SetHistory
  import opened MutexArena
  import opened Refinable

  ghost predicate OnlyThread(s: State, s': State, t: Tid) {
    t in s.threads && t in s'.threads && s'.threads == s.threads[t := s'.threads[t]] && s'.shift == s.shift
  }

  // ----- locks -----

  lemma SameLocks(s: State, s': State, t: Tid)
    requires OwnersOk(s) && OnlyThread(s, s', t) && s'.owner == s.owner
    requires forall m {:trigger Holds(s.shift, s'.threads[t], m)} ::
               Holds(s.shift, s'.threads[t], m) <==> Holds(s.shift, s.threads[t], m)
    ensures OwnersOk(s')
  {
    hide Holds;
  }

  lemma LockTaken(s: State, s': State, t: Tid, l: Slot)
    requires OwnersOk(s) && OnlyThread(s, s', t) && l !in s.owner && s'.owner == s.owner[l := t]
    requires forall m {:trigger Holds(s.shift, s'.threads[t], m)} ::
               Holds(s.shift, s'.threads[t], m) <==> Holds(s.shift, s.threads[t], m) || m == l
    ensures OwnersOk(s')
  {
    hide Holds;
  }

  lemma LockDropped(s: State, s': State, t: Tid, l: Slot)
    requires OwnersOk(s) && OnlyThread(s, s', t) && Holds(s.shift, s.threads[t], l) && s'.owner == s.owner - {l}
    requires forall m {:trigger Holds(s.shift, s'.threads[t], m)} ::
               Holds(s.shift, s'.threads[t], m) <==> Holds(s.shift, s.threads[t], m) && m != l
    ensures OwnersOk(s')
  {
    hide Holds;
    assert s.owner[l] == t;
    forall m | m in s'.owner
      ensures s'.owner[m] in s'.threads && Holds(s'.shift, s'.threads[s'.owner[m]], m)
    {
      assert m in s.owner && Holds(s.shift, s.threads[s.owner[m]], m);
    }
  }

  /** Two threads that have locked the same bucket are the same. */
  lemma OnePerMutex(s: State, t: Tid, u: Tid)
    requires OwnersOk(s) && t in s.threads && u in s.threads && Locked(s.threads[t].pc) && Locked(s.threads[u].pc)
    requires s.threads[t].hash == s.threads[u].hash
    ensures t == u
  {
    hide MutexOf;
    var m := MutexOf(s.shift, s.threads[t].hash);
    assert Holds(s.shift, s.threads[t], m) && Holds(s.shift, s.threads[u], m);
  }

  // ----- who resizes, and who is left -----

  /** `t` goes on resizing, or goes on not resizing, and the flag stays as it is. */
  lemma SameResizers(s: State, s': State, t: Tid)
    requires ResizersOk(s) && OnlyThread(s, s', t) && s'.resizing == s.resizing
    requires Resizer(s'.threads[t].pc) == Resizer(s.threads[t].pc)
    ensures ResizersOk(s')
  {
    hide Resizer;
    assert forall u :: IsResizer(s', u) <==> IsResizer(s, u);
  }

  /** Nobody new is admitted. */
  lemma SameQuiet(s: State, s': State, t: Tid)
    requires QuietsOk(s) && OnlyThread(s, s', t)
    requires Admitted(s'.threads[t].pc) ==> Admitted(s.threads[t].pc) && s'.threads[t].hash == s.threads[t].hash
    requires QuietOk(s, s'.threads[t].pc)
    ensures QuietsOk(s')
  {
    hide Admitted, Quiet;
    forall u | u in s'.threads
      ensures QuietOk(s', s'.threads[u].pc)
    {
      assert u != t ==> QuietOk(s, s.threads[u].pc);
    }
  }

  /** Whoever is admitted is, while nobody resizes. */
  lemma NoResizer(s: State, s': State, t: Tid)
    requires ResizersOk(s) && OnlyThread(s, s', t) && !s.resizing && !Resizer(s'.threads[t].pc)
    ensures QuietsOk(s')
  {
    forall u | u in s'.threads
      ensures !Resizer(s'.threads[u].pc)
    {
      assert !IsResizer(s, u);
    }
  }

  lemma SameArena(s: State, s': State, t: Tid)
    requires ArenaOk(s) && OnlyThread(s, s', t) && s'.capacity == s.capacity && s'.blocks == s.blocks
    requires (s'.threads[t].pc.Rebuild? || s'.threads[t].pc.StoreCapacity?) ==
             (s.threads[t].pc.Rebuild? || s.threads[t].pc.StoreCapacity?)
    ensures ArenaOk(s')
  {
    var k: nat :| ArenaIs(s, k);
    SameEnlarged(s, s', t);
    assert ArenaIs(s', k);
  }

  lemma SameEnlarged(s: State, s': State, t: Tid)
    requires OnlyThread(s, s', t)
    requires (s'.threads[t].pc.Rebuild? || s'.threads[t].pc.StoreCapacity?) ==
             (s.threads[t].pc.Rebuild? || s.threads[t].pc.StoreCapacity?)
    ensures Enlarged(s') == Enlarged(s)
  {
    if Enlarged(s) {
      var u :| u in s.threads && (s.threads[u].pc.Rebuild? || s.threads[u].pc.StoreCapacity?);
      assert u in s'.threads && (s'.threads[u].pc.Rebuild? || s'.threads[u].pc.StoreCapacity?);
    }
    if Enlarged(s') {
      var u :| u in s'.threads && (s'.threads[u].pc.Rebuild? || s'.threads[u].pc.StoreCapacity?);
      assert u in s.threads && (s.threads[u].pc.Rebuild? || s.threads[u].pc.StoreCapacity?);
    }
  }

  lemma CapacityPositive(s: State)
    requires ArenaOk(s)
    ensures s.capacity > 0
  {
  }

  /** Every bucket there is, or was, has its mutex. */
  lemma MutexThere(s: State, index: nat)
    requires ArenaOk(s) && index < s.capacity
    ensures HasMutex(s, index)
  {
    hide BlockIndex, BlockOffset, Enlarged;
    var k: nat :| ArenaIs(s, k);
    ArenaBijection(s.shift, k, index, 0, 0);
  }

  // ----- steps that leave the table alone -----

  lemma DataKept(s: State, s': State, t: Tid)
    requires DataOk(s) && ThreadsOk(s) && OnlyThread(s, s', t)
    requires s'.table == s.table && s'.capacity == s.capacity && Legal(s'.log) && Played(s'.log) == Played(s.log)
    requires !Moving(s.threads[t].pc) && !Moving(s'.threads[t].pc)
    requires ThreadOk(s', s'.threads[t])
    ensures DataOk(s') && ThreadsOk(s')
  {
    hide Legal, Played, Moving;
    forall u | u in s'.threads
      ensures ThreadOk(s', s'.threads[u])
    {
      if u != t {
        assert ThreadOk(s, s.threads[u]);
      }
    }
    assert forall u :: u in s.threads ==> u in s'.threads && (u != t ==> s'.threads[u] == s.threads[u]);
  }

  /** Where each of the local steps leads, seen from everything that is shared. */
  ghost predicate LocalMove(a: PC, b: PC) {
    && !Moving(a) && !Moving(b) && Resizer(a) == Resizer(b)
    && !a.Rebuild? && !a.StoreCapacity? && !b.Rebuild? && !b.StoreCapacity?
    && (Admitted(b) ==> Admitted(a))
  }

  lemma Local(s: State, s': State, t: Tid)
    requires Inv(s) && OnlyThread(s, s', t) && LocalMove(s.threads[t].pc, s'.threads[t].pc)
    requires s'.table == s.table && s'.capacity == s.capacity && s'.blocks == s.blocks && s'.resizing == s.resizing
    requires Legal(s'.log) && Played(s'.log) == Played(s.log)
    requires Admitted(s'.threads[t].pc) ==> s'.threads[t].hash == s.threads[t].hash
    requires OwnersOk(s') && QuietOk(s, s'.threads[t].pc) && ThreadOk(s', s'.threads[t])
    ensures Inv(s')
  {
    hide OwnersOk, Legal, Played, ThreadOk, QuietOk, ArenaOk;
    SameResizers(s, s', t);
    SameQuiet(s, s', t);
    SameArena(s, s', t);
    DataKept(s, s', t);
  }

  predicate IsLocal(pc: PC) {
    pc.Idle? || pc.Spin? || pc.CheckCapacity? || pc.Count? || pc.Returning? || pc.PolicyCapacity? || pc.PolicySize? ||
    pc.CheckPolicyCapacity? || pc.CheckPolicySize? || pc.ResizeCapacity?
  }

  lemma CallerShape(s: State, t: Tid, op: Op, e: Elem)
    requires t in s.threads && IsLocal(s.threads[t].pc) && !Resizer(s.threads[t].pc)
    ensures Ready(s, t)
    ensures var s' := Next(s, t, op, e);
            OnlyThread(s, s', t) && s' == s.(threads := s'.threads, size := s'.size) &&
            (s'.threads[t].pc != s.threads[t].pc ==> LocalMove(s.threads[t].pc, s'.threads[t].pc))
  {
    hide Limit;
  }

  lemma ResizerShape(s: State, t: Tid, op: Op, e: Elem)
    requires t in s.threads && IsLocal(s.threads[t].pc) && Resizer(s.threads[t].pc)
    ensures Ready(s, t)
    ensures var s' := Next(s, t, op, e);
            OnlyThread(s, s', t) && s' == s.(threads := s'.threads, size := s'.size) &&
            (s'.threads[t].pc != s.threads[t].pc ==> LocalMove(s.threads[t].pc, s'.threads[t].pc))
  {
    hide Limit;
  }

  lemma LocalShape(s: State, t: Tid, op: Op, e: Elem)
    requires t in s.threads && IsLocal(s.threads[t].pc)
    ensures Ready(s, t)
    ensures var s' := Next(s, t, op, e);
            OnlyThread(s, s', t) && s' == s.(threads := s'.threads, size := s'.size) &&
            (s'.threads[t].pc != s.threads[t].pc ==> LocalMove(s.threads[t].pc, s'.threads[t].pc))
  {
    hide Next, Ready, IsLocal, Resizer, OnlyThread, LocalMove;
    if Resizer(s.threads[t].pc) {
      ResizerShape(s, t, op, e);
    } else {
      CallerShape(s, t, op, e);
    }
  }

  lemma LocalLocks(s: State, t: Tid, op: Op, e: Elem)
    requires t in s.threads && IsLocal(s.threads[t].pc) && Ready(s, t) && t in Next(s, t, op, e).threads
    ensures var th, th' := s.threads[t], Next(s, t, op, e).threads[t];
            && (Locked(th'.pc) <==> Locked(th.pc)) && (Locked(th.pc) ==> th'.hash == th.hash)
            && !th.pc.QuiesceUnlock? && !th'.pc.QuiesceUnlock?
  {
    hide Limit;
  }

  lemma CallerThread(s: State, t: Tid, op: Op, e: Elem)
    requires t in s.threads && IsLocal(s.threads[t].pc) && !Resizer(s.threads[t].pc) && Ready(s, t)
    requires t in Next(s, t, op, e).threads && ThreadOk(s, s.threads[t])
    ensures var th' := Next(s, t, op, e).threads[t]; ThreadOk(s, th') && QuietOk(s, th'.pc)
  {
    hide Limit, Played, TableIs;
  }

  lemma ResizerThread(s: State, t: Tid, op: Op, e: Elem)
    requires t in s.threads && IsLocal(s.threads[t].pc) && Resizer(s.threads[t].pc) && Ready(s, t)
    requires t in Next(s, t, op, e).threads && ThreadOk(s, s.threads[t])
    ensures var th' := Next(s, t, op, e).threads[t]; ThreadOk(s, th') && QuietOk(s, th'.pc)
  {
    hide Limit, Played, TableIs;
  }

  lemma LocalThread(s: State, t: Tid, op: Op, e: Elem)
    requires t in s.threads && IsLocal(s.threads[t].pc) && Ready(s, t) && t in Next(s, t, op, e).threads
    requires ThreadOk(s, s.threads[t])
    ensures var th' := Next(s, t, op, e).threads[t]; ThreadOk(s, th') && QuietOk(s, th'.pc)
  {
    hide ThreadOk, QuietOk, Next, Ready, IsLocal, Resizer;
    if Resizer(s.threads[t].pc) {
      ResizerThread(s, t, op, e);
    } else {
      CallerThread(s, t, op, e);
    }
  }

  lemma StepLocal(s: State, t: Tid, op: Op, e: Elem)
    requires Inv(s) && t in s.threads && IsLocal(s.threads[t].pc)
    ensures Ready(s, t) && Inv(Next(s, t, op, e))
  {
    hide Next, Ready, IsLocal, LocalMove, Locked, Admitted, QuietOk, Legal, Played, OwnersOk, ResizersOk, ArenaOk,
      DataOk, QuietsOk;
    assert Legal(s.log) by { DataHas(s); }
    LocalShape(s, t, op, e);
    LocalLocks(s, t, op, e);
    var s' := Next(s, t, op, e);
    assert ThreadOk(s, s.threads[t]);
    assert ThreadOk(s', s'.threads[t]) && QuietOk(s, s'.threads[t].pc) by {
      LocalThread(s, t, op, e);
      SameFor(s, s', s'.threads[t]);
    }
    SameLocks(s, s', t);
    if s'.threads[t].pc != s.threads[t].pc {
      assert Admitted(s'.threads[t].pc) ==> Locked(s'.threads[t].pc) by { AdmittedIsLocked(s'.threads[t].pc); }
      Local(s, s', t) by { hide ThreadsOk, ThreadOk; }
    } else {
      LocalStays(s, t, op, e);
    }
  }

  lemma AdmittedIsLocked(pc: PC)
    ensures Admitted(pc) ==> Locked(pc)
  {
  }

  lemma SameFor(s: State, s': State, th: Thread)
    requires ThreadOk(s, th) && s'.capacity == s.capacity && s'.table == s.table && s'.log == s.log
    ensures ThreadOk(s', th)
  {
    hide Played, TableIs;
  }

  /** Only a thread that finds the flag raised stays where it is. */
  lemma LocalStays(s: State, t: Tid, op: Op, e: Elem)
    requires t in s.threads && IsLocal(s.threads[t].pc) && Ready(s, t) && t in Next(s, t, op, e).threads
    requires Next(s, t, op, e).threads[t].pc == s.threads[t].pc
    ensures Next(s, t, op, e) == s
  {
    hide Limit;
  }

  lemma DataHas(s: State)
    requires DataOk(s)
    ensures Legal(s.log)
  {
  }

  lemma StepLoadCapacity(s: State, t: Tid, op: Op, e: Elem)
    requires Inv(s) && t in s.threads && s.threads[t].pc.LoadCapacity?
    ensures Ready(s, t) && Inv(Next(s, t, op, e))
  {
    hide Legal, Played, TableIs, OwnersOk, ResizersOk, ArenaOk, DataOk;
    assert Legal(s.log) by { DataHas(s); }
    CapacityPositive(s);
    assert s.threads[t].elem.code % s.capacity < s.capacity;
    var s' := Next(s, t, op, e);
    SameLocks(s, s', t);
    Local(s, s', t) by { hide QuietsOk, ThreadsOk; }
  }

  lemma HashBelow(s: State, th: Thread)
    requires ThreadOk(s, th) && (th.pc.LockBucket? || Locked(th.pc))
    ensures th.hash < th.capacity <= s.capacity
  {
  }

  // ----- taking and dropping mutexes -----

  lemma StepLockBucket(s: State, t: Tid, op: Op, e: Elem)
    requires Inv(s) && t in s.threads && s.threads[t].pc.LockBucket?
    ensures Ready(s, t) && Inv(Next(s, t, op, e))
  {
    hide Legal, Played, TableIs, OwnersOk, ResizersOk, ArenaOk, DataOk, HasMutex, MutexOf;
    var th := s.threads[t];
    assert Legal(s.log) by { DataHas(s); }
    assert ThreadOk(s, th);
    HashBelow(s, th);
    MutexThere(s, th.hash);
    var s' := Next(s, t, op, e);
    var m := MutexOf(s.shift, th.hash);
    if m !in s.owner {
      LockTaken(s, s', t, m);
      Local(s, s', t) by { hide QuietsOk, ThreadsOk; }
    }
  }

  lemma StepUnlock(s: State, t: Tid, op: Op, e: Elem)
    requires Inv(s) && t in s.threads && (s.threads[t].pc.UnlockRetry? || s.threads[t].pc.Unlock?)
    ensures Ready(s, t) && Inv(Next(s, t, op, e))
  {
    hide Legal, Played, TableIs, OwnersOk, ResizersOk, ArenaOk, DataOk, HasMutex, MutexOf;
    var th := s.threads[t];
    assert Legal(s.log) by { DataHas(s); }
    assert ThreadOk(s, th);
    HashBelow(s, th);
    MutexThere(s, th.hash);
    var s' := Next(s, t, op, e);
    LockDropped(s, s', t, MutexOf(s.shift, th.hash));
    Local(s, s', t) by { hide QuietsOk, ThreadsOk; }
  }

  /** Whoever holds a mutex shows that nobody else is admitted under it. */
  lemma MutexTaken(s: State, i: nat)
    requires Inv(s) && NobodyBelow(s, i) && MutexOf(s.shift, i) !in s.owner
    ensures NobodyBelow(s, i + 1)
  {
    hide MutexOf;
    forall u | u in s.threads && Admitted(s.threads[u].pc)
      ensures i + 1 <= s.threads[u].hash
    {
      assert Holds(s.shift, s.threads[u], MutexOf(s.shift, s.threads[u].hash));
    }
  }

  /** Once every bucket has been passed there is nobody left. */
  lemma AllPassed(s: State)
    requires ThreadsOk(s) && NobodyBelow(s, s.capacity)
    ensures NobodyIn(s)
  {
    forall u | u in s.threads
      ensures !Admitted(s.threads[u].pc)
    {
      assert ThreadOk(s, s.threads[u]);
      if Admitted(s.threads[u].pc) {
        HashBelow(s, s.threads[u]);
      }
    }
  }

  lemma StepQuiesceLock(s: State, t: Tid, op: Op, e: Elem)
    requires Inv(s) && t in s.threads && s.threads[t].pc.QuiesceLock?
    ensures Ready(s, t) && Inv(Next(s, t, op, e))
  {
    hide Legal, Played, TableIs, OwnersOk, ResizersOk, ArenaOk, DataOk, HasMutex, MutexOf, NobodyBelow, NobodyIn;
    var th := s.threads[t];
    var i := th.pc.i;
    assert Legal(s.log) by { DataHas(s); }
    assert ThreadOk(s, th) && QuietOk(s, th.pc);
    if i < th.pc.capacity {
      MutexThere(s, i);
    }
    var s' := Next(s, t, op, e);
    var m := MutexOf(s.shift, i);
    if i == th.pc.capacity {
      AllPassed(s);
      SameLocks(s, s', t);
      Local(s, s', t) by { hide QuietsOk, ThreadsOk; }
    } else if m !in s.owner {
      MutexTaken(s, i);
      LockTaken(s, s', t, m);
      Local(s, s', t) by { hide QuietsOk, ThreadsOk; }
    }
  }

  lemma StepQuiesceUnlock(s: State, t: Tid, op: Op, e: Elem)
    requires Inv(s) && t in s.threads && s.threads[t].pc.QuiesceUnlock?
    ensures Ready(s, t) && Inv(Next(s, t, op, e))
  {
    hide Legal, Played, TableIs, OwnersOk, ResizersOk, ArenaOk, DataOk, HasMutex, MutexOf, NobodyBelow, NobodyIn;
    var th := s.threads[t];
    assert Legal(s.log) by { DataHas(s); }
    assert ThreadOk(s, th) && QuietOk(s, th.pc);
    MutexThere(s, th.pc.i);
    var s' := Next(s, t, op, e);
    LockDropped(s, s', t, MutexOf(s.shift, th.pc.i));
    Local(s, s', t) by { hide QuietsOk, ThreadsOk; }
  }

  // ----- the flag -----

  lemma StepCheckResizing(s: State, t: Tid, op: Op, e: Elem)
    requires Inv(s) && t in s.threads && s.threads[t].pc.CheckResizing?
    ensures Ready(s, t) && Inv(Next(s, t, op, e))
  {
    hide Legal, Played, TableIs, OwnersOk, ResizersOk, ArenaOk, DataOk;
    assert Legal(s.log) by { DataHas(s); }
    assert ThreadOk(s, s.threads[t]);
    var s' := Next(s, t, op, e);
    SameLocks(s, s', t);
    if s.resizing {
      Local(s, s', t) by { hide QuietsOk, ThreadsOk; }
    } else {
      SameResizers(s, s', t);
      NoResizer(s, s', t);
      SameArena(s, s', t);
      DataKept(s, s', t) by { hide QuietsOk, ThreadsOk; }
    }
  }

  /** The flag goes up with one resizer, and down with it. */
  lemma FlagMoves(s: State, s': State, t: Tid)
    requires ResizersOk(s) && OnlyThread(s, s', t) && s'.resizing == Resizer(s'.threads[t].pc)
    requires s.resizing == Resizer(s.threads[t].pc)
    ensures ResizersOk(s')
  {
    hide Resizer;
    forall u | IsResizer(s', u)
      ensures u == t
    {
      assert u != t ==> IsResizer(s, u) && IsResizer(s, t);
    }
    assert s'.resizing ==> IsResizer(s', t);
  }

  /** Nothing but the flag moves, and with it the resizer. */
  lemma FlagKeeps(s: State, s': State, t: Tid)
    requires Inv(s) && OnlyThread(s, s', t) && s' == s.(threads := s'.threads, resizing := s'.resizing)
    requires s.resizing == Resizer(s.threads[t].pc) && s'.resizing == Resizer(s'.threads[t].pc)
    requires forall m {:trigger Holds(s.shift, s'.threads[t], m)} ::
               Holds(s.shift, s'.threads[t], m) <==> Holds(s.shift, s.threads[t], m)
    requires ThreadOk(s, s'.threads[t]) && QuietOk(s, s'.threads[t].pc)
    requires !Admitted(s'.threads[t].pc)
    requires !Moving(s.threads[t].pc) && !Moving(s'.threads[t].pc)
    requires !s.threads[t].pc.Rebuild? && !s'.threads[t].pc.Rebuild?
    ensures Inv(s')
  {
    hide Legal, Played, TableIs, OwnersOk, ResizersOk, ArenaOk, DataOk, QuietsOk, ThreadsOk, QuietOk, ThreadOk;
    hide Resizer, Holds, Admitted;
    assert Legal(s.log) by { DataHas(s); }
    SameLocks(s, s', t);
    FlagMoves(s, s', t);
    SameQuiet(s, s', t);
    SameArena(s, s', t);
    SameFor(s, s', s'.threads[t]);
    DataKept(s, s', t);
  }

  lemma StepExchange(s: State, t: Tid, op: Op, e: Elem)
    requires Inv(s) && t in s.threads && s.threads[t].pc.Exchange?
    ensures Ready(s, t) && Inv(Next(s, t, op, e))
  {
    hide Legal, Played, TableIs, OwnersOk, ResizersOk, ArenaOk, DataOk;
    assert ThreadOk(s, s.threads[t]);
    var s' := Next(s, t, op, e);
    if s.resizing {
      assert Legal(s.log) by { DataHas(s); }
      SameLocks(s, s', t);
      Local(s, s', t) by { hide QuietsOk, ThreadsOk; }
    } else {
      FlagKeeps(s, s', t) by { hide QuietsOk, ThreadsOk; }
    }
  }

  lemma StepClearResizing(s: State, t: Tid, op: Op, e: Elem)
    requires Inv(s) && t in s.threads && s.threads[t].pc.ClearResizing?
    ensures Ready(s, t) && Inv(Next(s, t, op, e))
  {
    hide Legal, Played, TableIs, OwnersOk, ResizersOk, ArenaOk, DataOk;
    assert ThreadOk(s, s.threads[t]);
    assert s.resizing by { ResizerRaised(s, t); }
    FlagKeeps(s, Next(s, t, op, e), t) by { hide QuietsOk, ThreadsOk; }
  }

  lemma ResizerRaised(s: State, t: Tid)
    requires ResizersOk(s) && t in s.threads
    ensures Resizer(s.threads[t].pc) ==> s.resizing
  {
    assert Resizer(s.threads[t].pc) ==> IsResizer(s, t);
  }

  // ----- the bucket -----

  /** While a thread is in a bucket nobody is moving the table. */
  lemma NobodyMoves(s: State, t: Tid)
    requires QuietsOk(s) && DataOk(s) && t in s.threads && Admitted(s.threads[t].pc)
    ensures TableIs(s.table, s.capacity, s.log) && forall u :: u in s.threads ==> !Moving(s.threads[u].pc)
  {
    hide Legal, TableIs;
    forall u | u in s.threads
      ensures !Moving(s.threads[u].pc)
    {
      assert QuietOk(s, s.threads[u].pc);
    }
  }

  lemma InBucketOrNot(s: State, e: Elem)
    requires TableIs(s.table, s.capacity, s.log)
    ensures s.capacity > 0 && e.code % s.capacity < |s.table|
    ensures e in s.table[e.code % s.capacity] <==> e in Played(s.log)
  {
    hide Played;
    InItsBucket(s.table, e);
  }

  lemma StepReadBucket(s: State, t: Tid, op: Op, e: Elem)
    requires Inv(s) && t in s.threads && s.threads[t].pc.ReadBucket?
    ensures Ready(s, t) && Inv(Next(s, t, op, e))
  {
    hide Legal, Played, TableIs, OwnersOk, ResizersOk, ArenaOk, DataOk;
    var th := s.threads[t];
    assert Legal(s.log) by { DataHas(s); }
    assert ThreadOk(s, th);
    NobodyMoves(s, t);
    InBucketOrNot(s, th.elem);
    var s' := Next(s, t, op, e);
    if s'.threads[t].pc.Unlock? {
      LoggedRead(s.log, Entry(t, th.op, th.elem, s'.threads[t].pc.res));
    }
    SameLocks(s, s', t);
    Local(s, s', t) by { hide QuietsOk, ThreadsOk; }
  }

  /** What the write makes of the table. */
  lemma Written(s: State, th: Thread, b: Bucket)
    requires TableIs(s.table, s.capacity, s.log) && ThreadOk(s, th) && th.pc == WriteBucket(b)
    ensures var to := if th.op.OpRemove? then Erased(b, IndexOf(b, th.elem)) else b + [th.elem];
            && Placed(s.table[th.hash := to])
            && Elements(s.table[th.hash := to]) == After(th.op, th.elem, Played(s.log))
            && Answer(th.op, th.elem, Played(s.log))
  {
    hide Placed, Elements, Played, Erased;
    InBucketOrNot(s, th.elem);
    if th.op.OpRemove? {
      Removed(s.table, th.elem, IndexOf(b, th.elem));
    } else {
      Inserted(s.table, th.elem);
    }
  }

  /** Whoever else is in a bucket is in another one, with another element. */
  lemma OtherBucket(s: State, t: Tid, u: Tid)
    requires OwnersOk(s) && ThreadsOk(s) && t in s.threads && u in s.threads && u != t
    requires InBucket(s.threads[t].pc) && InBucket(s.threads[u].pc)
    ensures s.threads[u].hash != s.threads[t].hash && s.threads[u].elem != s.threads[t].elem
  {
    hide OwnersOk;
    assert ThreadOk(s, s.threads[t]) && ThreadOk(s, s.threads[u]);
    if s.threads[u].hash == s.threads[t].hash {
      OnePerMutex(s, t, u);
    }
  }

  lemma StepWriteBucket(s: State, t: Tid, op: Op, e: Elem)
    requires Inv(s) && t in s.threads && s.threads[t].pc.WriteBucket?
    ensures Ready(s, t) && Inv(Next(s, t, op, e))
  {
    hide Legal, Played, Placed, Elements, OwnersOk, ResizersOk, ArenaOk, Erased;
    var th := s.threads[t];
    assert Legal(s.log) by { DataHas(s); }
    assert ThreadOk(s, th);
    NobodyMoves(s, t);
    Written(s, th, th.pc.bucket);
    Logged(s.log, Entry(t, th.op, th.elem, true));
    var s' := Next(s, t, op, e);
    SameLocks(s, s', t);
    SameResizers(s, s', t);
    SameQuiet(s, s', t);
    SameArena(s, s', t);
    forall u | u in s'.threads
      ensures ThreadOk(s', s'.threads[u])
    {
      if u != t {
        assert ThreadOk(s, s.threads[u]);
        if InBucket(s.threads[u].pc) {
          OtherBucket(s, t, u);
        }
      }
    }
  }

  // ----- the resize -----

  /** Nobody else moves the table, or is where the table or the capacity matters. */
  lemma Bystander(s: State, s': State, t: Tid, u: Tid)
    requires Inv(s) && OnlyThread(s, s', t) && Quiet(s.threads[t].pc) && u in s.threads && u != t
    requires s'.log == s.log && s.capacity <= s'.capacity
    ensures ThreadOk(s', s.threads[u]) && !Moving(s.threads[u].pc)
    ensures !s.threads[u].pc.Rebuild? && !s.threads[u].pc.StoreCapacity?
  {
    hide OwnersOk, ArenaOk, DataOk;
    assert ThreadOk(s, s.threads[u]) && QuietOk(s, s.threads[t].pc);
    assert IsResizer(s, t);
    assert IsResizer(s, u) ==> u == t;
  }

  lemma Resizing(s: State, s': State, t: Tid)
    requires Inv(s) && OnlyThread(s, s', t) && Quiet(s.threads[t].pc) && Quiet(s'.threads[t].pc)
    requires s'.owner == s.owner && s'.log == s.log && s'.resizing == s.resizing && s.capacity <= s'.capacity
    requires ArenaOk(s') && ThreadOk(s', s'.threads[t])
    requires !Moving(s'.threads[t].pc) ==> TableIs(s'.table, s'.capacity, s'.log)
    ensures Inv(s')
  {
    hide ArenaOk, TableIs, Legal, ThreadOk, OwnersOk;
    SameLocks(s, s', t);
    SameResizers(s, s', t);
    assert QuietOk(s, s.threads[t].pc);
    SameQuiet(s, s', t);
    forall u | u in s'.threads && u != t
      ensures ThreadOk(s', s'.threads[u]) && !Moving(s'.threads[u].pc)
    {
      Bystander(s, s', t, u);
    }
  }

  /** Nobody else has enlarged the arena. */
  lemma EnlargedByMe(s: State, t: Tid)
    requires Inv(s) && t in s.threads && Quiet(s.threads[t].pc)
    ensures Enlarged(s) <==> s.threads[t].pc.Rebuild? || s.threads[t].pc.StoreCapacity?
    ensures s.threads[t].pc.Enlarge? || s.threads[t].pc.Rebuild? ==> TableIs(s.table, s.capacity, s.log)
  {
    hide OwnersOk, ArenaOk, ThreadsOk, Legal, TableIs;
    assert IsResizer(s, t);
    forall u | u in s.threads && u != t
      ensures !Resizer(s.threads[u].pc)
    {
      assert IsResizer(s, u) ==> u == t;
    }
  }

  lemma StepEnlarge(s: State, t: Tid, op: Op, e: Elem)
    requires Inv(s) && t in s.threads && s.threads[t].pc.Enlarge?
    ensures Ready(s, t) && Inv(Next(s, t, op, e))
  {
    hide Legal, Played, TableIs, OwnersOk, ResizersOk, DataOk, QuietsOk, BlockIndex;
    assert ThreadOk(s, s.threads[t]);
    EnlargedByMe(s, t);
    var k: nat :| ArenaIs(s, k);
    NextBlock(s.shift, k);
    var s' := Next(s, t, op, e);
    assert s'.threads[t].pc.Rebuild?;
    assert ArenaIs(s', k);
    Resizing(s, s', t) by { hide ThreadsOk, ArenaOk; }
  }

  lemma StepRebuild(s: State, t: Tid, op: Op, e: Elem)
    requires Inv(s) && t in s.threads && s.threads[t].pc.Rebuild?
    ensures Ready(s, t) && Inv(Next(s, t, op, e))
  {
    hide Legal, Played, Placed, Elements, OwnersOk, ResizersOk, DataOk, QuietsOk, ArenaOk;
    assert ThreadOk(s, s.threads[t]);
    EnlargedByMe(s, t);
    CapacityPositive(s);
    RehashKeeps(s.table, 2 * s.capacity);
    var s' := Next(s, t, op, e);
    SameArena(s, s', t);
    Resizing(s, s', t) by { hide ThreadsOk, TableIs; }
  }

  lemma StepStoreCapacity(s: State, t: Tid, op: Op, e: Elem)
    requires Inv(s) && t in s.threads && s.threads[t].pc.StoreCapacity?
    ensures Ready(s, t) && Inv(Next(s, t, op, e))
  {
    hide Legal, Played, Placed, Elements, OwnersOk, ResizersOk, DataOk, QuietsOk;
    assert ThreadOk(s, s.threads[t]);
    EnlargedByMe(s, t);
    var k: nat :| ArenaIs(s, k);
    var s' := Next(s, t, op, e);
    assert !Enlarged(s') by { OthersNotEnlarged(s, s', t); }
    assert Pow2(s.shift + (k + 1)) == 2 * Pow2(s.shift + k);
    assert ArenaIs(s', k + 1);
    Resizing(s, s', t) by { hide ThreadsOk, ArenaOk; }
  }

  lemma OthersNotEnlarged(s: State, s': State, t: Tid)
    requires Inv(s) && OnlyThread(s, s', t) && Quiet(s.threads[t].pc)
    requires !s'.threads[t].pc.Rebuild? && !s'.threads[t].pc.StoreCapacity?
    ensures !Enlarged(s')
  {
    hide OwnersOk, ArenaOk, ThreadsOk, DataOk;
    assert IsResizer(s, t);
    forall u | u in s.threads && u != t
      ensures !Resizer(s.threads[u].pc)
    {
      assert IsResizer(s, u) ==> u == t;
    }
  }

  lemma StepStoreTable(s: State, t: Tid, op: Op, e: Elem)
    requires Inv(s) && t in s.threads && s.threads[t].pc.StoreTable?
    ensures Ready(s, t) && Inv(Next(s, t, op, e))
  {
    hide Legal, Played, TableIs, OwnersOk, ResizersOk, DataOk, QuietsOk, ArenaOk;
    assert ThreadOk(s, s.threads[t]);
    var s' := Next(s, t, op, e);
    SameArena(s, s', t);
    Resizing(s, s', t) by { hide ThreadsOk; }
  }

  // ----- every step -----

  lemma InitInv(s: State)
    requires Init(s)
    ensures Inv(s)
  {
    hide MutexOf;
    ShiftIsExponent(s.capacity, s.shift);
    EmptyTable(s.capacity);
    assert ArenaIs(s, 0);
    assert forall t :: !IsResizer(s, t);
    forall t, m | t in s.threads
      ensures !Holds(s.shift, s.threads[t], m)
    {
    }
  }

  /** In every reachable state every thread has a next step, and taking it keeps the invariant. */
  lemma StepInv(s: State, t: Tid, op: Op, e: Elem)
    requires Inv(s) && t in s.threads
    ensures Ready(s, t) && Inv(Next(s, t, op, e))
  {
    hide *;
    match s.threads[t].pc
    case LoadCapacity => StepLoadCapacity(s, t, op, e);
    case LockBucket => StepLockBucket(s, t, op, e);
    case CheckResizing => StepCheckResizing(s, t, op, e);
    case UnlockRetry => StepUnlock(s, t, op, e);
    case ReadBucket => StepReadBucket(s, t, op, e);
    case WriteBucket(_) => StepWriteBucket(s, t, op, e);
    case Unlock(_) => StepUnlock(s, t, op, e);
    case Exchange => StepExchange(s, t, op, e);
    case QuiesceLock(_, _) => StepQuiesceLock(s, t, op, e);
    case QuiesceUnlock(_, _) => StepQuiesceUnlock(s, t, op, e);
    case Enlarge(_) => StepEnlarge(s, t, op, e);
    case Rebuild(_) => StepRebuild(s, t, op, e);
    case StoreCapacity(_) => StepStoreCapacity(s, t, op, e);
    case StoreTable(_) => StepStoreTable(s, t, op, e);
    case ClearResizing(_) => StepClearResizing(s, t, op, e);
    case _ => assert IsLocal(s.threads[t].pc) by { RestIsLocal(s.threads[t].pc); } StepLocal(s, t, op, e);
  }

  lemma RestIsLocal(pc: PC)
    ensures || IsLocal(pc) || pc.LoadCapacity? || pc.LockBucket? || pc.CheckResizing? || pc.UnlockRetry? ||
            pc.ReadBucket?
            || pc.WriteBucket? || pc.Unlock? || pc.Exchange? || pc.QuiesceLock? || pc.QuiesceUnlock? || pc.Enlarge?
            || pc.Rebuild? || pc.StoreCapacity? || pc.StoreTable? || pc.ClearResizing?
  {
  }
}
