/** What the refinable set guarantees in every run, over any number of resizes. */
module RefinableTheorems {
  import opened Common
  import opened Tables
  import opened SetHistory
  import opened MutexArena
  import opened Refinable
  import opened RefinableProof

  /** Thread `t` takes a step; `op` and `elem` are what it calls if it is idle. */
  datatype Event = Event(t: Tid, op: Op, elem: Elem)

  datatype Run = Run(states: seq<State>, events: seq<Event>)

  ghost predicate IsStep(s: State, e: Event, s': State) {
    e.t in s.threads && Ready(s, e.t) && s' == Next(s, e.t, e.op, e.elem)
  }

  ghost predicate IsRun(r: Run) {
    && |r.states| == |r.events| + 1 && Init(r.states[0])
    && forall i {:trigger r.events[i]} :: 0 <= i < |r.events| ==> IsStep(r.states[i], r.events[i], r.states[i + 1])
  }

  lemma {:induction false} Always(r: Run, i: nat)
    requires IsRun(r) && i < |r.states|
    ensures Inv(r.states[i])
  {
    hide Inv, Init, Next, Ready;
    if i == 0 {
      InitInv(r.states[0]);
    } else {
      Always(r, i - 1);
      var e := r.events[i - 1];
      assert IsStep(r.states[i - 1], e, r.states[i]);
      StepInv(r.states[i - 1], e.t, e.op, e.elem);
    }
  }

  // ----- exclusion -----

  /**
    Resize safety: from the end of Quiesce until the flag is cleared the resizing thread is the only one
    that may touch the table: nobody is in a critical section, and nobody else resizes.
  */
  lemma ResizeIsExclusive(r: Run, i: nat, t: Tid, u: Tid)
    requires IsRun(r) && i < |r.states| && t in r.states[i].threads && u in r.states[i].threads && t != u
    requires Quiet(r.states[i].threads[t].pc)
    ensures r.states[i].resizing
    ensures !InBucket(r.states[i].threads[u].pc) && !Resizer(r.states[i].threads[u].pc)
  {
    hide Init, Next, Ready, OwnersOk, DataOk, ThreadsOk, ArenaOk;
    Always(r, i);
    var s := r.states[i];
    assert QuietOk(s, s.threads[t].pc);
    assert IsResizer(s, t) && (IsResizer(s, u) ==> t == u);
  }

  /** No two threads are ever in the same bucket; and whoever is in one is in the one the capacity names. */
  lemma OneThreadPerBucket(r: Run, i: nat, t: Tid, u: Tid)
    requires IsRun(r) && i < |r.states| && t in r.states[i].threads && u in r.states[i].threads && t != u
    requires InBucket(r.states[i].threads[t].pc) && InBucket(r.states[i].threads[u].pc)
    ensures var s := r.states[i];
            && s.capacity > 0 && s.threads[t].hash == s.threads[t].elem.code % s.capacity < |s.table|
            && s.threads[t].hash != s.threads[u].hash
  {
    hide Init, Next, Ready, OwnersOk, ArenaOk, TableIs, DataOk, QuietsOk;
    Always(r, i);
    var s := r.states[i];
    assert ThreadOk(s, s.threads[t]);
    NobodyMoves(s, t);
    InBucketOrNot(s, s.threads[t].elem);
    OtherBucket(s, t, u);
  }

  /**
    The arena under the protocol: whichever mutex a thread is about to take has been allocated, however
    stale the capacity it was computed from; and a resize allocates a block exactly once.
  */
  lemma MutexesAllocated(r: Run, i: nat, t: Tid)
    requires IsRun(r) && i < |r.states| && t in r.states[i].threads
    ensures var s, th := r.states[i], r.states[i].threads[t];
            && (th.pc.LockBucket? || Locked(th.pc) ==> HasMutex(s, th.hash))
            && (th.pc.QuiesceLock? && th.pc.i < th.pc.capacity ==> HasMutex(s, th.pc.i))
            && (th.pc.Enlarge? ==> BlockIndex(s.shift, th.pc.capacity) == s.blocks
                                   && BlockSize(s.shift, s.blocks) == th.pc.capacity)
  {
    hide Init, Next, OwnersOk, ResizersOk, QuietsOk, DataOk, ArenaOk, HasMutex, BlockIndex, BlockSize;
    Always(r, i);
    var s, th := r.states[i], r.states[i].threads[t];
    assert ThreadOk(s, th);
    if th.pc.LockBucket? || Locked(th.pc) {
      HashBelow(s, th);
      MutexThere(s, th.hash);
    }
    if th.pc.QuiesceLock? && th.pc.i < th.pc.capacity {
      MutexThere(s, th.pc.i);
    }
    if th.pc.Enlarge? {
      EnlargeSize(s, t);
    }
  }

  lemma EnlargeSize(s: State, t: Tid)
    requires Inv(s) && t in s.threads && s.threads[t].pc.Enlarge?
    ensures BlockIndex(s.shift, s.threads[t].pc.capacity) == s.blocks
    ensures BlockSize(s.shift, s.blocks) == s.threads[t].pc.capacity
  {
    hide OwnersOk, DataOk, QuietsOk, ResizersOk, BlockIndex, BlockSize;
    assert ThreadOk(s, s.threads[t]);
    EnlargedByMe(s, t);
    var k: nat :| ArenaIs(s, k);
    NextBlock(s.shift, k);
  }

  /** The thread is waiting, for a mutex that is taken or for the flag. */
  ghost predicate Blocked(s: State, t: Tid) {
    && t in s.threads
    && var th := s.threads[t];
       || (th.pc.Spin? && s.resizing)
       || (th.pc.LockBucket? && MutexOf(s.shift, th.hash) in s.owner)
       || (th.pc.QuiesceLock? && th.pc.i < th.pc.capacity && MutexOf(s.shift, th.pc.i) in s.owner)
  }

  ghost predicate CanMove(s: State, t: Tid) { t in s.threads && !s.threads[t].pc.Idle? && !Blocked(s, t) }

  /** Whoever holds a mutex is not waiting for anything. */
  lemma HolderMoves(s: State, m: Slot)
    requires OwnersOk(s) && m in s.owner
    ensures CanMove(s, s.owner[m])
  {
    hide MutexOf;
  }

  /** Whatever the thread's next step is, it takes the thread to another place in the code. */
  ghost predicate MovesOn(s: State, u: Tid) {
    && u in s.threads && Ready(s, u)
    && forall op, e :: u in Next(s, u, op, e).threads && Next(s, u, op, e).threads[u].pc != s.threads[u].pc
  }

  /**
    Deadlock freedom: in every reachable state in which some thread is in a call, some thread can take a step
    that moves it on.
  */
  lemma NoDeadlock(r: Run, i: nat, t: Tid) returns (u: Tid)
    requires IsRun(r) && i < |r.states| && t in r.states[i].threads && !r.states[i].threads[t].pc.Idle?
    ensures CanMove(r.states[i], u) && MovesOn(r.states[i], u)
  {
    hide IsRun, OwnersOk, MutexOf, DataOk, ArenaOk, QuietsOk, ThreadsOk, Resizer, Next, Ready, MovesOn;
    Always(r, i);
    var s := r.states[i];
    u := t;
    if Blocked(s, u) && s.threads[u].pc.Spin? {
      u :| IsResizer(s, u);
      ResizerIsAwake(s.threads[u].pc);
    }
    if Blocked(s, u) {
      var th := s.threads[u];
      var m := if th.pc.LockBucket? then MutexOf(s.shift, th.hash) else MutexOf(s.shift, th.pc.i);
      HolderMoves(s, m);
      u := s.owner[m];
    }
    StepInv(s, u, OpAdd, Elem(0, 0));
    UnblockedMovesOn(s, u);
  }

  lemma ResizerIsAwake(pc: PC)
    requires Resizer(pc)
    ensures !pc.Idle? && !pc.Spin?
  {
  }

  lemma UnblockedMovesOn(s: State, u: Tid)
    requires CanMove(s, u) && Ready(s, u)
    ensures MovesOn(s, u)
  {
    hide MutexOf, Limit, Rehash, Erased, IndexOf;
  }

  // ----- the sequential history -----

  ghost predicate InCall(r: Run, t: Tid, i: nat, j: nat)
    requires IsRun(r)
  {
    && i < j < |r.states| && r.events[i].t == t && t in r.states[i].threads && r.states[i].threads[t].pc.Idle?
    && forall k :: i < k <= j ==> t in r.states[k].threads && !r.states[k].threads[t].pc.Idle?
  }

  /** The operation has not taken effect yet. */
  predicate Early(pc: PC) {
    pc.Idle? || pc.Spin? || pc.LoadCapacity? || pc.LockBucket? || pc.CheckResizing? || pc.CheckCapacity? ||
    pc.UnlockRetry? || pc.ReadBucket? || pc.WriteBucket?
  }

  function Result(pc: PC): bool { if pc.Unlock? || pc.Returning? then pc.res else true }

  function EntryOf(t: Tid, th: Thread): Entry { Entry(t, th.op, th.elem, Result(th.pc)) }

  /** What a step of `t` within a call does to the log. */
  ghost predicate Logs(s: State, s': State, t: Tid) {
    && t in s.threads && t in s'.threads && s'.threads == s.threads[t := s'.threads[t]]
    && var th, th' := s.threads[t], s'.threads[t];
       && th'.op == th.op && th'.elem == th.elem
       && if Early(th.pc) then s'.log == (if Early(th'.pc) then s.log else s.log + [EntryOf(t, th')])
          else !Early(th'.pc) && Result(th'.pc) == Result(th.pc) && s'.log == s.log
  }

  lemma EarlyLogs(s: State, t: Tid, op: Op, e: Elem)
    requires t in s.threads && Ready(s, t) && !s.threads[t].pc.Idle? && Early(s.threads[t].pc)
    ensures Logs(s, Next(s, t, op, e), t)
  {
    hide Erased, MutexOf, IndexOf;
  }

  lemma LateLogs(s: State, t: Tid, op: Op, e: Elem)
    requires t in s.threads && Ready(s, t) && !Early(s.threads[t].pc) && !s.threads[t].pc.Returning?
    requires !Resizer(s.threads[t].pc)
    ensures Logs(s, Next(s, t, op, e), t)
  {
    hide Limit, MutexOf;
  }

  lemma ResizerLogs(s: State, t: Tid, op: Op, e: Elem)
    requires t in s.threads && Ready(s, t) && Resizer(s.threads[t].pc) && !Quiet(s.threads[t].pc)
    ensures Logs(s, Next(s, t, op, e), t)
  {
    hide Limit, MutexOf;
  }

  lemma QuietLogs(s: State, t: Tid, op: Op, e: Elem)
    requires t in s.threads && Ready(s, t) && Quiet(s.threads[t].pc)
    ensures Logs(s, Next(s, t, op, e), t)
  {
    hide Rehash, MutexOf;
  }

  lemma StepLogs(s: State, t: Tid, op: Op, e: Elem)
    requires t in s.threads && Ready(s, t) && !s.threads[t].pc.Idle? && !s.threads[t].pc.Returning?
    ensures Logs(s, Next(s, t, op, e), t)
  {
    hide Next, Ready, Logs, Early, Resizer, Quiet;
    if Early(s.threads[t].pc) {
      EarlyLogs(s, t, op, e);
    } else if Quiet(s.threads[t].pc) {
      QuietLogs(s, t, op, e);
    } else if Resizer(s.threads[t].pc) {
      ResizerLogs(s, t, op, e);
    } else {
      LateLogs(s, t, op, e);
    }
  }

  lemma CallLogs(s: State, t: Tid, op: Op, e: Elem)
    requires t in s.threads && Ready(s, t) && (s.threads[t].pc.Idle? || s.threads[t].pc.Returning?)
    ensures var s' := Next(s, t, op, e);
            && t in s'.threads && s'.threads == s.threads[t := s'.threads[t]] && s'.log == s.log
            && (s.threads[t].pc.Idle? ==> s'.threads[t] == Thread(Spin, op, e, 0, 0))
            && (s.threads[t].pc.Returning? ==> s'.threads[t].pc.Idle?)
  {
  }

  /** Within a call its thread logs its operation once, when it takes effect, and nothing else. */
  lemma {:induction false} LoggedOnce(r: Run, t: Tid, i: nat, j: nat)
    requires IsRun(r) && InCall(r, t, i, j)
    ensures var th := r.states[j].threads[t];
            && th.op == r.events[i].op && th.elem == r.events[i].elem
            && By(r.states[j].log, t) == By(r.states[i].log, t) + (if Early(th.pc) then [] else [EntryOf(t, th)])
            && r.states[i].log <= r.states[j].log
  {
    hide Next, Ready, Init, By;
    var s, e := r.states[j - 1], r.events[j - 1];
    assert IsStep(s, e, r.states[j]);
    if j - 1 == i {
      CallLogs(s, t, e.op, e.elem);
    } else {
      assert InCall(r, t, i, j - 1);
      LoggedOnce(r, t, i, j - 1);
      if s.threads[e.t].pc.Idle? || s.threads[e.t].pc.Returning? {
        CallLogs(s, e.t, e.op, e.elem);
      } else {
        StepLogs(s, e.t, e.op, e.elem);
        var th' := r.states[j].threads[e.t];
        ByLogged(s.log, EntryOf(e.t, th'), t);
      }
    }
  }

  /**
    Linearizability: there is one sequential history of all operations, legal for a set and only ever
    extended, in which every call that is about to return has exactly one entry, made during the call,
    with the answer that it is about to give.
  */
  lemma Linearizable(r: Run, t: Tid, i: nat, j: nat, res: bool)
    requires IsRun(r) && InCall(r, t, i, j) && r.states[j].threads[t].pc == Returning(res)
    ensures Legal(r.states[j].log) && r.states[i].log <= r.states[j].log
    ensures By(r.states[j].log, t) == By(r.states[i].log, t) + [Entry(t, r.events[i].op, r.events[i].elem, res)]
  {
    hide Next, Ready, Init, By, Legal, OwnersOk, ThreadsOk, ResizersOk, QuietsOk, ArenaOk;
    LoggedOnce(r, t, i, j);
    Always(r, j);
  }

  /** ... and whenever no table is being moved, the table holds exactly the set that the history leaves. */
  lemma TableIsHistory(r: Run, i: nat)
    requires IsRun(r) && i < |r.states|
    requires forall t :: t in r.states[i].threads ==> !Moving(r.states[i].threads[t].pc)
    ensures var s := r.states[i]; Placed(s.table) && |s.table| == s.capacity && Elements(s.table) == Played(s.log)
  {
    hide Next, Ready, Init, Legal, OwnersOk, ThreadsOk, Placed, ResizersOk, QuietsOk, ArenaOk;
    Always(r, i);
  }

  // ----- the size -----

  /** Added to the table, not yet to the size. */
  predicate OwesAdd(th: Thread) { th.pc.Count? && th.op.OpAdd? }

  predicate OwesRemove(th: Thread) { th.pc.Count? && th.op.OpRemove? }

  function Adding(s: State): set<Tid> { set t | t in s.threads && OwesAdd(s.threads[t]) }

  function Removing(s: State): set<Tid> { set t | t in s.threads && OwesRemove(s.threads[t]) }

  ghost predicate SizeOk(s: State) { s.size == |Played(s.log)| - |Adding(s)| + |Removing(s)| }

  lemma CountsMove(s: State, s': State, t: Tid)
    requires t in s.threads && t in s'.threads && s'.threads == s.threads[t := s'.threads[t]]
    ensures |Adding(s')| == |Adding(s)| + One(OwesAdd(s'.threads[t])) - One(OwesAdd(s.threads[t]))
    ensures |Removing(s')| == |Removing(s)| + One(OwesRemove(s'.threads[t])) - One(OwesRemove(s.threads[t]))
  {
    hide OwesAdd, OwesRemove;
    OneMoreOrLess(Adding(s), Adding(s'), t);
    OneMoreOrLess(Removing(s), Removing(s'), t);
  }

  /** The set changes with the write of a bucket, and only then. */
  lemma StepPlays(s: State, t: Tid, op: Op, e: Elem)
    requires Inv(s) && t in s.threads && Ready(s, t)
    ensures var A, B, th := Played(s.log), Played(Next(s, t, op, e).log), s.threads[t];
            if th.pc.WriteBucket? then !th.op.OpContains? && Answer(th.op, th.elem, A) && B == After(th.op, th.elem, A)
              else B == A
  {
    hide Played, Legal, OwnersOk, TableIs, Placed, Elements, Rehash, Erased, ResizersOk, QuietsOk, ArenaOk,
      MutexOf, HasMutex, DataOk;
    var th := s.threads[t];
    assert ThreadOk(s, th);
    assert Legal(s.log) by { DataHas(s); }
    if th.pc.WriteBucket? {
      NobodyMoves(s, t);
      Written(s, th, th.pc.bucket);
      Logged(s.log, Entry(t, th.op, th.elem, true));
    } else if th.pc.ReadBucket? {
      NobodyMoves(s, t);
      InBucketOrNot(s, th.elem);
      var pc := Next(s, t, op, e).threads[t].pc;
      if pc.Unlock? {
        LoggedRead(s.log, Entry(t, th.op, th.elem, pc.res));
      }
    }
  }

  /** Only a Count changes the size, and only a write makes one due. */
  ghost predicate Owes(s: State, s': State, t: Tid) {
    && t in s.threads && t in s'.threads
    && var th, th' := s.threads[t], s'.threads[t];
       && s'.threads == s.threads[t := th']
       && s'.size == s.size + (if !th.pc.Count? then 0 else if th.op.OpRemove? then -1 else 1)
       && (th'.pc.Count? <==> th.pc.WriteBucket?)
       && (th.pc.WriteBucket? ==> th'.op == th.op)
  }

  lemma EarlyOwes(s: State, t: Tid, op: Op, e: Elem)
    requires t in s.threads && Ready(s, t) && Early(s.threads[t].pc)
    ensures Owes(s, Next(s, t, op, e), t)
  {
    hide Erased, Log, IndexOf, MutexOf;
  }

  lemma LateOwes(s: State, t: Tid, op: Op, e: Elem)
    requires t in s.threads && Ready(s, t) && !Early(s.threads[t].pc) && !Resizer(s.threads[t].pc)
    ensures Owes(s, Next(s, t, op, e), t)
  {
    hide Limit, MutexOf;
  }

  lemma ResizerOwes(s: State, t: Tid, op: Op, e: Elem)
    requires t in s.threads && Ready(s, t) && Resizer(s.threads[t].pc)
    ensures Owes(s, Next(s, t, op, e), t)
  {
    hide Rehash, Limit, MutexOf;
  }

  lemma StepOwes(s: State, t: Tid, op: Op, e: Elem)
    requires t in s.threads && Ready(s, t)
    ensures Owes(s, Next(s, t, op, e), t)
  {
    hide Next, Ready, Owes, Early, Resizer;
    if Early(s.threads[t].pc) {
      EarlyOwes(s, t, op, e);
    } else if Resizer(s.threads[t].pc) {
      ResizerOwes(s, t, op, e);
    } else {
      LateOwes(s, t, op, e);
    }
  }

  lemma StepCounts(s: State, t: Tid, op: Op, e: Elem)
    requires Inv(s) && SizeOk(s) && t in s.threads && Ready(s, t)
    ensures SizeOk(Next(s, t, op, e))
  {
    hide Next, Ready, Played, Adding, Removing, OwnersOk, ArenaOk, DataOk, ResizersOk, QuietsOk;
    var s', th := Next(s, t, op, e), s.threads[t];
    assert ThreadOk(s, th);
    StepOwes(s, t, op, e);
    StepPlays(s, t, op, e);
    CountsMove(s, s', t);
  }

  lemma {:induction false} AlwaysSized(r: Run, i: nat)
    requires IsRun(r) && i < |r.states|
    ensures SizeOk(r.states[i])
  {
    hide Inv, Next, Ready, SizeOk;
    if i == 0 {
      SizedAtFirst(r.states[0]);
    } else {
      AlwaysSized(r, i - 1);
      Always(r, i - 1);
      var e := r.events[i - 1];
      assert IsStep(r.states[i - 1], e, r.states[i]);
      StepCounts(r.states[i - 1], e.t, e.op, e.elem);
    }
  }

  lemma SizedAtFirst(s: State)
    requires Init(s)
    ensures SizeOk(s)
  {
    hide ValidatedShift;
    assert Adding(s) == {} && Removing(s) == {};
  }

  /** The counter never goes below zero, and is exact whenever nobody is between a write and its count. */
  lemma SizeConserved(r: Run, i: nat)
    requires IsRun(r) && i < |r.states|
    ensures SizeOk(r.states[i]) && r.states[i].size >= 0
    ensures (forall t :: t in r.states[i].threads ==> !r.states[i].threads[t].pc.Count?) ==>
              r.states[i].size == |Played(r.states[i].log)|
  {
    hide IsRun, Played, OwnersOk, DataOk, ArenaOk, ResizersOk, QuietsOk;
    var s := r.states[i];
    Always(r, i);
    AlwaysSized(r, i);
    forall t, u | t in Adding(s) && u in Adding(s) && s.threads[t].elem == s.threads[u].elem
      ensures t == u
    {
      if t != u {
        OtherBucket(s, t, u);
      }
    }
    assert forall t :: t in Adding(s) ==> ThreadOk(s, s.threads[t]);
    NoMoreThan(Adding(s), map t | t in s.threads :: s.threads[t].elem, Played(s.log));
    if forall t :: t in s.threads ==> !s.threads[t].pc.Count? {
      assert Adding(s) == {} && Removing(s) == {};
    }
  }
}
