/**
  The load factor of the lock-free set (src/HashSetLockFree.h:114-122). An Add that has counted its element
  reads the capacity, then the size, and tries once to double the capacity; if another thread has changed the
  capacity meanwhile it leaves it at that. Below the maximal capacity the size exceeds three quarters of the
  capacity by no more than the Adds that are still about to look, and the attempts that have failed.
*/
module LockFreeLoad {
  import opened Common
  import opened ListHeap
  import opened Traversal
  import opened SplitOrder
  import opened LockFreeSet
  import opened LockFreeInv
  import opened LockFreeSteps
  import opened LockFreeSafety
  import opened LockFreeLinear
  import opened LockFreeSize
  import LockFreeHistory
  import Tables
  import E = Epochs

  /** What the counter would show if it did not wrap around. */
  ghost function Counted(s: State): int { |Abs(s.heap)| - |Adding(s)| + |Removed(s)| }

  /** An Add that has counted its element, and has not seen, or made, room for it. */
  predicate Pending(th: Thread) { th.pc.GrowLoad? || th.pc.GrowSize? || th.pc.GrowCas? }

  function Pendings(s: State): set<Tid> { set t | t in s.threads && Pending(s.threads[t]) }

  /**
    The next step of `t` gives up without room: its CAS is bound to fail, or the counter it reads has wrapped
    around.
  */
  ghost predicate GivesUp(s: State, t: Tid) {
    t in s.threads &&
    var pc := s.threads[t].pc;
    || (pc.GrowCas? && s.capacity != pc.cap)
    || (pc.GrowSize? && pc.cap < s.maxCapacity && 4 * s.size <= 3 * pc.cap && Counted(s) >= WORD)
  }

  /** No thread has read a capacity that is still to come. */
  ghost predicate ReadsPast(s: State) {
    forall t :: t in s.threads && (s.threads[t].pc.GrowSize? || s.threads[t].pc.GrowCas?) ==>
      s.threads[t].pc.cap <= s.capacity
  }

  /** Unless the capacity is at its maximum, the load factor is exceeded by no more than this. */
  ghost predicate LoadOk(s: State, lost: nat) {
    s.capacity < s.maxCapacity ==> Counted(s) <= Tables.Limit(s.capacity) + |Pendings(s)| + lost
  }

  // ----- one step -----

  /** What a step makes of whether its thread is pending, and of the capacity. */
  ghost predicate Pends(s: State, s': State, t: Tid) {
    && t in s.threads && t in s'.threads && s'.maxCapacity == s.maxCapacity
    && var pc, pc' := s.threads[t].pc, s'.threads[t].pc;
       && (Pending(s'.threads[t]) <==>
             || pc.CountAdd? || pc.GrowLoad?
             || (pc.GrowSize? && pc.cap < s.maxCapacity && Tables.Limit(pc.cap) < s.size))
       && s'.capacity == (if pc.GrowCas? && s.capacity == pc.cap then 2 * pc.cap else s.capacity)
       && (pc'.GrowSize? ==> pc.GrowLoad? && pc'.cap == s.capacity)
       && (pc'.GrowCas? ==> pc.GrowSize? && pc'.cap == pc.cap)
  }

  lemma FoundPendsNot(s: State, t: Tid, th: Thread)
    requires th.curr in s.heap.nodes && t in s.threads && s.threads[t].pc.FindLoad?
    ensures var s' := Found(s, t, th); t in s'.threads && !Pending(s'.threads[t])
    ensures Found(s, t, th).capacity == s.capacity && Found(s, t, th).maxCapacity == s.maxCapacity
  {
    hide Matches, Alloc, StoreNext, DeleteNode, Payload;
  }

  lemma ListPends(s: State, t: Tid, op: Op, e: Elem)
    requires t in s.threads && Ready(s, t) && InList(s.threads[t].pc)
    ensures Pends(s, Next(s, t, op, e), t)
  {
    hide E.InternalStep, E.Enabled, E.UnlinkStep, Found, AtOrPast, Matches, Publish, Unlink, MarkNode;
    var th := s.threads[t];
    if th.pc.FindLoad? {
      FoundPendsNot(s, t, th.(currAt := s.heap.clock));
    }
  }

  lemma BucketPendsNot(h: Heap, th: Thread)
    requires th.head in h.nodes
    ensures !Pending(NextBucket(h, th))
  {
  }

  lemma OtherPends(s: State, t: Tid, op: Op, e: Elem)
    requires t in s.threads && Ready(s, t) && !InList(s.threads[t].pc)
    ensures Pends(s, Next(s, t, op, e), t)
  {
    hide E.InternalStep, E.Enabled, E.BeginStep, E.LeaveStep, NextBucket;
    var th := s.threads[t];
    if th.pc.LoadBucket? {
      if th.pc.i in s.buckets {
        BucketPendsNot(s.heap, th.(head := s.buckets[th.pc.i]));
      }
    } else if th.pc.BucketCas? {
      BucketPendsNot(s.heap, th.(head := th.pc.sentinel, stack := th.stack[..|th.stack| - 1]));
    }
  }

  lemma StepPends(s: State, t: Tid, op: Op, e: Elem)
    requires t in s.threads && Ready(s, t)
    ensures Pends(s, Next(s, t, op, e), t)
  {
    hide Next, Ready, Pends;
    if InList(s.threads[t].pc) {
      ListPends(s, t, op, e);
    } else {
      OtherPends(s, t, op, e);
    }
  }

  /** Only a count changes what is counted. */
  lemma StepCounted(s: State, t: Tid, op: Op, e: Elem)
    requires Inv(s) && t in s.threads && Ready(s, t)
    ensures Counted(Next(s, t, op, e)) ==
            Counted(s) + One(s.threads[t].pc.CountAdd?) - One(s.threads[t].pc.CountRemove?)
  {
    hide Inv, Ready, Next, Abs, Adding, Removed;
    OnlyThreadSteps(s, t, op, e);
    StepOwes(s, t, op, e);
    Owing(s, Next(s, t, op, e), t);
    StepRefinesSet(s, t, op, e);
  }

  lemma PendingsMove(s: State, s': State, t: Tid)
    requires t in s.threads && t in s'.threads && s'.threads == s.threads[t := s'.threads[t]]
    ensures |Pendings(s')| == |Pendings(s)| + One(Pending(s'.threads[t])) - One(Pending(s.threads[t]))
  {
    hide Pending;
    OneMoreOrLess(Pendings(s), Pendings(s'), t);
  }

  lemma CapsOf(s: State, t: Tid)
    requires Inv(s) && t in s.threads
    ensures 2 <= s.capacity <= s.maxCapacity
    ensures s.threads[t].pc.GrowCas? ==> s.threads[t].pc.cap < s.maxCapacity
  {
    hide HeapInv, E.OwnInv, RecTie, DeletedOk, BucketsOk, PowerOfTwo;
    Unfold(s, t);
  }

  lemma StepReadsPast(s: State, t: Tid, op: Op, e: Elem)
    requires Inv(s) && ReadsPast(s) && t in s.threads && Ready(s, t)
    ensures ReadsPast(Next(s, t, op, e))
  {
    hide Inv, Ready, Next;
    OnlyThreadSteps(s, t, op, e);
    StepPends(s, t, op, e);
  }

  lemma StepLoad(s: State, t: Tid, op: Op, e: Elem, lost: nat)
    requires Inv(s) && ReadsPast(s) && LoadOk(s, lost) && SizeOk(s) && t in s.threads && Ready(s, t)
    ensures LoadOk(Next(s, t, op, e), lost + One(GivesUp(s, t)))
  {
    hide Inv, Ready, Next, Abs, Adding, Removed, Pendings, Tables.Limit;
    var s', pc := Next(s, t, op, e), s.threads[t].pc;
    OnlyThreadSteps(s, t, op, e);
    StepPends(s, t, op, e);
    StepCounted(s, t, op, e);
    PendingsMove(s, s', t);
    CapsOf(s, t);
    if pc.GrowSize? {
      Tables.RoomForOneMore(pc.cap, s.capacity);
      Tables.LimitIsThreeQuarters(s.size, pc.cap);
      NotWrapped(Counted(s));
    } else if pc.GrowCas? {
      Tables.RoomForOneMore(pc.cap, s.capacity);
    }
  }

  lemma NotWrapped(a: int)
    ensures 0 <= a < WORD ==> a % WORD == a
  {
  }

  // ----- every run -----

  /** How many of the first `i` steps gave up growing without room. */
  ghost function Losses(r: Run, i: nat): nat
    requires IsRun(r) && i < |r.states|
  {
    if i == 0 then 0 else Losses(r, i - 1) + One(GivesUp(r.states[i - 1], r.events[i - 1].t))
  }

  lemma {:induction false} AlwaysLoaded(r: Run, i: nat)
    requires IsRun(r) && i < |r.states|
    ensures LoadOk(r.states[i], Losses(r, i)) && ReadsPast(r.states[i])
  {
    hide Inv, Next, Ready, LoadOk, ReadsPast, GivesUp, SizeOk;
    if i == 0 {
      LoadedAtFirst(r.states[0]);
    } else {
      AlwaysLoaded(r, i - 1);
      Always(r, i - 1);
      SizeConserved(r, i - 1);
      var s, e := r.states[i - 1], r.events[i - 1];
      assert IsStep(s, e, r.states[i]);
      StepLoad(s, e.t, e.op, e.elem, Losses(r, i - 1));
      StepReadsPast(s, e.t, e.op, e.elem);
    }
  }

  lemma LoadedAtFirst(s: State)
    requires Init(s)
    ensures LoadOk(s, 0) && ReadsPast(s)
  {
    hide PowerOfTwo, OrdinaryKey;
    assert Adding(s) == {} && Removed(s) == {} && Pendings(s) == {};
    LockFreeHistory.EmptyAtFirst(s);
  }

  /**
    In every run, unless the capacity is at its maximum, what has been counted exceeds three quarters of it by
    no more than the pending Adds and the attempts to grow that have failed so far.
  */
  lemma LoadBound(r: Run, i: nat)
    requires IsRun(r) && i < |r.states| && r.states[i].capacity < r.states[i].maxCapacity
    ensures 4 * (Counted(r.states[i]) - |Pendings(r.states[i])| - Losses(r, i)) <= 3 * r.states[i].capacity
  {
    hide IsRun, Losses, Tables.Limit, Counted;
    var s := r.states[i];
    AlwaysLoaded(r, i);
    Tables.LimitIsThreeQuarters(Counted(s) - |Pendings(s)| - Losses(r, i), s.capacity);
  }

  /** With no call under way the set itself is within that bound. */
  lemma LoadAtRest(r: Run, i: nat)
    requires IsRun(r) && i < |r.states| && forall t :: t in r.states[i].threads ==> r.states[i].threads[t].pc.Idle?
    requires r.states[i].capacity < r.states[i].maxCapacity
    ensures 4 * (|Abs(r.states[i].heap)| - Losses(r, i)) <= 3 * r.states[i].capacity
  {
    hide IsRun, Losses, Abs;
    LoadBound(r, i);
    var s := r.states[i];
    assert Adding(s) == {} && Removed(s) == {} && Pendings(s) == {};
  }
}
