/** What the size counter and the capacity of the lock-free set tell about its elements. */
module LockFreeSize {
  import opened Common
  import opened SplitOrder
  import opened ListHeap
  import opened Traversal
  import opened LockFreeSet
  import opened LockFreeInv
  import opened LockFreeSteps
  import opened LockFreeSafety
  import opened LockFreeLinear
  import E = Epochs

  /** The thread has added its element, and not counted it yet. */
  predicate OwesAdd(th: Thread) { th.pc.CountAdd? }

  /** The thread has removed its element, and not counted it yet. */
  predicate OwesRemove(th: Thread) { th.pc.RemoveUnlink? || th.pc == InReclaimer(KRemove) || th.pc.CountRemove? }

  function Adding(s: State): set<Tid> { set t | t in s.threads && OwesAdd(s.threads[t]) }

  function Removed(s: State): set<Tid> { set t | t in s.threads && OwesRemove(s.threads[t]) }

  /** The counter, up to wrap-around, is what it will be once everyone has counted, less what is still to be counted. */
  ghost predicate SizeOk(s: State) { s.size == (|Abs(s.heap)| - |Adding(s)| + |Removed(s)|) % WORD }

  // ----- arithmetic -----

  lemma ModUnique(a: int, q: int, r: int)
    requires a == q * WORD + r && 0 <= r < WORD
    ensures a % WORD == r
  {
  }

  lemma CountUp(a: int)
    ensures (a % WORD + 1) % WORD == (a + 1) % WORD
  {
    var q, r := a / WORD, a % WORD;
    if r + 1 < WORD {
      ModUnique(a + 1, q, r + 1);
    } else {
      ModUnique(a + 1, q + 1, 0);
    }
  }

  lemma CountDown(a: int)
    ensures (a % WORD + WORD - 1) % WORD == (a - 1) % WORD
  {
    var q, r := a / WORD, a % WORD;
    if r > 0 {
      ModUnique(a - 1, q, r - 1);
      ModUnique(r + WORD - 1, 1, r - 1);
    } else {
      ModUnique(a - 1, q - 1, WORD - 1);
    }
  }

  // ----- who owes a count -----

  lemma BucketOwesNothing(h: Heap, th: Thread)
    requires th.head in h.nodes
    ensures !OwesAdd(NextBucket(h, th)) && !OwesRemove(NextBucket(h, th))
  {
  }

  lemma ContainsOwesNothing(h: Heap, th: Thread, c: NodeId)
    requires c in h.nodes
    ensures !OwesAdd(ContainsAt(h, th, c)) && !OwesRemove(ContainsAt(h, th, c))
  {
  }

  lemma FoundOwesNothing(s: State, t: Tid, th: Thread)
    requires th.curr in s.heap.nodes && t in s.threads && s.threads[t].pc.FindLoad?
    ensures var s' := Found(s, t, th); t in s'.threads && !OwesAdd(s'.threads[t]) && !OwesRemove(s'.threads[t])
    ensures Found(s, t, th).size == s.size
  {
    hide Matches, Alloc, StoreNext, DeleteNode, Payload;
  }

  /** A count is owed from the effect until the counter has been updated. */
  ghost predicate Owes(s: State, s': State, t: Tid) {
    && t in s.threads && t in s'.threads
    && var th := s.threads[t];
       && (OwesAdd(s'.threads[t]) <==> LinksElement(s, t))
       && (OwesRemove(s'.threads[t]) <==> MarksElement(s, t) || (OwesRemove(th) && !th.pc.CountRemove?))
       && s'.size == if th.pc.CountAdd? then (s.size + 1) % WORD
                     else if th.pc.CountRemove? then (s.size + WORD - 1) % WORD else s.size
  }

  lemma ListStepOwes(s: State, t: Tid, op: Op, e: Elem)
    requires t in s.threads && Ready(s, t) && InList(s.threads[t].pc)
    ensures Owes(s, Next(s, t, op, e), t)
  {
    hide E.InternalStep, E.Enabled, E.UnlinkStep, Found, ContainsAt, AtOrPast, Matches;
    hide Publish, Unlink, MarkNode;
    var th := s.threads[t];
    if th.pc.FindLoad? {
      FoundOwesNothing(s, t, th.(currAt := s.heap.clock));
    } else if th.pc.ContainsLoad? {
      ContainsOwesNothing(s.heap, th, s.heap.nodes[th.curr].next);
    }
  }

  lemma OtherStepOwes(s: State, t: Tid, op: Op, e: Elem)
    requires t in s.threads && Ready(s, t) && !InList(s.threads[t].pc)
    ensures Owes(s, Next(s, t, op, e), t)
  {
    hide E.InternalStep, E.Enabled, E.BeginStep, E.LeaveStep, NextBucket;
    var th := s.threads[t];
    if th.pc.LoadBucket? {
      if th.pc.i in s.buckets {
        BucketOwesNothing(s.heap, th.(head := s.buckets[th.pc.i]));
      }
    } else if th.pc.BucketCas? {
      BucketOwesNothing(s.heap, th.(head := th.pc.sentinel, stack := th.stack[..|th.stack| - 1]));
    }
  }

  lemma StepOwes(s: State, t: Tid, op: Op, e: Elem)
    requires t in s.threads && Ready(s, t)
    ensures Owes(s, Next(s, t, op, e), t)
  {
    hide Next, Ready, Owes;
    if InList(s.threads[t].pc) {
      ListStepOwes(s, t, op, e);
    } else {
      OtherStepOwes(s, t, op, e);
    }
  }

  /** Only thread `t` may have started or stopped owing. */
  lemma Owing(s: State, s': State, t: Tid)
    requires t in s.threads && t in s'.threads && s'.threads == s.threads[t := s'.threads[t]]
    ensures |Adding(s')| == |Adding(s)| + One(OwesAdd(s'.threads[t])) - One(OwesAdd(s.threads[t]))
    ensures |Removed(s')| == |Removed(s)| + One(OwesRemove(s'.threads[t])) - One(OwesRemove(s.threads[t]))
  {
    hide OwesAdd, OwesRemove;
    OneMoreOrLess(Adding(s), Adding(s'), t);
    OneMoreOrLess(Removed(s), Removed(s'), t);
  }

  lemma OnlyThreadSteps(s: State, t: Tid, op: Op, e: Elem)
    requires t in s.threads && Ready(s, t)
    ensures var s' := Next(s, t, op, e); t in s'.threads && s'.threads == s.threads[t := s'.threads[t]]
  {
    hide Found, NextBucket, ContainsAt, E.InternalStep, E.Enabled;
    if !s.threads[t].pc.Idle? {
      StepSteps(s, t, op, e);
    }
  }

  lemma StepSize(s: State, t: Tid, op: Op, e: Elem)
    requires Inv(s) && SizeOk(s) && t in s.threads && Ready(s, t)
    ensures SizeOk(Next(s, t, op, e))
  {
    hide Inv, Ready, Next, Abs, Adding, Removed;
    var s', th := Next(s, t, op, e), s.threads[t];
    var due := |Abs(s.heap)| - |Adding(s)| + |Removed(s)|;
    OnlyThreadSteps(s, t, op, e);
    StepOwes(s, t, op, e);
    Owing(s, s', t);
    StepRefinesSet(s, t, op, e);
    if th.pc.CountAdd? {
      CountUp(due);
    } else if th.pc.CountRemove? {
      CountDown(due);
    }
  }

  /** In every reachable state the counter owes exactly what is still to be counted. */
  lemma {:induction false} SizeConserved(r: Run, i: nat)
    requires IsRun(r) && i < |r.states|
    ensures SizeOk(r.states[i])
  {
    hide SizeOk, Inv, Next, Ready, Init;
    if i == 0 {
      SizeAtFirst(r.states[0]);
    } else {
      SizeConserved(r, i - 1);
      Always(r, i - 1);
      var e := r.events[i - 1];
      assert IsStep(r.states[i - 1], e, r.states[i]);
      StepSize(r.states[i - 1], e.t, e.op, e.elem);
    }
  }

  lemma SizeAtFirst(s: State)
    requires Init(s)
    ensures SizeOk(s)
  {
    hide PowerOfTwo, OrdinaryKey;
    assert Adding(s) == {} && Removed(s) == {};
    assert forall n :: !Member(s.heap, n) by {
      LowBelow(0, CODE_BITS);
      assert SentinelKeyForm(0);
    }
    assert Abs(s.heap) == {};
  }

  /** Once nobody is between an effect and its count, the counter is the number of elements. */
  lemma SizeExact(r: Run, i: nat)
    requires IsRun(r) && i < |r.states|
    requires forall t :: t in r.states[i].threads ==>
             !OwesAdd(r.states[i].threads[t]) && !OwesRemove(r.states[i].threads[t])
    requires |Abs(r.states[i].heap)| < WORD
    ensures r.states[i].size == |Abs(r.states[i].heap)|
  {
    hide IsRun, Abs;
    var s := r.states[i];
    SizeConserved(r, i);
    assert Adding(s) == {} && Removed(s) == {};
    ModUnique(|Abs(s.heap)|, 0, |Abs(s.heap)|);
  }

  /**
    Whatever the counter shows, wrapped around or not, the capacity stays a power of two no larger than
    the maximum, and only ever doubles.
  */
  lemma CapacityDoubles(r: Run, i: nat)
    requires IsRun(r) && i < |r.events|
    ensures var s, s' := r.states[i], r.states[i + 1];
            && PowerOfTwo(s.capacity) && 2 <= s.capacity <= s.maxCapacity == s'.maxCapacity
            && (s'.capacity == s.capacity || s'.capacity == 2 * s.capacity <= s.maxCapacity)
  {
    hide Inv, Ready, Next, PowerOfTwo;
    var s, e := r.states[i], r.events[i];
    Always(r, i);
    Always(r, i + 1);
    assert IsStep(s, e, r.states[i + 1]);
    StepCapacity(s, e.t, e.op, e.elem);
    assert CapacityOk(s) && CapacityOk(r.states[i + 1]) by { Caps(s); Caps(r.states[i + 1]); }
  }

  lemma Caps(s: State)
    requires Inv(s)
    ensures CapacityOk(s)
  {
  }

  lemma StepCapacity(s: State, t: Tid, op: Op, e: Elem)
    requires t in s.threads && Ready(s, t)
    ensures var s' := Next(s, t, op, e);
            s'.maxCapacity == s.maxCapacity && (s'.capacity == s.capacity || s'.capacity == 2 * s.capacity)
  {
    hide E.InternalStep, E.Enabled, E.UnlinkStep, E.BeginStep, E.LeaveStep, NextBucket, ContainsAt, AtOrPast, Matches;
    hide Publish, Unlink, MarkNode, Alloc, StoreNext;
  }
}
