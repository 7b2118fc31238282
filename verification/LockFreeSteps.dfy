/** Every step of every thread keeps the invariant of the lock-free set. */
module LockFreeSteps {
  import opened Common
  import opened Bits
  import opened SplitOrder
  import opened ListHeap
  import opened Traversal
  import opened LockFreeSet
  import opened LockFreeInv
  import E = Epochs

  // ----- the invariant of the whole state -----

  /** Every bucket that has been set up is its own sentinel, linked and, being a sentinel, never marked. */
  ghost predicate BucketsOk(s: State) {
    && 0 in s.buckets
    && forall i :: i in s.buckets ==> i < s.maxCapacity && SentinelAt(s.heap, s.buckets[i], SentinelKey(i))
  }

  ghost predicate CapacityOk(s: State) {
    PowerOfTwo(s.capacity) && PowerOfTwo(s.maxCapacity) && 2 <= s.capacity <= s.maxCapacity <= Pow2(CODE_BITS)
  }

  ghost predicate CtlTie(pc: PC, c: E.Ctl) {
    match pc
    case Idle => c.Out?
    case InReclaimer(KEnter) => c.Joining? || c.Reading? || c.Announcing?
    case InReclaimer(_) => E.InGuard(c) && !c.Inside?
    case _ => c.Inside?
  }

  ghost predicate CtlsTie(s: State) {
    s.rec.parts.Keys == s.threads.Keys == s.rec.ctl.Keys &&
    forall t :: t in s.threads ==> CtlTie(s.threads[t].pc, s.rec.ctl[t])
  }

  /** The reclaimer has been told of exactly the unlinked nodes. */
  ghost predicate FatesTie(s: State) { forall n :: n in s.rec.fates <==> Un(s.heap, n) }

  /** A node unlinked since the Guard of `t` opened counts `t` among those that may hold it. */
  ghost predicate HolderTie(s: State, t: Tid)
    requires t in s.threads
  {
    Guarded(s.threads[t].pc) ==>
      forall n :: Un(s.heap, n) && s.threads[t].since <= s.heap.nodes[n].died && n in s.rec.fates ==>
        t in s.rec.fates[n].holders
  }

  ghost predicate RecTie(s: State) {
    CtlsTie(s) && FatesTie(s) && forall t :: t in s.threads ==> HolderTie(s, t)
  }

  /** A private node that its thread has let go of. */
  ghost predicate Discarded(s: State, n: NodeId) {
    n in s.heap.nodes && s.heap.nodes[n].status.Private? &&
    s.heap.nodes[n].writer in s.threads && s.threads[s.heap.nodes[n].writer].node != n
  }

  /** A private node is the one its thread is working on, or has been deleted, once. */
  ghost predicate DeletedOk(s: State) {
    && (forall n :: s.deleted[n] == One(Discarded(s, n)))
    && (forall n :: n in s.heap.nodes && s.heap.nodes[n].status.Private? ==> s.heap.nodes[n].writer in s.threads)
  }

  ghost predicate ThreadsOk(s: State) {
    forall t :: t in s.threads ==> ThreadOk(s.heap, s.threads[t], t, s.maxCapacity)
  }

  ghost predicate Inv(s: State) {
    && HeapInv(s.heap) && E.OwnInv(s.rec) && BucketsOk(s) && CapacityOk(s)
    && RecTie(s) && DeletedOk(s) && ThreadsOk(s)
  }

  /** The invariant, spelt out for the thread that is about to step. */
  lemma Unfold(s: State, t: Tid)
    requires Inv(s) && t in s.threads
    ensures ThreadOk(s.heap, s.threads[t], t, s.maxCapacity)
    ensures HeapInv(s.heap) && E.OwnInv(s.rec) && BucketsOk(s) && CapacityOk(s) && RecTie(s) && DeletedOk(s)
    ensures ThreadsOk(s)
  {
  }

  // ----- putting the pieces together -----

  ghost predicate OnlyThread(s: State, s': State, t: Tid) {
    t in s.threads && t in s'.threads && s'.threads == s.threads[t := s'.threads[t]] && s'.maxCapacity == s.maxCapacity
  }

  lemma OthersOk(s: State, s': State, t: Tid)
    requires OnlyThread(s, s', t) && Evolves(s.heap, s'.heap, t) && Births(s.heap) && Kinds(s'.heap)
    requires ThreadsOk(s) && ThreadOk(s'.heap, s'.threads[t], t, s.maxCapacity)
    ensures ThreadsOk(s')
  {
    hide ThreadOk, Evolves, Births, Kinds;
    forall u | u in s'.threads
      ensures ThreadOk(s'.heap, s'.threads[u], u, s'.maxCapacity)
    {
      if u != t {
        ThreadStable(s.heap, s'.heap, t, s.threads[u], u, s.maxCapacity);
      }
    }
  }

  lemma BucketsStable(s: State, h: Heap, t: Tid)
    requires BucketsOk(s) && Evolves(s.heap, h, t) && Kinds(h)
    ensures BucketsOk(s.(heap := h))
  {
    hide Evolves, Kinds, SentinelKey, SentinelKeyForm;
    forall i | i in s.buckets
      ensures SentinelAt(h, s.buckets[i], SentinelKey(i))
    {
      assert SentinelAt(s.heap, s.buckets[i], SentinelKey(i));
      SentinelStable(s.heap, h, t, s.buckets[i]);
    }
  }

  /** A step that changes neither memory nor reclaimer, only what `t` knows, buckets and counters. */
  lemma Quiet(s: State, s': State, t: Tid)
    requires Inv(s) && OnlyThread(s, s', t)
    requires s'.heap == s.heap && s'.rec == s.rec && s'.deleted == s.deleted
    requires s'.threads[t].node == s.threads[t].node && s'.threads[t].since == s.threads[t].since
    requires CtlTie(s.threads[t].pc, E.Inside) && CtlTie(s'.threads[t].pc, E.Inside)
    requires BucketsOk(s') && CapacityOk(s') && ThreadOk(s.heap, s'.threads[t], t, s.maxCapacity)
    ensures Inv(s')
  {
    hide ThreadOk, HeapInv, BucketsOk, CapacityOk;
    assert HeapInv(s'.heap);
    EvolvesSame(s.heap, t) by { hide *; }
    OthersOk(s, s', t) by { HeapHas(s.heap); hide *; hide Evolves; }
    QuietTies(s, s', t);
  }

  lemma HeapHas(h: Heap)
    requires HeapInv(h)
    ensures Ends(h) && Births(h) && Kinds(h) && Marks(h) && Links(h) && Sorted(h) && Unique(h)
    ensures FrozenLinks(h) && FrozenSorted(h) && FrozenUnique(h)
  {
  }

  lemma QuietTies(s: State, s': State, t: Tid)
    requires RecTie(s) && DeletedOk(s) && OnlyThread(s, s', t)
    requires s'.heap == s.heap && s'.rec == s.rec && s'.deleted == s.deleted
    requires s'.threads[t].node == s.threads[t].node && s'.threads[t].since == s.threads[t].since
    requires CtlTie(s.threads[t].pc, E.Inside) && CtlTie(s'.threads[t].pc, E.Inside)
    ensures RecTie(s') && DeletedOk(s')
  {
    assert CtlTie(s.threads[t].pc, s.rec.ctl[t]) && s.rec.ctl[t] == E.Inside;
    forall u | u in s'.threads
      ensures HolderTie(s', u)
    {
      assert HolderTie(s, u);
    }
    assert forall n :: Discarded(s', n) <==> Discarded(s, n);
  }

  // ----- choosing the bucket -----

  lemma BucketBeforeElement(capacity: nat, code: nat)
    requires PowerOfTwo(capacity) && 0 < capacity <= Pow2(CODE_BITS)
    ensures code % capacity < capacity && SentinelKey(code % capacity) < OrdinaryKey(code)
  {
    var k: nat :| capacity == Pow2(k);
    if k > CODE_BITS {
      Pow2Monotone(CODE_BITS + 1, k);
    }
    BucketIsRemainder(code, k);
    SentinelBeforeElement(code, k);
  }

  lemma StepLoadCapacity(s: State, t: Tid)
    requires Inv(s) && t in s.threads && s.threads[t].pc.LoadCapacity?
    ensures s.capacity > 0 && Inv(LoadCapacityStep(s, t, s.threads[t]))
  {
    hide SentinelKey, OrdinaryKey, Inv, HeapInv, RecTie, DeletedOk, ThreadsOk, E.OwnInv;
    hide PowerOfTwo;
    Unfold(s, t);
    BucketBeforeElement(s.capacity, s.threads[t].elem.code);
    QuietLocal(s, LoadCapacityStep(s, t, s.threads[t]), t);
  }

  /** Where a bucket on the way to `th.bucket` has its sentinel, the next search can start from it. */
  lemma NextBucketOk(h: Heap, th: Thread, t: Tid, max: nat, i: nat)
    requires StackOk(th, max) && max <= Pow2(CODE_BITS) && th.since <= h.clock && th.node == NULL
    requires SentinelAt(h, th.head, SentinelKey(i)) && i == if th.stack == [] then th.bucket
             else ParentIndex(Top(th.stack))
    ensures ThreadOk(h, NextBucket(h, th), t, max)
  {
    hide SentinelKey, OrdinaryKey, SentinelKeyForm;
    if th.stack == [] {
      var start := th.(key := OrdinaryKey(th.elem.code), want := Some(th.elem));
      if th.op.OpContains? {
        AheadStart(h, th.head, th.since, th.elem);
        ContainsAtOk(h, start, t, max, th.head);
      }
    } else {
      ParentComesFirst(Top(th.stack));
    }
  }

  lemma NextBucketKeeps(h: Heap, th: Thread)
    requires th.head in h.nodes
    ensures var n := NextBucket(h, th); n.node == th.node && n.since == th.since && CtlTie(n.pc, E.Inside)
  {
  }

  lemma AheadStart(h: Heap, c: NodeId, since: nat, e: Elem)
    requires Lk(h, c) && h.nodes[c].key < OrdinaryKey(e.code)
    ensures Ahead(h, c, since, e)
  {
  }

  lemma ContainsAtOk(h: Heap, th: Thread, t: Tid, max: nat, c: NodeId)
    requires StackOk(th, max) && TargetOk(th) && th.since <= h.clock && th.node == NULL
    requires Walking(h, th.(curr := c))
    ensures ThreadOk(h, ContainsAt(h, th, c), t, max)
  {
    hide OrdinaryKey, SentinelKey;
    if AtOrPast(h.nodes[c], th.key, th.want) && !Matches(h.nodes[c], th.key, th.want) {
      AheadPast(h, c, th.since, th.elem);
    }
  }

  lemma StepLoadBucket(s: State, t: Tid, i: nat)
    requires Inv(s) && t in s.threads && s.threads[t].pc == LoadBucket(i)
    ensures if i in s.buckets then s.buckets[i] in s.heap.nodes else i > 0
    ensures Inv(LoadBucketStep(s, t, s.threads[t], i))
  {
    hide SentinelKey, OrdinaryKey, Inv, HeapInv, RecTie, DeletedOk, ThreadsOk, SentinelKeyForm, E.OwnInv, CapacityOk,
      NextBucket, ThreadOk, SentinelAt;
    var th := s.threads[t];
    Unfold(s, t);
    if i in s.buckets {
      SetBucket(s, t, i);
      NextBucketKeeps(s.heap, th.(head := s.buckets[i]));
    } else {
      PushedBucket(s.heap, th, t, s.maxCapacity, i);
    }
    QuietLocal(s, LoadBucketStep(s, t, th, i), t) by { hide BucketsOk, StackOk; }
  }

  lemma SetBucket(s: State, t: Tid, i: nat)
    requires BucketsOk(s) && CapacityOk(s) && t in s.threads && s.threads[t].pc == LoadBucket(i) && i in s.buckets
    requires ThreadOk(s.heap, s.threads[t], t, s.maxCapacity)
    ensures s.buckets[i] in s.heap.nodes
    ensures ThreadOk(s.heap, NextBucket(s.heap, s.threads[t].(head := s.buckets[i])), t, s.maxCapacity)
  {
    hide SentinelKey, OrdinaryKey, SentinelKeyForm, NextBucket, PowerOfTwo;
    assert SentinelAt(s.heap, s.buckets[i], SentinelKey(i));
    NextBucketOk(s.heap, s.threads[t].(head := s.buckets[i]), t, s.maxCapacity, i);
  }

  lemma PushedBucket(h: Heap, th: Thread, t: Tid, max: nat, i: nat)
    requires ThreadOk(h, th, t, max) && th.pc == LoadBucket(i) && i > 0
    ensures ThreadOk(h, th.(stack := th.stack + [i], pc := LoadBucket(ParentIndex(i))), t, max)
  {
    hide SentinelKey, OrdinaryKey;
  }

  /** Quiet, when buckets and counters do not change either. */
  lemma QuietLocal(s: State, s': State, t: Tid)
    requires Inv(s) && OnlyThread(s, s', t) && s' == s.(threads := s'.threads)
    requires s'.threads[t].node == s.threads[t].node && s'.threads[t].since == s.threads[t].since
    requires CtlTie(s.threads[t].pc, E.Inside) && CtlTie(s'.threads[t].pc, E.Inside)
    requires ThreadOk(s.heap, s'.threads[t], t, s.maxCapacity)
    ensures Inv(s')
  {
    assert BucketsOk(s') && CapacityOk(s') by { hide SentinelAt, PowerOfTwo; }
    Quiet(s, s', t) by { hide *; hide OnlyThread; }
  }

  lemma StepBucketCas(s: State, t: Tid, n: NodeId)
    requires Inv(s) && t in s.threads && s.threads[t].pc == BucketCas(n)
    ensures n in s.heap.nodes && s.threads[t].stack != [] && Inv(BucketCasStep(s, t, s.threads[t], n))
  {
    hide SentinelKey, OrdinaryKey, Inv, HeapInv, RecTie, DeletedOk, ThreadsOk, SentinelKeyForm, E.OwnInv;
    var th := s.threads[t];
    Unfold(s, t);
    var i := Top(th.stack);
    var th' := th.(head := n, stack := th.stack[..|th.stack| - 1]);
    var s' := BucketCasStep(s, t, th, n);
    assert ThreadOk(s.heap, NextBucket(s.heap, th'), t, s.maxCapacity) by {
      PoppedStack(th, s.maxCapacity);
      NextBucketOk(s.heap, th', t, s.maxCapacity, i);
    }
    BucketIsSet(s, s', i, n);
    NextBucketKeeps(s.heap, th');
    Quiet(s, s', t) by { hide BucketsOk, NextBucket, StackOk, ThreadOk, CapacityOk; }
  }

  lemma BucketIsSet(s: State, s': State, i: nat, n: NodeId)
    requires BucketsOk(s) && s'.heap == s.heap && s'.maxCapacity == s.maxCapacity && i < s.maxCapacity
    requires SentinelAt(s.heap, n, SentinelKey(i))
    requires s'.buckets == if i in s.buckets then s.buckets else s.buckets[i := n]
    ensures BucketsOk(s')
  {
    hide SentinelKey, SentinelKeyForm;
  }

  lemma PoppedStack(th: Thread, max: nat)
    requires StackOk(th, max) && th.stack != []
    ensures var th' := th.(stack := th.stack[..|th.stack| - 1]);
            StackOk(th', max) && Top(th.stack) == if th'.stack == [] then th.bucket else ParentIndex(Top(th'.stack))
  {
  }

  // ----- Contains -----

  lemma BelowTail(h: Heap, n: NodeId, th: Thread)
    requires Kinds(h) && n in h.nodes && h.nodes[n].key <= th.key && TargetOk(th)
    ensures n != TAIL
  {
    assert KeyOk(n, h.nodes[n]);
  }

  lemma StepContainsLoad(s: State, t: Tid)
    requires Inv(s) && t in s.threads && s.threads[t].pc.ContainsLoad?
    ensures s.threads[t].curr in s.heap.nodes && s.heap.nodes[s.threads[t].curr].next in s.heap.nodes
    ensures Inv(ContainsLoadStep(s, t, s.threads[t]))
  {
    hide SentinelKey, OrdinaryKey, Inv, HeapInv, RecTie, DeletedOk, ThreadsOk, StackOk, BucketsOk, CapacityOk, E.OwnInv;
    var th, h := s.threads[t], s.heap;
    Unfold(s, t);
    HeapHas(h);
    BelowTail(h, th.curr, th);
    AheadNext(h, th.curr, th.since, th.elem);
    ContainsAtOk(h, th, t, s.maxCapacity, h.nodes[th.curr].next);
    QuietLocal(s, ContainsLoadStep(s, t, th), t);
  }

  lemma StepContainsMark(s: State, t: Tid)
    requires Inv(s) && t in s.threads && s.threads[t].pc.ContainsMark?
    ensures s.threads[t].curr in s.heap.nodes && Inv(ContainsMarkStep(s, t, s.threads[t]))
  {
    hide SentinelKey, OrdinaryKey, Inv, HeapInv, RecTie, DeletedOk, ThreadsOk, StackOk, BucketsOk, CapacityOk, E.OwnInv;
    var th, h := s.threads[t], s.heap;
    Unfold(s, t);
    HeapHas(h);
    if h.nodes[th.curr].mark {
      AheadMarked(h, th.curr, th.since, th.elem);
    }
    QuietLocal(s, ContainsMarkStep(s, t, th), t);
  }

  // ----- counting and growing -----

  lemma StepCountAdd(s: State, t: Tid)
    requires Inv(s) && t in s.threads && s.threads[t].pc.CountAdd?
    ensures Inv(CountAddStep(s, t, s.threads[t]))
  {
    hide Inv, HeapInv, RecTie, DeletedOk, ThreadsOk, BucketsOk, StackOk, E.OwnInv;
    Unfold(s, t);
    SameBuckets(s, CountAddStep(s, t, s.threads[t]));
    Quiet(s, CountAddStep(s, t, s.threads[t]), t);
  }

  lemma StepCountRemove(s: State, t: Tid)
    requires Inv(s) && t in s.threads && s.threads[t].pc.CountRemove?
    ensures Inv(CountRemoveStep(s, t, s.threads[t]))
  {
    hide Inv, HeapInv, RecTie, DeletedOk, ThreadsOk, BucketsOk, StackOk, E.OwnInv;
    Unfold(s, t);
    SameBuckets(s, CountRemoveStep(s, t, s.threads[t]));
    Quiet(s, CountRemoveStep(s, t, s.threads[t]), t);
  }

  lemma StepGrowLoad(s: State, t: Tid)
    requires Inv(s) && t in s.threads && s.threads[t].pc.GrowLoad?
    ensures Inv(GrowLoadStep(s, t, s.threads[t]))
  {
    hide Inv, HeapInv, RecTie, DeletedOk, ThreadsOk, SentinelAt, StackOk, BucketsOk, CapacityOk, E.OwnInv;
    Unfold(s, t);
    QuietLocal(s, GrowLoadStep(s, t, s.threads[t]), t);
  }

  lemma StepGrowSize(s: State, t: Tid, cap: nat)
    requires Inv(s) && t in s.threads && s.threads[t].pc == GrowSize(cap)
    ensures Inv(GrowSizeStep(s, t, s.threads[t], cap))
  {
    hide Inv, HeapInv, RecTie, DeletedOk, ThreadsOk, SentinelAt, StackOk, BucketsOk, CapacityOk, E.OwnInv;
    Unfold(s, t);
    QuietLocal(s, GrowSizeStep(s, t, s.threads[t], cap), t);
  }

  /** Doubling a power of two below another one does not exceed it. */
  lemma DoubleBelow(a: nat, b: nat)
    requires PowerOfTwo(a) && PowerOfTwo(b) && a < b
    ensures PowerOfTwo(2 * a) && 2 * a <= b
  {
    var i: nat :| a == Pow2(i);
    var j: nat :| b == Pow2(j);
    assert 2 * a == Pow2(i + 1);
    if j <= i {
      Pow2Monotone(j, i);
    } else {
      Pow2Monotone(i + 1, j);
    }
  }

  lemma StepGrowCas(s: State, t: Tid, cap: nat)
    requires Inv(s) && t in s.threads && s.threads[t].pc == GrowCas(cap)
    ensures Inv(GrowCasStep(s, t, s.threads[t], cap))
  {
    hide Inv, HeapInv, RecTie, DeletedOk, ThreadsOk, BucketsOk, StackOk, PowerOfTwo, E.OwnInv;
    Unfold(s, t);
    var s' := GrowCasStep(s, t, s.threads[t], cap);
    if s.capacity == cap {
      DoubleBelow(cap, s.maxCapacity);
    }
    SameBuckets(s, s');
    Quiet(s, s', t);
  }

  lemma SameBuckets(s: State, s': State)
    requires BucketsOk(s) && s'.heap == s.heap && s'.buckets == s.buckets && s'.maxCapacity == s.maxCapacity
    ensures BucketsOk(s')
  {
    hide SentinelAt;
  }
}
