/**
  Where an operation of the lock-free set enters the list (src/HashSetLockFree.h:57-89, 124-142): at the sentinel
  of its element's bucket, which is set by then, and so are all buckets above it.
*/
module LockFreeBuckets {
  import opened Common
  import opened Bits
  import opened SplitOrder
  import opened ListHeap
  import opened Traversal
  import opened LockFreeSet
  import opened LockFreeInv
  import opened LockFreeSteps
  import opened LockFreeTheorems
  import opened LockFreeSafety
  import opened LockFreeLinear
  import opened Linearizability
  import LockFreeShape
  import E = Epochs

  // ----- the bucket that the list is entered at -----

  predicate Bucketed(pc: PC) { pc.LoadBucket? || pc.BucketCas? }

  /** The bucket whose list the thread is in: that of its element, or the parent of the next to be made. */
  function EntryOf(th: Thread): nat {
    if th.stack == [] then th.bucket else if Top(th.stack) > 0 then ParentIndex(Top(th.stack)) else 0
  }

  ghost predicate IsSetTo(buckets: map<nat, NodeId>, b: nat, n: NodeId) { b in buckets && buckets[b] == n }

  /** In the list, and when about to set a bucket, the thread's head is what the bucket it came through is set to. */
  ghost predicate Entered(s: State, th: Thread) {
    InList(th.pc) || th.pc.BucketCas? ==> IsSetTo(s.buckets, EntryOf(th), th.head)
  }

  lemma FoundStaysIn(s: State, t: Tid, th: Thread)
    requires t in s.threads && s.threads[t].pc.FindLoad? && th.curr in s.heap.nodes
    requires th.bucket == s.threads[t].bucket && th.head == s.threads[t].head
    requires th.stack == s.threads[t].stack && th.elem == s.threads[t].elem
    ensures t in Found(s, t, th).threads
    ensures var th, th' := s.threads[t], Found(s, t, th).threads[t];
            && th'.bucket == th.bucket && th'.head == th.head && th'.stack == th.stack && th'.elem == th.elem
  {
    hide Matches, Alloc, StoreNext, DeleteNode, Payload;
  }

  lemma ContainsStaysIn(h: Heap, th: Thread, c: NodeId)
    requires c in h.nodes
    ensures var th' := ContainsAt(h, th, c);
            th'.bucket == th.bucket && th'.head == th.head && th'.stack == th.stack && th'.elem == th.elem
  {
  }

  lemma ListStaysIn(s: State, t: Tid, op: Op, e: Elem)
    requires t in s.threads && Ready(s, t) && InList(s.threads[t].pc)
    ensures t in Next(s, t, op, e).threads
    ensures var th, th' := s.threads[t], Next(s, t, op, e).threads[t];
            && th'.bucket == th.bucket && th'.head == th.head && th'.stack == th.stack && th'.elem == th.elem
  {
    hide Found, ContainsAt, CanSwing, AtOrPast, Matches, E.InternalStep, E.Enabled, E.UnlinkStep, Publish, Unlink,
      MarkNode;
    var th := s.threads[t];
    if th.pc.FindLoad? {
      FoundStaysIn(s, t, th.(currAt := s.heap.clock));
    } else if th.pc.ContainsLoad? {
      ContainsStaysIn(s.heap, th, s.heap.nodes[th.curr].next);
    }
  }

  lemma NextBucketStays(h: Heap, th: Thread)
    requires th.head in h.nodes
    ensures var th' := NextBucket(h, th);
            && th'.bucket == th.bucket && th'.head == th.head && th'.stack == th.stack && th'.elem == th.elem
            && (InList(th'.pc) || th'.pc.BucketCas? || th'.pc.Leaving?)
  {
    hide SentinelKey, OrdinaryKey, Matches, AtOrPast;
  }

  lemma LoadEnters(s: State, t: Tid, i: nat)
    requires Inv(s) && t in s.threads && s.threads[t].pc == LoadBucket(i)
    requires if i in s.buckets then s.buckets[i] in s.heap.nodes else i > 0
    ensures var s' := LoadBucketStep(s, t, s.threads[t], i); Entered(s', s'.threads[t])
  {
    hide Inv, HeapInv, RecTie, DeletedOk, ThreadsOk, CapacityOk, BucketsOk, E.OwnInv, NextBucket, SentinelKey,
      OrdinaryKey, ParentIndex;
    var th := s.threads[t];
    Unfold(s, t);
    if i in s.buckets {
      NextBucketStays(s.heap, th.(head := s.buckets[i]));
    }
  }

  /** The node in the list for a bucket's sentinel is what the bucket is set to. */
  lemma TheSentinel(s: State, i: nat, n: NodeId)
    requires Inv(s) && i in s.buckets && SentinelAt(s.heap, n, SentinelKey(i))
    ensures s.buckets[i] == n
  {
    hide Inv, HeapInv, SentinelKey, OrdinaryKey;
    LockFreeShape.BucketOfInv(s, i);
    LockFreeShape.HeapOfInv(s);
    HeapHas(s.heap);
    assert KeyOk(n, s.heap.nodes[n]) && KeyOk(s.buckets[i], s.heap.nodes[s.buckets[i]]);
    assert Same(s.heap, n, s.buckets[i]);
  }

  lemma CasEnters(s: State, t: Tid, n: NodeId)
    requires Inv(s) && t in s.threads && s.threads[t].pc == BucketCas(n) && n in s.heap.nodes
    requires s.threads[t].stack != []
    ensures var s' := BucketCasStep(s, t, s.threads[t], n);
            Entered(s', s'.threads[t]) && IsSetTo(s'.buckets, Top(s.threads[t].stack), n)
  {
    hide Inv, HeapInv, RecTie, DeletedOk, ThreadsOk, BucketsOk, CapacityOk, E.OwnInv, NextBucket, SentinelKey,
      OrdinaryKey, ParentIndex, SentinelAt;
    var th := s.threads[t];
    Unfold(s, t);
    PoppedStack(th, s.maxCapacity);
    if Top(th.stack) in s.buckets {
      TheSentinel(s, Top(th.stack), n);
    }
    NextBucketStays(s.heap, th.(head := n, stack := th.stack[..|th.stack| - 1]));
  }

  lemma OtherEnters(s: State, t: Tid, op: Op, e: Elem)
    requires t in s.threads && Ready(s, t) && !InList(s.threads[t].pc)
    requires !Bucketed(s.threads[t].pc)
    ensures t in Next(s, t, op, e).threads
    ensures var pc := Next(s, t, op, e).threads[t].pc;
            !InList(pc) && !pc.BucketCas? && (pc.LoadBucket? ==> s.threads[t].pc.LoadCapacity?)
  {
    hide E.InternalStep, E.Enabled, E.BeginStep, E.LeaveStep;
  }

  lemma EnteredOn(s: State, s': State, th: Thread, th': Thread)
    requires Entered(s, th) && InList(th.pc) && IsSetTo(s'.buckets, EntryOf(th), th.head)
    requires th'.bucket == th.bucket && th'.head == th.head && th'.stack == th.stack
    ensures Entered(s', th')
  {
  }

  lemma BucketEnters(s: State, t: Tid, op: Op, e: Elem)
    requires Inv(s) && t in s.threads && Ready(s, t) && Bucketed(s.threads[t].pc)
    ensures var s' := Next(s, t, op, e); t in s'.threads && Entered(s', s'.threads[t])
  {
    hide Inv, Entered, NextBucket;
    var pc := s.threads[t].pc;
    if pc.LoadBucket? {
      LoadEnters(s, t, pc.i);
    } else {
      CasEnters(s, t, pc.sentinel);
    }
  }

  lemma ListEnters(s: State, t: Tid, op: Op, e: Elem)
    requires t in s.threads && Ready(s, t) && InList(s.threads[t].pc) && Entered(s, s.threads[t])
    ensures var s' := Next(s, t, op, e); t in s'.threads && Entered(s', s'.threads[t])
  {
    hide Next, Ready, EntryOf, InList;
    ListStaysIn(s, t, op, e);
    LockFreeShape.StepBuckets(s, t, op, e, EntryOf(s.threads[t]));
    EnteredOn(s, Next(s, t, op, e), s.threads[t], Next(s, t, op, e).threads[t]);
  }

  lemma StepEnters(s: State, t: Tid, op: Op, e: Elem)
    requires Inv(s) && t in s.threads && Ready(s, t) && Entered(s, s.threads[t])
    ensures var s' := Next(s, t, op, e); t in s'.threads && Entered(s', s'.threads[t])
  {
    hide Inv, Next, Ready, InList, EntryOf;
    if Bucketed(s.threads[t].pc) {
      BucketEnters(s, t, op, e);
    } else if InList(s.threads[t].pc) {
      ListEnters(s, t, op, e);
    } else {
      OtherEnters(s, t, op, e);
    }
  }

  lemma EnteredStays(s: State, s': State, th: Thread)
    requires Entered(s, th) && forall b :: b in s.buckets ==> b in s'.buckets && s'.buckets[b] == s.buckets[b]
    ensures Entered(s', th)
  {
    hide EntryOf;
  }

  lemma {:induction false} AlwaysEntered(r: Run, t: Tid, j: nat)
    requires IsRun(r) && j < |r.states| && t in r.states[j].threads
    ensures Entered(r.states[j], At(r, j, t))
  {
    hide Inv, Next, Ready, Entered;
    if j == 0 {
      EnteredAtFirst(r.states[0], t);
    } else {
      var s, e := r.states[j - 1], r.events[j - 1];
      assert IsStep(s, e, r.states[j]);
      Always(r, j - 1);
      if e.t == t {
        AlwaysEntered(r, t, j - 1);
        StepEnters(s, t, e.op, e.elem);
      } else {
        OthersKeepThread(s, e, r.states[j], t);
        AlwaysEntered(r, t, j - 1);
        forall b | b in s.buckets
          ensures b in r.states[j].buckets && r.states[j].buckets[b] == s.buckets[b]
        {
          LockFreeShape.StepBuckets(s, e.t, e.op, e.elem, b);
        }
        EnteredStays(s, r.states[j], s.threads[t]);
      }
    }
  }

  lemma EnteredAtFirst(s: State, t: Tid)
    requires Init(s) && t in s.threads
    ensures Entered(s, s.threads[t])
  {
  }

  /**
    Whoever is in the list came through a bucket that is set, and entered at its sentinel: the bucket of its
    element, or, to make the sentinel of another, the parent of that one.
  */
  lemma EntersThroughBucket(r: Run, t: Tid, j: nat)
    requires IsRun(r) && j < |r.states| && t in r.states[j].threads
    requires InList(At(r, j, t).pc) || At(r, j, t).pc.BucketCas?
    ensures var th := At(r, j, t);
            && (th.stack != [] ==> Top(th.stack) > 0)
            && var b := if th.stack == [] then th.bucket else ParentIndex(Top(th.stack));
               b in r.states[j].buckets && r.states[j].buckets[b] == th.head
  {
    hide IsRun, Inv, HeapInv, RecTie, DeletedOk, ThreadsOk, BucketsOk, CapacityOk, E.OwnInv, SentinelKey, OrdinaryKey,
      ParentIndex;
    AlwaysEntered(r, t, j);
    Always(r, j);
    Unfold(r.states[j], t);
  }

  // ----- the buckets above -----

  ghost predicate ParentsSet(s: State) {
    forall b {:trigger b in s.buckets} :: b in s.buckets && b > 0 ==> ParentIndex(b) in s.buckets
  }

  /** Only the CAS of a bucket sets one, the one on top of the thread's stack. */
  lemma OnlyTopSet(s: State, t: Tid, op: Op, e: Elem)
    requires t in s.threads && Ready(s, t)
    ensures var s', th := Next(s, t, op, e), s.threads[t];
            if th.pc.BucketCas? then s'.buckets.Keys == s.buckets.Keys + {Top(th.stack)} else s'.buckets == s.buckets
  {
    hide NextBucket, ContainsAt, AtOrPast, Matches, Publish, Unlink, MarkNode, Alloc, StoreNext, E.InternalStep,
      E.UnlinkStep, E.BeginStep, E.LeaveStep, E.Enabled;
  }

  lemma StepParents(s: State, t: Tid, op: Op, e: Elem)
    requires ParentsSet(s) && t in s.threads && Ready(s, t) && Entered(s, s.threads[t])
    ensures ParentsSet(Next(s, t, op, e))
  {
    hide Next, ParentIndex;
    OnlyTopSet(s, t, op, e);
    var s' := Next(s, t, op, e);
    forall b | b in s'.buckets && b > 0
      ensures ParentIndex(b) in s'.buckets
    {
      assert ParentIndex(b) in s.buckets;
      assert ParentIndex(b) in s.buckets.Keys;
    }
  }

  /** In every state the parent of every bucket that is set is set. */
  lemma {:induction false} BucketsHaveParents(r: Run, j: nat)
    requires IsRun(r) && j < |r.states|
    ensures forall b {:trigger b in r.states[j].buckets} ::
              b in r.states[j].buckets && b > 0 ==> ParentIndex(b) in r.states[j].buckets
  {
    hide Next, Ready, Inv, Entered, ParentIndex;
    if j > 0 {
      BucketsHaveParents(r, j - 1);
      var s, e := r.states[j - 1], r.events[j - 1];
      assert IsStep(s, e, r.states[j]);
      AlwaysEntered(r, e.t, j - 1);
      StepParents(s, e.t, e.op, e.elem);
    }
  }

  lemma StepPushes(s: State, t: Tid, op: Op, e: Elem)
    requires t in s.threads && Ready(s, t) && ThreadOk(s.heap, s.threads[t], t, s.maxCapacity)
    requires t in Next(s, t, op, e).threads && |Next(s, t, op, e).threads[t].stack| > |s.threads[t].stack|
    ensures var th, th' := s.threads[t], Next(s, t, op, e).threads[t];
            && th'.stack == th.stack + [EntryOf(th)] && EntryOf(th) !in s.buckets
  {
    hide E.InternalStep, E.Enabled, E.BeginStep, E.LeaveStep, NextBucket, ParentIndex, SentinelKey, OrdinaryKey;
    var th := s.threads[t];
    if InList(th.pc) {
      ListStaysIn(s, t, op, e);
    } else if th.pc.LoadBucket? {
      if th.pc.i in s.buckets {
        NextBucketStays(s.heap, th.(head := s.buckets[th.pc.i]));
      }
    } else if th.pc.BucketCas? {
      NextBucketStays(s.heap, th.(head := th.pc.sentinel, stack := th.stack[..|th.stack| - 1]));
    }
  }

  /** A bucket is initialized by a thread only if that thread has found it not set. */
  lemma InitializesOnlyUnset(r: Run, t: Tid, j: nat)
    requires IsRun(r) && j < |r.events| && r.events[j].t == t && t in r.states[j + 1].threads
    requires |At(r, j + 1, t).stack| > |r.states[j].threads[t].stack|
    ensures At(r, j + 1, t).stack == At(r, j, t).stack + [EntryOf(At(r, j, t))]
    ensures EntryOf(At(r, j, t)) !in r.states[j].buckets
  {
    hide Next, Ready, Inv, HeapInv, RecTie, DeletedOk, ThreadsOk, BucketsOk, CapacityOk, E.OwnInv, EntryOf, ThreadOk;
    var s, e := r.states[j], r.events[j];
    assert IsStep(s, e, r.states[j + 1]);
    Always(r, j);
    Unfold(s, t);
    StepPushes(s, t, e.op, e.elem);
  }

  // ----- whose bucket it is -----

  ghost predicate InBucketCode(pc: PC) { Bucketed(pc) || InList(pc) }

  /** A thread is in the code for a bucket only once it has computed the bucket from a capacity. */
  ghost predicate Computes(s: State, th: Thread, th': Thread) {
    InBucketCode(th'.pc) ==>
      || (th.pc.LoadCapacity? && s.capacity > 0 && th'.bucket == th.elem.code % s.capacity)
      || (InBucketCode(th.pc) && th'.bucket == th.bucket)
  }

  lemma StepComputes(s: State, t: Tid, op: Op, e: Elem)
    requires t in s.threads && Ready(s, t)
    ensures var s' := Next(s, t, op, e); t in s'.threads && Computes(s, s.threads[t], s'.threads[t])
  {
    hide E.InternalStep, E.Enabled, E.BeginStep, E.LeaveStep, NextBucket, ParentIndex, SentinelKey, OrdinaryKey;
    var th := s.threads[t];
    if InList(th.pc) {
      hide Next, Ready;
      ListStaysIn(s, t, op, e);
    } else if th.pc.LoadBucket? {
      if th.pc.i in s.buckets {
        NextBucketStays(s.heap, th.(head := s.buckets[th.pc.i]));
      }
    } else if th.pc.BucketCas? {
      NextBucketStays(s.heap, th.(head := th.pc.sentinel, stack := th.stack[..|th.stack| - 1]));
    } else if !th.pc.LoadCapacity? {
      hide Next, Ready;
      OtherEnters(s, t, op, e);
    }
  }

  lemma {:induction false} BucketOfCall(r: Run, t: Tid, i: nat, j: nat) returns (w: nat)
    requires IsRun(r) && InCall(r, t, i, j) && InBucketCode(At(r, j, t).pc)
    ensures i < w < j && r.states[w].capacity > 0
    ensures At(r, j, t).bucket == r.events[i].elem.code % r.states[w].capacity
  {
    hide Next, Ready, InBucketCode;
    var s, e := r.states[j - 1], r.events[j - 1];
    assert IsStep(s, e, r.states[j]);
    if j - 1 == i {
      CallStepShape(s, t, e.op, e.elem);
      EnteringIsNot();
    } else {
      assert InCall(r, t, i, j - 1);
      InCallStep(s, e, r.states[j], t);
      if e.t == t {
        StepComputes(s, t, e.op, e.elem);
      }
      if e.t == t && s.threads[t].pc.LoadCapacity? {
        EnteringIsNot();
        w := j - 1;
        CallArguments(r, t, i, j - 1);
      } else {
        w := BucketOfCall(r, t, i, j - 1);
      }
    }
  }

  lemma EnteringIsNot()
    ensures !InBucketCode(InReclaimer(KEnter)) && !InBucketCode(LoadCapacity)
  {
  }

  lemma CapacityPower(r: Run, w: nat) returns (k: nat)
    requires IsRun(r) && w < |r.states|
    ensures k <= CODE_BITS && r.states[w].capacity == Pow2(k)
  {
    hide IsRun, HeapInv, RecTie, DeletedOk, ThreadsOk, BucketsOk, E.OwnInv;
    Always(r, w);
    var c := r.states[w].capacity;
    k :| c == Pow2(k);
    if k > CODE_BITS {
      Pow2Monotone(CODE_BITS + 1, k);
    }
  }

  lemma AllInBucket(code: nat, k: nat)
    requires k <= CODE_BITS
    ensures forall x :: SentinelKey(code % Pow2(k)) <= x <= OrdinaryKey(code) ==> InBucket(x, code % Pow2(k), k)
  {
    hide SentinelKey, OrdinaryKey, InBucket;
    BucketIsRemainder(code, k);
    forall x | SentinelKey(code % Pow2(k)) <= x <= OrdinaryKey(code)
      ensures InBucket(x, code % Pow2(k), k)
    {
      OnlyBucketBetween(code, k, x);
    }
  }

  /**
    Every operation goes through the list of the bucket of its element: for the number of buckets at a moment
    inside the call it enters at that bucket's sentinel, and all keys from there to its own belong to that bucket.
  */
  lemma OnlyItsBucket(r: Run, t: Tid, i: nat, j: nat) returns (w: nat, k: nat)
    requires IsRun(r) && InCall(r, t, i, j) && InList(At(r, j, t).pc) && At(r, j, t).stack == []
    ensures i < w < j && k <= CODE_BITS && r.states[w].capacity == Pow2(k)
    ensures var s, code := r.states[j], r.events[i].elem.code;
            var b := code % r.states[w].capacity;
            && b in s.buckets && s.buckets[b] == At(r, j, t).head
            && At(r, j, t).head in s.heap.nodes && s.heap.nodes[At(r, j, t).head].key == SentinelKey(b)
            && forall x :: SentinelKey(b) <= x <= OrdinaryKey(code) ==> InBucket(x, b, k)
  {
    hide Init, Next, Ready, SentinelKey, OrdinaryKey, InBucket, InList;
    assert InBucketCode(At(r, j, t).pc);
    w := BucketOfCall(r, t, i, j);
    k := CapacityPower(r, w);
    EntersThroughBucket(r, t, j);
    LockFreeShape.BucketsAreSentinels(r, j, At(r, j, t).bucket, At(r, j, t).head);
    AllInBucket(r.events[i].elem.code, k);
  }

  // ----- the nodes on the way -----

  ghost predicate Visiting(pc: PC) { InList(pc) && !pc.FindStart? }

  predicate Walks(pc: PC) { pc.ContainsLoad? || pc.ContainsMark? }

  ghost predicate KeyLe(h: Heap, a: NodeId, b: NodeId) {
    a in h.nodes && b in h.nodes && h.nodes[a].key <= h.nodes[b].key
  }

  /** The thread has not gone back behind the node at which it entered. */
  ghost predicate Onward(h: Heap, th: Thread) {
    Visiting(th.pc) ==> KeyLe(h, th.head, th.curr) && (!Walks(th.pc) ==> KeyLe(h, th.head, th.pred))
  }

  /** The step takes the thread over `curr`. */
  ghost predicate GoesOver(h: Heap, th: Thread) {
    th.curr in h.nodes &&
    (|| (th.pc.FindLoad? && !h.nodes[th.curr].mark && !AtOrPast(h.nodes[th.curr], th.key, th.want))
     || th.pc.FindUnlink? || th.pc.ContainsLoad?)
  }

  /** Where a step within the list leads: on from `curr`, or it stays. */
  ghost predicate Visits(h: Heap, th: Thread, th': Thread) {
    Visiting(th'.pc) ==>
      && th'.head == th.head && (!Walks(th'.pc) ==> !Walks(th.pc))
      && if th.pc.FindStart? then th'.pred == th.head && th'.curr == Nx(h, th.head)
         else
           && (th'.pred == th.pred || th'.pred == th.curr)
           && (th'.curr == th.curr ||
               (GoesOver(h, th) && th'.curr == if th.pc.FindUnlink? then th.succ else Nx(h, th.curr)))
  }

  lemma FoundVisits(s: State, t: Tid, th: Thread)
    requires t in s.threads && s.threads[t].pc.FindLoad? && th.curr in s.heap.nodes
    requires th.head == s.threads[t].head && th.pred == s.threads[t].pred && th.curr == s.threads[t].curr
    ensures t in Found(s, t, th).threads && Visits(s.heap, s.threads[t], Found(s, t, th).threads[t])
  {
    hide Matches, AtOrPast, Alloc, StoreNext, DeleteNode, Payload;
  }

  lemma ContainsVisits(h: Heap, th: Thread)
    requires th.pc.ContainsLoad? && th.curr in h.nodes && h.nodes[th.curr].next in h.nodes
    ensures Visits(h, th, ContainsAt(h, th, h.nodes[th.curr].next))
  {
    hide Matches, AtOrPast;
  }

  predicate Swinging(pc: PC) { pc.LinkCas? || pc.RemoveLoad? || pc.RemoveMark? || pc.RemoveUnlink? }

  lemma SwingVisits(s: State, t: Tid, op: Op, e: Elem)
    requires t in s.threads && Ready(s, t) && Swinging(s.threads[t].pc)
    ensures t in Next(s, t, op, e).threads && Visits(s.heap, s.threads[t], Next(s, t, op, e).threads[t])
  {
    hide CanSwing, AtOrPast, E.UnlinkStep, Publish, Unlink, MarkNode;
  }

  lemma ListVisits(s: State, t: Tid, op: Op, e: Elem)
    requires t in s.threads && Ready(s, t) && InList(s.threads[t].pc) && !Swinging(s.threads[t].pc)
    ensures t in Next(s, t, op, e).threads && Visits(s.heap, s.threads[t], Next(s, t, op, e).threads[t])
  {
    hide Found, ContainsAt, CanSwing, AtOrPast, Matches, E.InternalStep, E.Enabled, E.UnlinkStep, Unlink;
    var th := s.threads[t];
    if th.pc.FindLoad? {
      FoundVisits(s, t, th.(currAt := s.heap.clock));
    } else if th.pc.ContainsLoad? {
      ContainsVisits(s.heap, th);
    }
  }

  /** A hop leads to a greater key, or to the same. */
  lemma HopsUp(h: Heap, th: Thread, t: Tid, max: nat)
    requires HeapInv(h) && ThreadOk(h, th, t, max) && GoesOver(h, th)
    ensures KeyLe(h, th.curr, if th.pc.FindUnlink? then th.succ else Nx(h, th.curr))
  {
    hide HeapInv, OrdinaryKey, SentinelKey, StackOk, HeadOk, Passed, Clear, Gap, PredFresh, Ahead;
    HeapHas(h);
    if !th.pc.FindUnlink? {
      BelowTail(h, th.curr, th);
    }
    HeldNext(h, th.curr, th.since);
  }

  lemma StartsUp(h: Heap, th: Thread, t: Tid, max: nat)
    requires HeapInv(h) && ThreadOk(h, th, t, max) && th.pc.FindStart?
    ensures KeyLe(h, th.head, Nx(h, th.head))
  {
    hide HeapInv, OrdinaryKey, SentinelKey, StackOk;
    HeapHas(h);
    BelowTail(h, th.head, th);
  }

  lemma KeyLeStays(h: Heap, k: Heap, u: Tid, a: NodeId, b: NodeId)
    requires Evolves(h, k, u) && KeyLe(h, a, b)
    ensures KeyLe(k, a, b)
  {
    assert NodeEvolves(h.nodes[a], k.nodes[a], h.clock, u) && NodeEvolves(h.nodes[b], k.nodes[b], h.clock, u);
  }

  lemma OnwardStays(h: Heap, k: Heap, u: Tid, th: Thread)
    requires Evolves(h, k, u) && Onward(h, th)
    ensures Onward(k, th)
  {
    hide Evolves, KeyLe, InList;
    if Visiting(th.pc) {
      KeyLeStays(h, k, u, th.head, th.curr);
      if !Walks(th.pc) {
        KeyLeStays(h, k, u, th.head, th.pred);
      }
    }
  }

  lemma ListOnward(s: State, t: Tid, op: Op, e: Elem)
    requires Inv(s) && t in s.threads && Ready(s, t) && InList(s.threads[t].pc) && Onward(s.heap, s.threads[t])
    ensures t in Next(s, t, op, e).threads && Onward(s.heap, Next(s, t, op, e).threads[t])
  {
    hide Inv, Next, Ready, HeapInv, RecTie, DeletedOk, ThreadsOk, BucketsOk, CapacityOk, E.OwnInv, ThreadOk, InList,
      GoesOver;
    var th := s.threads[t];
    Unfold(s, t);
    if Swinging(th.pc) {
      SwingVisits(s, t, op, e);
    } else {
      ListVisits(s, t, op, e);
    }
    if th.pc.FindStart? {
      StartsUp(s.heap, th, t, s.maxCapacity);
    } else if GoesOver(s.heap, th) {
      HopsUp(s.heap, th, t, s.maxCapacity);
    }
  }

  lemma NextBucketOnward(h: Heap, th: Thread)
    requires th.head in h.nodes
    ensures Onward(h, NextBucket(h, th))
  {
    hide SentinelKey, OrdinaryKey, Matches, AtOrPast;
  }

  lemma ElsewhereOnward(s: State, t: Tid, op: Op, e: Elem)
    requires t in s.threads && Ready(s, t) && !InList(s.threads[t].pc)
    ensures t in Next(s, t, op, e).threads && Onward(s.heap, Next(s, t, op, e).threads[t])
  {
    hide E.InternalStep, E.Enabled, E.BeginStep, E.LeaveStep, NextBucket, ParentIndex, SentinelKey, OrdinaryKey, KeyLe;
    var th := s.threads[t];
    if th.pc.LoadBucket? {
      if th.pc.i in s.buckets {
        NextBucketOnward(s.heap, th.(head := s.buckets[th.pc.i]));
      }
    } else if th.pc.BucketCas? {
      NextBucketOnward(s.heap, th.(head := th.pc.sentinel, stack := th.stack[..|th.stack| - 1]));
    } else {
      hide Next, Ready;
      OtherEnters(s, t, op, e);
    }
  }

  lemma StepOnward(s: State, t: Tid, op: Op, e: Elem)
    requires Inv(s) && t in s.threads && Ready(s, t) && Onward(s.heap, s.threads[t])
    ensures t in Next(s, t, op, e).threads && Onward(Next(s, t, op, e).heap, Next(s, t, op, e).threads[t])
  {
    hide Inv, Next, Ready, Onward, Evolves;
    if InList(s.threads[t].pc) {
      ListOnward(s, t, op, e);
    } else {
      ElsewhereOnward(s, t, op, e);
    }
    StepEvolves(s, t, op, e);
    OnwardStays(s.heap, Next(s, t, op, e).heap, t, Next(s, t, op, e).threads[t]);
  }

  lemma {:induction false} AlwaysOnward(r: Run, t: Tid, j: nat)
    requires IsRun(r) && j < |r.states| && t in r.states[j].threads
    ensures Onward(r.states[j].heap, At(r, j, t))
  {
    hide Inv, Next, Ready, Onward, Evolves;
    if j == 0 {
      OnwardAtFirst(r.states[0], t);
    } else {
      var s, e := r.states[j - 1], r.events[j - 1];
      assert IsStep(s, e, r.states[j]);
      Always(r, j - 1);
      if e.t == t {
        AlwaysOnward(r, t, j - 1);
        StepOnward(s, t, e.op, e.elem);
      } else {
        OthersKeepThread(s, e, r.states[j], t);
        AlwaysOnward(r, t, j - 1);
        StepEvolves(s, e.t, e.op, e.elem);
        OnwardStays(s.heap, r.states[j].heap, e.t, s.threads[t]);
      }
    }
  }

  lemma OnwardAtFirst(s: State, t: Tid)
    requires Init(s) && t in s.threads
    ensures Onward(s.heap, s.threads[t])
  {
  }

  /** The node that the thread has come to: `pred` of a Find and of what follows it, `curr` of a Contains. */
  function Stand(th: Thread): NodeId { if Walks(th.pc) then th.curr else th.pred }

  lemma StandsBelow(h: Heap, th: Thread, t: Tid, max: nat)
    requires ThreadOk(h, th, t, max) && Visiting(th.pc) && th.stack == []
    ensures Stand(th) in h.nodes && h.nodes[Stand(th)].key <= th.key == OrdinaryKey(th.elem.code)
  {
    hide OrdinaryKey, SentinelKey, StackOk, HeadOk, Clear, Gap, PredFresh, Ahead;
  }

  /**
    Every node that an operation comes to, from its bucket's sentinel up to its element's place, has a key of that
    bucket, for the number of buckets at a moment inside the call.
  */
  lemma StaysInItsBucket(r: Run, t: Tid, i: nat, j: nat) returns (w: nat, k: nat)
    requires IsRun(r) && InCall(r, t, i, j) && Visiting(At(r, j, t).pc) && At(r, j, t).stack == []
    ensures i < w < j && k <= CODE_BITS && r.states[w].capacity == Pow2(k)
    ensures var n, b, code := Stand(At(r, j, t)), r.events[i].elem.code % Pow2(k), r.events[i].elem.code;
            && n in r.states[j].heap.nodes && InBucket(r.states[j].heap.nodes[n].key, b, k)
            && SentinelKey(b) <= r.states[j].heap.nodes[n].key <= OrdinaryKey(code)
  {
    hide Init, Next, Ready, Inv, HeapInv, RecTie, DeletedOk, ThreadsOk, BucketsOk, CapacityOk, E.OwnInv, ThreadOk,
      SentinelKey, OrdinaryKey, InBucket, Pow2, InList;
    w, k := OnlyItsBucket(r, t, i, j);
    AlwaysOnward(r, t, j);
    CallArguments(r, t, i, j);
    Always(r, j);
    var s := r.states[j];
    Unfold(s, t);
    StandsBelow(s.heap, At(r, j, t), t, s.maxCapacity);
    var n := Stand(At(r, j, t));
    assert KeyLe(s.heap, At(r, j, t).head, n);
  }
}
