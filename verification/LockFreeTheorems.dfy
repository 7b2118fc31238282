/** Every step of every thread of the lock-free set keeps the invariant, and does to memory what `Evolves` allows. */
module LockFreeTheorems {
  import opened Common
  import opened Bits
  import opened SplitOrder
  import opened ListHeap
  import opened Traversal
  import opened LockFreeSet
  import opened LockFreeInv
  import opened LockFreeSteps
  import opened LockFreeFind
  import opened LockFreeRuns
  import E = Epochs

  // ----- every step keeps the invariant -----

  lemma InitTies(s: State)
    requires Init(s)
    ensures RecTie(s)
  {
    hide PowerOfTwo;
    forall t | t in s.threads
      ensures CtlTie(s.threads[t].pc, s.rec.ctl[t]) && HolderTie(s, t)
    {
    }
  }

  lemma InitBuckets(s: State)
    requires Init(s)
    ensures BucketsOk(s)
  {
    hide PowerOfTwo, OrdinaryKey;
    LowBelow(0, CODE_BITS);
    RevZero(WORD_BITS);
  }

  lemma InitHeap(h: Heap)
    requires h == Heap(map[ROOT := ROOT_NODE, TAIL := TAIL_NODE], 2, 3)
    ensures HeapInv(h)
  {
    hide OrdinaryKey;
    assert forall n :: !Un(h, n) && (Lk(h, n) <==> n == ROOT || n == TAIL);
    assert Lt(h, ROOT, TAIL) && !Lt(h, TAIL, ROOT) && Nx(h, ROOT) == TAIL;
    assert Ends(h) && Births(h) && Marks(h) && Links(h) && Unique(h);
    assert FrozenLinks(h) && FrozenSorted(h) && FrozenUnique(h);
    assert Kinds(h);
    assert Sorted(h) by {
      assert forall x :: Lk(h, x) && x != TAIL ==> x == ROOT;
      assert !Lt(h, ROOT, ROOT);
    }
  }

  lemma InitThreads(s: State)
    requires Init(s)
    ensures ThreadsOk(s) && DeletedOk(s) && CapacityOk(s)
  {
    hide PowerOfTwo, OrdinaryKey;
    forall t | t in s.threads
      ensures ThreadOk(s.heap, s.threads[t], t, s.maxCapacity)
    {
      IdleOk(s.heap, s.threads[t], t, s.maxCapacity);
    }
  }

  lemma IdleOk(h: Heap, th: Thread, t: Tid, max: nat)
    requires th.pc == Idle && th.node == NULL
    ensures ThreadOk(h, th, t, max)
  {
  }

  lemma InitParts(s: State)
    requires Init(s)
    ensures HeapInv(s.heap) && E.OwnInv(s.rec)
  {
    hide HeapInv, E.OwnInv;
    InitHeap(s.heap);
    E.InitOwns(s.rec);
  }

  lemma InitInv(s: State)
    requires Init(s)
    ensures Inv(s)
  {
    hide Init, HeapInv, RecTie, BucketsOk, ThreadsOk, DeletedOk, CapacityOk, E.OwnInv;
    InitParts(s);
    InitTies(s);
    InitBuckets(s);
    InitThreads(s);
  }

  lemma StepFindLoad(s: State, t: Tid)
    requires Inv(s) && t in s.threads && s.threads[t].pc.FindLoad?
    ensures s.threads[t].curr in s.heap.nodes && Inv(FindLoadStep(s, t, s.threads[t]))
  {
    hide Inv, HeapInv, RecTie, DeletedOk, ThreadsOk, BucketsOk, CapacityOk, FindLoadStep, StackOk, TargetOk, E.OwnInv;
    var th := s.threads[t];
    Unfold(s, t);
    if !Stops(s.heap, th) {
      StepFindOn(s, t);
    } else if th.want.Some? && th.op.OpRemove? {
      StepFoundRemove(s, t);
    } else if Matches(s.heap.nodes[th.curr], th.key, th.want) {
      StepFoundMatch(s, t);
    } else {
      StepFoundGap(s, t);
    }
  }

  /** In every reachable state every thread has a next step, and taking it keeps the invariant. */
  lemma StepInv(s: State, t: Tid, op: Op, e: Elem)
    requires Inv(s) && t in s.threads
    ensures Ready(s, t) && Inv(Next(s, t, op, e))
  {
    hide Inv, CallStep, ReclaimerStep, LoadCapacityStep, LoadBucketStep, FindStartStep, FindLoadStep, FindUnlinkStep,
      LinkCasStep,
      RemoveLoadStep, RemoveMarkStep, RemoveUnlinkStep, ContainsLoadStep, ContainsMarkStep, BucketCasStep,
      GrowSizeStep, GrowCasStep, LeaveStep;
    match s.threads[t].pc
    case Idle => StepCall(s, t, op, e);
    case InReclaimer(k) => StepReclaimer(s, t, k);
    case LoadCapacity => StepLoadCapacity(s, t);
    case LoadBucket(i) => StepLoadBucket(s, t, i);
    case FindStart => StepFindStart(s, t);
    case FindLoad => StepFindLoad(s, t);
    case FindUnlink => StepFindUnlink(s, t);
    case LinkCas => StepLinkCas(s, t);
    case RemoveLoad => StepRemoveLoad(s, t);
    case RemoveMark => StepRemoveMark(s, t);
    case RemoveUnlink => StepRemoveUnlink(s, t);
    case ContainsLoad => StepContainsLoad(s, t);
    case ContainsMark => StepContainsMark(s, t);
    case BucketCas(n) => StepBucketCas(s, t, n);
    case CountAdd => StepCountAdd(s, t);
    case CountRemove => StepCountRemove(s, t);
    case GrowLoad => StepGrowLoad(s, t);
    case GrowSize(cap) => StepGrowSize(s, t, cap);
    case GrowCas(cap) => StepGrowCas(s, t, cap);
    case Leaving(res) => StepLeave(s, t, res);
  }

  /** Memory is changed by the list code only. */
  lemma ElsewhereSameHeap(s: State, t: Tid, op: Op, e: Elem)
    requires t in s.threads && Ready(s, t) && !InList(s.threads[t].pc)
    ensures Next(s, t, op, e).heap == s.heap
  {
    hide NextBucket, E.InternalStep, E.Enabled, E.LeaveStep;
  }

  lemma FindLoadEvolves(s: State, t: Tid, op: Op, e: Elem)
    requires Inv(s) && t in s.threads && Ready(s, t) && s.threads[t].pc.FindLoad?
    ensures Evolves(s.heap, Next(s, t, op, e).heap, t)
  {
    hide Inv, HeapInv, ThreadOk, Evolves, RecTie, DeletedOk, ThreadsOk, BucketsOk, CapacityOk, E.OwnInv;
    hide Alloc, StoreNext, DeleteNode, Payload;
    var th, h, m := s.threads[t], s.heap, s.maxCapacity;
    Unfold(s, t);
    EvolvesSame(h, t);
    if Next(s, t, op, e).heap != h {
      if th.node == NULL {
        AllocThread(h, th, t, m);
      } else {
        StoreThread(h, th, t, m);
      }
    }
  }

  lemma ListStepEvolves(s: State, t: Tid, op: Op, e: Elem)
    requires Inv(s) && t in s.threads && Ready(s, t) && InList(s.threads[t].pc)
    ensures Evolves(s.heap, Next(s, t, op, e).heap, t)
  {
    hide Inv, HeapInv, ThreadOk, Evolves, RecTie, DeletedOk, ThreadsOk, BucketsOk, CapacityOk, E.OwnInv;
    hide ContainsAt, Publish, Unlink, MarkNode, FindLoadStep, E.InternalStep, E.Enabled;
    var th, h, m := s.threads[t], s.heap, s.maxCapacity;
    Unfold(s, t);
    EvolvesSame(h, t);
    if th.pc.LinkCas? && CanSwing(h, th.pred, th.curr) {
      LinkThread(h, th, t, m);
    } else if th.pc.RemoveMark? && CanSwing(h, th.curr, th.succ) {
      MarkThread(h, th, t, m);
    } else if th.pc.FindUnlink? && CanSwing(h, th.pred, th.curr) {
      UnlinkThread(h, th, t, m);
      UnlinkEvolves(h, th.pred, th.curr, th.succ, t);
    } else if th.pc.RemoveUnlink? && CanSwing(h, th.pred, th.curr) {
      RemoveThread(h, th, t, m);
      UnlinkEvolves(h, th.pred, th.curr, th.succ, t);
    } else if th.pc.FindLoad? {
      FindLoadEvolves(s, t, op, e);
    }
  }

  lemma UnlinkEvolves(h: Heap, p: NodeId, c: NodeId, succ: NodeId, t: Tid)
    requires HeapInv(h) && CanUnlink(h, p, c, succ)
    ensures Evolves(h, Unlink(h, p, c, succ, t), t)
  {
    hide HeapInv, Evolves;
    UnlinkEnds(h, p, c, succ) by { HeapHas(h); }
    EvolvesUnlink(h, p, c, succ, t);
  }

  /**
    What a step can do to memory, whoever takes it: `Evolves` says that keys never change, a marked
    word never changes again, an unlinked node is never linked again, and a node that becomes linked
    does so later than everything linked before it.
  */
  lemma StepEvolves(s: State, t: Tid, op: Op, e: Elem)
    requires Inv(s) && t in s.threads && Ready(s, t)
    ensures Evolves(s.heap, Next(s, t, op, e).heap, t)
  {
    hide Inv, Ready, Next, Evolves;
    if InList(s.threads[t].pc) {
      ListStepEvolves(s, t, op, e);
    } else {
      ElsewhereSameHeap(s, t, op, e);
      EvolvesSame(s.heap, t);
    }
  }
}
