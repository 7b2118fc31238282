/** The steps of Find, Add, SentinelFor and Remove keep the invariant of the lock-free set. */
module LockFreeFind {
  import opened Common
  import opened SplitOrder
  import opened ListHeap
  import opened Traversal
  import opened LockFreeSet
  import opened LockFreeInv
  import opened LockFreeSteps
  import E = Epochs

  /** A step that changes memory, but unlinks nothing and tells the reclaimer nothing. */
  lemma Writing(s: State, s': State, t: Tid)
    requires Inv(s) && OnlyThread(s, s', t)
    requires s' == s.(heap := s'.heap, threads := s'.threads, deleted := s'.deleted)
    requires s'.threads[t].since == s.threads[t].since
    requires CtlTie(s.threads[t].pc, E.Inside) && CtlTie(s'.threads[t].pc, E.Inside)
    requires HeapInv(s'.heap) && Evolves(s.heap, s'.heap, t)
    requires forall n :: Un(s'.heap, n) <==> Un(s.heap, n)
    requires DeletedOk(s') && ThreadOk(s'.heap, s'.threads[t], t, s.maxCapacity)
    ensures Inv(s')
  {
    hide Inv, ThreadOk, DeletedOk, BucketsOk, CapacityOk, ThreadsOk, RecTie;
    Unfold(s, t);
    HeapHas(s.heap);
    HeapHas(s'.heap);
    OthersOk(s, s', t) by { hide *; hide Evolves; }
    BucketsStable(s, s'.heap, t) by { hide *; hide Evolves; }
    WritingTies(s, s', t);
    FoldInv(s, s', t);
  }

  lemma FoldInv(s: State, s': State, t: Tid)
    requires OnlyThread(s, s', t)
    requires s' == s.(heap := s'.heap, threads := s'.threads, deleted := s'.deleted, rec := s'.rec)
    requires HeapInv(s'.heap) && BucketsOk(s.(heap := s'.heap)) && CapacityOk(s)
    requires RecTie(s') && E.OwnInv(s'.rec) && DeletedOk(s') && ThreadsOk(s')
    ensures Inv(s')
  {
    hide HeapInv, RecTie, DeletedOk, ThreadsOk, SentinelAt, PowerOfTwo, E.OwnInv;
  }

  lemma WritingTies(s: State, s': State, t: Tid)
    requires RecTie(s) && OnlyThread(s, s', t) && s'.rec == s.rec && s'.threads[t].since == s.threads[t].since
    requires CtlTie(s.threads[t].pc, E.Inside) && CtlTie(s'.threads[t].pc, E.Inside)
    requires Evolves(s.heap, s'.heap, t) && forall n :: Un(s'.heap, n) <==> Un(s.heap, n)
    ensures RecTie(s')
  {
    assert CtlTie(s.threads[t].pc, s.rec.ctl[t]) && s.rec.ctl[t] == E.Inside;
    assert forall n :: Un(s.heap, n) ==> s'.heap.nodes[n] == s.heap.nodes[n];
    forall u | u in s'.threads
      ensures HolderTie(s', u)
    {
      assert HolderTie(s, u);
    }
  }

  // ----- Find: moving on -----

  lemma StepFindStart(s: State, t: Tid)
    requires Inv(s) && t in s.threads && s.threads[t].pc.FindStart?
    ensures s.threads[t].head in s.heap.nodes && Inv(FindStartStep(s, t, s.threads[t]))
  {
    hide SentinelKey, OrdinaryKey, Inv, HeapInv, RecTie, DeletedOk, ThreadsOk, BucketsOk, CapacityOk, E.OwnInv;
    var th, h := s.threads[t], s.heap;
    Unfold(s, t);
    HeapHas(h);
    assert KeyOk(th.head, h.nodes[th.head]);
    PassedStart(h, th.head, th.key, th.want);
    SearchNext(h, th.head, th.since, th.key, th.want);
    QuietLocal(s, FindStartStep(s, t, th), t);
  }

  /** `curr` is linked, and not what is looked for: it becomes `pred`. */
  lemma MovesOn(h: Heap, th: Thread, t: Tid)
    requires HeapInv(h) && Searching(h, th, t) && TargetOk(th)
    requires !h.nodes[th.curr].mark && !AtOrPast(h.nodes[th.curr], th.key, th.want)
    ensures Searching(h, th.(pred := th.curr, curr := h.nodes[th.curr].next, predAt := h.clock), t)
  {
    hide SentinelKey, OrdinaryKey, Sorted, FrozenSorted, Unique, FrozenUnique, Births, FrozenLinks;
    HeapHas(h);
    BelowTail(h, th.curr, th);
    UnmarkedIsLinked(h, th.curr);
    PassedHere(h, th.curr, th.key, th.want);
    SearchNext(h, th.curr, th.since, th.key, th.want);
  }

  /** Find returns: `curr` is unmarked, and the one looked for or past it. */
  ghost predicate Stops(h: Heap, th: Thread)
    requires th.curr in h.nodes
  {
    !h.nodes[th.curr].mark && AtOrPast(h.nodes[th.curr], th.key, th.want)
  }

  /** What FindLoad does when it does not return from Find. */
  lemma StepFindOn(s: State, t: Tid)
    requires Inv(s) && t in s.threads && s.threads[t].pc.FindLoad?
    requires s.threads[t].curr in s.heap.nodes && !Stops(s.heap, s.threads[t])
    ensures Inv(FindLoadStep(s, t, s.threads[t]))
  {
    hide SentinelKey, OrdinaryKey, Inv, HeapInv, RecTie, DeletedOk, ThreadsOk, BucketsOk, CapacityOk, E.OwnInv;
    var th, h := s.threads[t], s.heap;
    Unfold(s, t);
    if !h.nodes[th.curr].mark {
      MovesOn(h, th, t);
    }
    QuietLocal(s, FindLoadStep(s, t, th), t);
  }

  // ----- Find: returning -----

  lemma FoundInAdd(h: Heap, th: Thread)
    requires Marks(h) && Held(h, th.curr, th.since) && !h.nodes[th.curr].mark
    requires th.want == Some(th.elem) && th.key == OrdinaryKey(th.elem.code)
    requires Matches(h.nodes[th.curr], th.key, th.want)
    ensures SawIn(h, th.since, th.elem)
  {
    assert Pub(h, th.curr);
  }

  /** Find returns to Remove. */
  lemma StepFoundRemove(s: State, t: Tid)
    requires Inv(s) && t in s.threads && s.threads[t].pc.FindLoad?
    requires s.threads[t].curr in s.heap.nodes && Stops(s.heap, s.threads[t])
    requires s.threads[t].want.Some? && s.threads[t].op.OpRemove?
    ensures Inv(FindLoadStep(s, t, s.threads[t]))
  {
    hide SentinelKey, OrdinaryKey, Inv, HeapInv, RecTie, DeletedOk, ThreadsOk, BucketsOk, CapacityOk, E.OwnInv;
    var th, h := s.threads[t], s.heap;
    Unfold(s, t);
    QuietLocal(s, FindLoadStep(s, t, th), t);
  }

  /** The private node of `t`, and what becomes of it, is all that `deleted` depends on. */
  lemma DeletedKeeps(s: State, s': State, t: Tid)
    requires DeletedOk(s) && OnlyThread(s, s', t)
    requires forall n :: n in s.heap.nodes && s.heap.nodes[n].writer != t && s.heap.nodes[n].status.Private? ==>
               n in s'.heap.nodes && s'.heap.nodes[n] == s.heap.nodes[n]
    requires forall n :: n in s'.heap.nodes && s'.heap.nodes[n].status.Private? && s'.heap.nodes[n].writer != t ==>
               n in s.heap.nodes && s'.heap.nodes[n] == s.heap.nodes[n]
    requires forall n :: s'.deleted[n] == s.deleted[n] + One(MyDiscard(s', n, t)) - One(MyDiscard(s, n, t))
    ensures DeletedOk(s')
  {
    forall n
      ensures s'.deleted[n] == One(Discarded(s', n))
    {
      assert s.deleted[n] == One(Discarded(s, n));
      assert Discarded(s, n) <==> MyDiscard(s, n, t) || OtherDiscard(s, n, t);
      assert Discarded(s', n) <==> MyDiscard(s', n, t) || OtherDiscard(s', n, t);
      assert OtherDiscard(s, n, t) <==> OtherDiscard(s', n, t);
    }
  }

  ghost predicate MyDiscard(s: State, n: NodeId, t: Tid) {
    Mine(s.heap, n, t) && t in s.threads && s.threads[t].node != n
  }

  ghost predicate OtherDiscard(s: State, n: NodeId, t: Tid) { Discarded(s, n) && s.heap.nodes[n].writer != t }

  /** Find returns the sentinel or the element that was to be added: the node made for it is deleted. */
  lemma StepFoundMatch(s: State, t: Tid)
    requires Inv(s) && t in s.threads && s.threads[t].pc.FindLoad?
    requires s.threads[t].curr in s.heap.nodes && Stops(s.heap, s.threads[t])
    requires !(s.threads[t].want.Some? && s.threads[t].op.OpRemove?)
    requires Matches(s.heap.nodes[s.threads[t].curr], s.threads[t].key, s.threads[t].want)
    ensures Inv(FindLoadStep(s, t, s.threads[t]))
  {
    hide SentinelKey, OrdinaryKey, Inv, HeapInv, RecTie, DeletedOk, ThreadsOk, BucketsOk, CapacityOk, E.OwnInv,
      Sorted, FrozenSorted, Links, FrozenLinks, Unique, FrozenUnique, Births, Kinds, PcOk, Justified;
    var th, h := s.threads[t], s.heap;
    var s' := FindLoadStep(s, t, th);
    Unfold(s, t);
    HeapHas(h);
    MatchThread(h, th, t, s.maxCapacity);
    DiscardNode(s, s', t);
    EvolvesSame(h, t);
    Writing(s, s', t) by { hide HeapInv, Evolves, NodeOk, Matches, AtOrPast; }
  }

  /** What the thread knows once it has found a match, and let go of its node. */
  lemma MatchThread(h: Heap, th: Thread, t: Tid, max: nat)
    requires Marks(h) && ThreadOk(h, th, t, max) && th.pc.FindLoad? && Stops(h, th)
    requires !(th.want.Some? && th.op.OpRemove?) && th.curr in h.nodes && Matches(h.nodes[th.curr], th.key, th.want)
    ensures ThreadOk(h, th.(currAt := h.clock, node := NULL,
                            pc := if th.want == None then BucketCas(th.curr) else Leaving(false)), t, max)
  {
    hide SentinelKey, OrdinaryKey;
    UnmarkedIsLinked(h, th.curr);
    if th.want.Some? {
      FoundInAdd(h, th);
    }
  }

  lemma DiscardNode(s: State, s': State, t: Tid)
    requires DeletedOk(s) && OnlyThread(s, s', t) && s'.heap == s.heap
    requires s.threads[t].node == NULL || Mine(s.heap, s.threads[t].node, t)
    requires NULL !in s.heap.nodes
    requires s'.threads[t].node == NULL && s'.deleted == DeleteNode(s, s.threads[t])
    ensures DeletedOk(s')
  {
    DeletedKeeps(s, s', t);
  }

  /** Find returns without a match: the new node is made, or pointed at `curr`. */
  lemma StepFoundGap(s: State, t: Tid)
    requires Inv(s) && t in s.threads && s.threads[t].pc.FindLoad?
    requires s.threads[t].curr in s.heap.nodes && Stops(s.heap, s.threads[t])
    requires !(s.threads[t].want.Some? && s.threads[t].op.OpRemove?)
    requires !Matches(s.heap.nodes[s.threads[t].curr], s.threads[t].key, s.threads[t].want)
    ensures Inv(FindLoadStep(s, t, s.threads[t]))
  {
    hide SentinelKey, OrdinaryKey, Inv, HeapInv, RecTie, DeletedOk, ThreadsOk, BucketsOk, CapacityOk, StackOk, E.OwnInv;
    var th, h := s.threads[t].(currAt := s.heap.clock), s.heap;
    Unfold(s, t);
    assert FindLoadStep(s, t, s.threads[t]) == Prepare(s, t, th);
    if th.node == NULL {
      PrepareAlloc(s, t, th);
    } else {
      PrepareStore(s, t, th);
    }
  }

  lemma FreshKeyOk(h: Heap, th: Thread, t: Tid)
    requires Ends(h) && TargetOk(th)
    ensures KeyOk(h.nextId, Node(th.key, Payload(th.want), th.curr, false, Private, 0, 0, t, 0))
  {
  }

  /** What the thread knows survives the making of its node, and now includes the node. */
  lemma AllocThread(h: Heap, th: Thread, t: Tid, max: nat)
    requires HeapInv(h) && ThreadOk(h, th, t, max) && th.pc.FindLoad? && th.node == NULL
    requires !(th.want.Some? && th.op.OpRemove?) && th.key < h.nodes[th.curr].key
    ensures var k := Alloc(h, th.key, Payload(th.want), th.curr, t);
            HeapInv(k) && Evolves(h, k, t) && ThreadOk(k, th.(node := h.nextId, pc := LinkCas), t, max)
  {
    hide SentinelKey, OrdinaryKey, HeapInv;
    var k := Alloc(h, th.key, Payload(th.want), th.curr, t);
    HeapHas(h);
    FreshKeyOk(h, th, t);
    AllocKeeps(h, th.key, Payload(th.want), th.curr, t);
    EvolvesAlloc(h, th.key, Payload(th.want), th.curr, t);
    HeapHas(k);
    SearchingStable(h, k, t, th, t);
  }

  lemma PrepareAlloc(s: State, t: Tid, th: Thread)
    requires Inv(s) && t in s.threads && th == s.threads[t].(currAt := th.currAt) && th.pc.FindLoad? && th.node == NULL
    requires !(th.want.Some? && th.op.OpRemove?)
    requires th.curr in s.heap.nodes && th.key < s.heap.nodes[th.curr].key
    ensures Inv(Prepare(s, t, th))
  {
    hide SentinelKey, OrdinaryKey, Inv, HeapInv, RecTie, DeletedOk, ThreadsOk, BucketsOk, CapacityOk, E.OwnInv;
    var h, s' := s.heap, Prepare(s, t, th);
    Unfold(s, t);
    assert ThreadOk(h, th, t, s.maxCapacity);
    AllocThread(h, th, t, s.maxCapacity) by { hide ThreadOk; }
    AllocDiscards(s, s', t, th) by { HeapHas(h); }
    Writing(s, s', t) by { hide Evolves, ThreadOk; }
  }

  lemma AllocDiscards(s: State, s': State, t: Tid, th: Thread)
    requires DeletedOk(s) && Ends(s.heap) && t in s.threads && s.threads[t].node == NULL && th.node == NULL
    requires s' == Prepare(s, t, th)
    ensures DeletedOk(s')
  {
    DeletedKeeps(s, s', t);
  }

  lemma StoreThread(h: Heap, th: Thread, t: Tid, max: nat)
    requires HeapInv(h) && ThreadOk(h, th, t, max) && th.pc.FindLoad? && th.node != NULL
    requires !(th.want.Some? && th.op.OpRemove?) && th.key < h.nodes[th.curr].key
    ensures var k := StoreNext(h, th.node, th.curr);
            HeapInv(k) && Evolves(h, k, t) && ThreadOk(k, th.(pc := LinkCas), t, max)
  {
    hide SentinelKey, OrdinaryKey, HeapInv;
    var k := StoreNext(h, th.node, th.curr);
    HeapHas(h);
    StoreKeeps(h, th.node, th.curr);
    EvolvesStore(h, th.node, th.curr, t);
    HeapHas(k);
    SearchingStable(h, k, t, th, t);
  }

  lemma PrepareStore(s: State, t: Tid, th: Thread)
    requires Inv(s) && t in s.threads && th == s.threads[t].(currAt := th.currAt) && th.pc.FindLoad? && th.node != NULL
    requires !(th.want.Some? && th.op.OpRemove?)
    requires th.curr in s.heap.nodes && th.key < s.heap.nodes[th.curr].key
    ensures Inv(Prepare(s, t, th))
  {
    hide SentinelKey, OrdinaryKey, Inv, HeapInv, RecTie, DeletedOk, ThreadsOk, BucketsOk, CapacityOk, E.OwnInv;
    var h, s' := s.heap, Prepare(s, t, th);
    Unfold(s, t);
    assert ThreadOk(h, th, t, s.maxCapacity);
    StoreThread(h, th, t, s.maxCapacity) by { hide ThreadOk; }
    StoreDiscards(s, s', t, th);
    Writing(s, s', t) by { hide Evolves, ThreadOk; }
  }

  lemma StoreDiscards(s: State, s': State, t: Tid, th: Thread)
    requires DeletedOk(s) && t in s.threads && s.threads[t].node == th.node != NULL && Mine(s.heap, th.node, t)
    requires s' == Prepare(s, t, th)
    ensures DeletedOk(s')
  {
    DeletedKeeps(s, s', t);
  }

  // ----- linking a node in -----

  /** When the CAS succeeds, the node goes in where nothing that matches it is linked. */
  lemma MayPublish(h: Heap, th: Thread, t: Tid)
    requires HeapInv(h) && Searching(h, th, t) && TargetOk(th) && NodeOk(h, th, t) && th.node != NULL
    requires th.key < h.nodes[th.curr].key && h.nodes[th.node].next == th.curr && CanSwing(h, th.pred, th.curr)
    ensures CanPublish(h, th.pred, th.node, t) && (forall x :: Lk(h, x) ==> !Matches(h.nodes[x], th.key, th.want))
  {
    hide SentinelKey, OrdinaryKey, HeapInv, FrozenSorted, FrozenUnique, FrozenLinks, Unique;
    HeapHas(h);
    BelowTail(h, th.pred, th);
    UnmarkedIsLinked(h, th.pred);
    assert Nx(h, th.pred) == th.curr == Nx(h, th.node);
    NoneLinked(h, th.pred, th.key, th.want);
    forall x | Lk(h, x)
      ensures !Same(h, x, th.node)
    {
      assert !Matches(h.nodes[x], th.key, th.want);
    }
  }

  lemma LinkThread(h: Heap, th: Thread, t: Tid, max: nat)
    requires HeapInv(h) && ThreadOk(h, th, t, max) && th.pc.LinkCas? && CanSwing(h, th.pred, th.curr)
    ensures CanPublish(h, th.pred, th.node, t)
    ensures var k := Publish(h, th.pred, th.node, t);
            HeapInv(k) && Evolves(h, k, t) &&
            ThreadOk(k, th.(node := NULL, pc := if th.want == None then BucketCas(th.node) else CountAdd), t, max)
  {
    hide SentinelKey, OrdinaryKey, HeapInv;
    MayPublish(h, th, t);
    PublishKeeps(h, th.pred, th.node, t);
    HeapHas(h);
    EvolvesPublish(h, th.pred, th.node, t);
  }

  lemma LinkedIn(s: State, t: Tid)
    requires Inv(s) && t in s.threads && s.threads[t].pc.LinkCas?
    requires CanSwing(s.heap, s.threads[t].pred, s.threads[t].curr)
    ensures s.threads[t].node in s.heap.nodes && Inv(LinkCasStep(s, t, s.threads[t]))
  {
    hide SentinelKey, OrdinaryKey, Inv, HeapInv, ThreadOk, Evolves, RecTie, DeletedOk, ThreadsOk, BucketsOk, CapacityOk,
      E.OwnInv;
    var th, h := s.threads[t], s.heap;
    Unfold(s, t);
    LinkThread(h, th, t, s.maxCapacity);
    var s' := LinkCasStep(s, t, th);
    LinkDiscards(s, s', t, th) by { HeapHas(h); }
    Writing(s, s', t);
  }

  lemma StepLinkCas(s: State, t: Tid)
    requires Inv(s) && t in s.threads && s.threads[t].pc.LinkCas?
    ensures s.threads[t].node in s.heap.nodes && Inv(LinkCasStep(s, t, s.threads[t]))
  {
    hide SentinelKey, OrdinaryKey, Inv, HeapInv, RecTie, DeletedOk, ThreadsOk, BucketsOk, CapacityOk, E.OwnInv;
    var th, h := s.threads[t], s.heap;
    Unfold(s, t);
    var s' := LinkCasStep(s, t, th);
    if CanSwing(h, th.pred, th.curr) {
      LinkedIn(s, t);
    } else {
      QuietLocal(s, s', t);
    }
  }

  lemma LinkDiscards(s: State, s': State, t: Tid, th: Thread)
    requires DeletedOk(s) && t in s.threads && th == s.threads[t] && CanPublish(s.heap, th.pred, th.node, t)
    requires s' == LinkCasStep(s, t, th) && NULL !in s.heap.nodes
    ensures DeletedOk(s')
  {
    DeletedKeeps(s, s', t);
  }

  // ----- marking -----

  lemma MarkThread(h: Heap, th: Thread, t: Tid, max: nat)
    requires HeapInv(h) && ThreadOk(h, th, t, max) && th.pc.RemoveMark? && CanSwing(h, th.curr, th.succ)
    ensures CanMark(h, th.curr) && Holds(h, th.curr, th.elem)
    ensures var k := MarkNode(h, th.curr, t);
            HeapInv(k) && Evolves(h, k, t) && ThreadOk(k, th.(pc := RemoveUnlink), t, max)
  {
    hide SentinelKey, OrdinaryKey, HeapInv;
    var k := MarkNode(h, th.curr, t);
    HeapHas(h);
    UnmarkedIsLinked(h, th.curr);
    BelowTail(h, th.curr, th);
    assert !SentinelKeyForm(h.nodes[th.curr].key) by { OrdinaryIsNoSentinel(th.elem.code); }
    MarkKeeps(h, th.curr, t);
    EvolvesMark(h, th.curr, t);
    HeapHas(k);
    assert th.pred != th.curr by { assert Le(h, th.curr, th.curr); }
    RemovingStable(h, k, t, th, t);
  }

  lemma OrdinaryIsNoSentinel(code: nat)
    ensures !SentinelKeyForm(OrdinaryKey(code))
  {
  }

  lemma StepRemoveMark(s: State, t: Tid)
    requires Inv(s) && t in s.threads && s.threads[t].pc.RemoveMark?
    ensures s.threads[t].curr in s.heap.nodes && Inv(RemoveMarkStep(s, t, s.threads[t]))
  {
    hide SentinelKey, OrdinaryKey, Inv, HeapInv, RecTie, DeletedOk, ThreadsOk, BucketsOk, CapacityOk, E.OwnInv;
    var th, h := s.threads[t], s.heap;
    Unfold(s, t);
    var s' := RemoveMarkStep(s, t, th);
    if CanSwing(h, th.curr, th.succ) {
      MarkThread(h, th, t, s.maxCapacity) by { hide ThreadOk; }
      SamePrivate(s, s', t);
      Writing(s, s', t) by { hide Evolves, ThreadOk; }
    } else {
      QuietLocal(s, s', t);
    }
  }

  /** No private node changes hands. */
  lemma SamePrivate(s: State, s': State, t: Tid)
    requires DeletedOk(s) && OnlyThread(s, s', t) && s'.deleted == s.deleted && s'.threads[t].node == s.threads[t].node
    requires forall n :: n in s.heap.nodes && s.heap.nodes[n].status.Private? ==>
             n in s'.heap.nodes && s'.heap.nodes[n] == s.heap.nodes[n]
    requires forall n :: n in s'.heap.nodes && s'.heap.nodes[n].status.Private? ==>
             n in s.heap.nodes && s'.heap.nodes[n] == s.heap.nodes[n]
    ensures DeletedOk(s')
  {
    DeletedKeeps(s, s', t);
  }

  lemma StepRemoveLoad(s: State, t: Tid)
    requires Inv(s) && t in s.threads && s.threads[t].pc.RemoveLoad?
    ensures s.threads[t].curr in s.heap.nodes && Inv(RemoveLoadStep(s, t, s.threads[t]))
  {
    hide SentinelKey, OrdinaryKey, Inv, HeapInv, RecTie, DeletedOk, ThreadsOk, BucketsOk, CapacityOk, E.OwnInv;
    var th := s.threads[t];
    Unfold(s, t);
    HeapHas(s.heap);
    BelowTail(s.heap, th.curr, th);
    HeldNext(s.heap, th.curr, th.since);
    QuietLocal(s, RemoveLoadStep(s, t, th), t);
  }

  // ----- unlinking -----

  /** A step that unlinks `c` and hands it to the reclaimer. */
  lemma Unlinking(s: State, s': State, t: Tid, p: NodeId, c: NodeId, succ: NodeId)
    requires Inv(s) && OnlyThread(s, s', t) && CanUnlink(s.heap, p, c, succ)
    requires s' == s.(heap := Unlink(s.heap, p, c, succ, t), threads := s'.threads, rec := E.UnlinkStep(s.rec, t, c))
    requires s'.threads[t].since == s.threads[t].since && s'.threads[t].node == s.threads[t].node
    requires CtlTie(s.threads[t].pc, E.Inside)
    requires s'.threads[t].pc == InReclaimer(KFind) || s'.threads[t].pc == InReclaimer(KRemove)
    requires ThreadOk(s'.heap, s'.threads[t], t, s.maxCapacity)
    ensures Inv(s')
  {
    hide Inv, ThreadOk, DeletedOk, BucketsOk, CapacityOk, ThreadsOk, RecTie, HeapInv, E.OwnInv,
      Sorted, FrozenSorted, Links, FrozenLinks, Unique, FrozenUnique, Births, Kinds, HolderTie;
    Unfold(s, t);
    HeapHas(s.heap);
    UnlinkEnds(s.heap, p, c, succ);
    UnlinkKeeps(s.heap, p, c, succ, t);
    EvolvesUnlink(s.heap, p, c, succ, t);
    HeapHas(s'.heap);
    OthersOk(s, s', t) by { hide *; hide Evolves; }
    BucketsStable(s, s'.heap, t) by { hide *; hide Evolves; }
    SamePrivate(s, s', t) by { hide OnlyThread, Evolves; }
    UnlinkEnabled(s, t, c);
    E.StepOwns(s.rec, t, E.Unlinked(c));
    UnlinkingTies(s, s', t, p, c, succ);
    FoldInv(s, s', t);
  }

  lemma UnlinkEnabled(s: State, t: Tid, c: NodeId)
    requires RecTie(s) && E.OwnInv(s.rec) && t in s.threads && CtlTie(s.threads[t].pc, E.Inside) && Lk(s.heap, c)
    ensures E.Enabled(s.rec, t, E.Unlinked(c))
  {
    assert CtlTie(s.threads[t].pc, s.rec.ctl[t]);
    assert c !in s.rec.fates by { assert !Un(s.heap, c); }
  }

  lemma UnlinkingTies(s: State, s': State, t: Tid, p: NodeId, c: NodeId, succ: NodeId)
    requires RecTie(s) && E.OwnInv(s.rec) && OnlyThread(s, s', t) && CanUnlink(s.heap, p, c, succ) && Lk(s.heap, c)
    requires p != c
    requires s' == s.(heap := Unlink(s.heap, p, c, succ, t), threads := s'.threads, rec := E.UnlinkStep(s.rec, t, c))
    requires s'.threads[t].since == s.threads[t].since && CtlTie(s.threads[t].pc, E.Inside)
    requires s'.threads[t].pc == InReclaimer(KFind) || s'.threads[t].pc == InReclaimer(KRemove)
    ensures RecTie(s')
  {
    hide E.OwnInv, HolderTie;
    assert CtlTie(s.threads[t].pc, s.rec.ctl[t]);
    UnlinkingFates(s, s', t, p, c, succ);
    forall u | u in s'.threads
      ensures HolderTie(s', u)
    {
      UnlinkingHolds(s, s', t, p, c, succ, u) by { hide CtlsTie, FatesTie; }
    }
  }

  lemma UnlinkingFates(s: State, s': State, t: Tid, p: NodeId, c: NodeId, succ: NodeId)
    requires FatesTie(s) && Lk(s.heap, p) && Lk(s.heap, c) && p != c
    requires s' == s.(heap := Unlink(s.heap, p, c, succ, t), threads := s'.threads, rec := E.UnlinkStep(s.rec, t, c))
    ensures FatesTie(s')
  {
    assert forall n :: Un(s'.heap, n) <==> Un(s.heap, n) || n == c;
  }

  lemma UnlinkingHolds(s: State, s': State, t: Tid, p: NodeId, c: NodeId, succ: NodeId, u: Tid)
    requires RecTie(s) && E.OwnInv(s.rec) && OnlyThread(s, s', t) && CanUnlink(s.heap, p, c, succ) && Lk(s.heap, c)
    requires p != c
    requires s' == s.(heap := Unlink(s.heap, p, c, succ, t), threads := s'.threads, rec := E.UnlinkStep(s.rec, t, c))
    requires s'.threads[t].since == s.threads[t].since && Guarded(s.threads[t].pc)
    requires u in s'.threads
    ensures HolderTie(s', u)
  {
    hide E.OwnInv, FatesTie;
    assert HolderTie(s, u) && CtlTie(s.threads[u].pc, s.rec.ctl[u]);
    OpenGuards(s, u);
    assert forall n :: n in s.rec.fates && n != c ==> s'.rec.fates[n] == s.rec.fates[n];
    assert forall n :: Un(s'.heap, n) && n != c ==> Un(s.heap, n) && s'.heap.nodes[n] == s.heap.nodes[n];
  }

  /** The reclaimer sees every open Guard. */
  lemma OpenGuards(s: State, u: Tid)
    requires CtlsTie(s) && E.OwnInv(s.rec) && u in s.threads
    ensures Guarded(s.threads[u].pc) ==> u in E.Open(s.rec)
  {
    assert CtlTie(s.threads[u].pc, s.rec.ctl[u]) && E.CtlOk(s.rec, u);
  }

  lemma UnlinkThread(h: Heap, th: Thread, t: Tid, max: nat)
    requires HeapInv(h) && ThreadOk(h, th, t, max) && th.pc.FindUnlink? && CanSwing(h, th.pred, th.curr)
    ensures CanUnlink(h, th.pred, th.curr, th.succ)
    ensures var k := Unlink(h, th.pred, th.curr, th.succ, t);
            ThreadOk(k, th.(curr := th.succ, predAt := h.clock + 1, pc := InReclaimer(KFind)), t, max)
  {
    hide SentinelKey, OrdinaryKey, HeapInv, FrozenSorted, FrozenUnique;
    var k := Unlink(h, th.pred, th.curr, th.succ, t);
    HeapHas(h);
    BelowTail(h, th.pred, th);
    UnmarkedIsLinked(h, th.pred);
    UnlinkEnds(h, th.pred, th.curr, th.succ);
    UnlinkKeeps(h, th.pred, th.curr, th.succ, t);
    EvolvesUnlink(h, th.pred, th.curr, th.succ, t);
    UnlinkSearch(h, k, th, t);
  }

  lemma UnlinkSearch(h: Heap, k: Heap, th: Thread, t: Tid)
    requires HeapInv(h) && HeapInv(k) && Searching(h, th, t) && TargetOk(th) && th.since <= h.clock
    requires CanUnlink(h, th.pred, th.curr, th.succ) && k == Unlink(h, th.pred, th.curr, th.succ, t)
    requires Evolves(h, k, t) && Lk(k, th.pred)
    ensures Searching(k, th.(curr := th.succ, predAt := h.clock + 1), t)
  {
    hide SentinelKey, OrdinaryKey, HeapInv, FrozenSorted, FrozenUnique, FrozenLinks, Unique;
    HeapHas(h);
    HeapHas(k);
    SentinelStable(h, k, t, th.head);
    PassedStable(h, k, t, th.pred, th.key, th.want);
    SearchNext(k, th.pred, th.since, th.key, th.want);
  }

  lemma StepFindUnlink(s: State, t: Tid)
    requires Inv(s) && t in s.threads && s.threads[t].pc.FindUnlink?
    ensures s.threads[t].curr in s.heap.nodes && Inv(FindUnlinkStep(s, t, s.threads[t]))
  {
    hide SentinelKey, OrdinaryKey, Inv, HeapInv, RecTie, DeletedOk, ThreadsOk, BucketsOk, CapacityOk, E.OwnInv;
    var th, h := s.threads[t], s.heap;
    Unfold(s, t);
    var s' := FindUnlinkStep(s, t, th);
    if CanSwing(h, th.pred, th.curr) {
      UnlinkThread(h, th, t, s.maxCapacity) by { hide ThreadOk; }
      Unlinking(s, s', t, th.pred, th.curr, th.succ) by { hide ThreadOk; }
    } else {
      QuietLocal(s, s', t);
    }
  }

  lemma RemoveMayUnlink(h: Heap, th: Thread, t: Tid)
    requires HeapInv(h) && Removing(h, th, t) && TargetOk(th) && CanSwing(h, th.pred, th.curr)
    requires h.nodes[th.curr].mark && h.nodes[th.curr].next == th.succ
    ensures CanUnlink(h, th.pred, th.curr, th.succ)
  {
    hide SentinelKey, OrdinaryKey, HeapInv;
    HeapHas(h);
    BelowTail(h, th.pred, th);
    UnmarkedIsLinked(h, th.pred);
  }

  lemma RemoveThread(h: Heap, th: Thread, t: Tid, max: nat)
    requires HeapInv(h) && ThreadOk(h, th, t, max) && th.pc.RemoveUnlink? && CanSwing(h, th.pred, th.curr)
    ensures CanUnlink(h, th.pred, th.curr, th.succ)
  {
    hide HeapInv, CanUnlink;
    RemoveMayUnlink(h, th, t);
  }

  lemma RemoveUnlinks(s: State, t: Tid)
    requires Inv(s) && t in s.threads && s.threads[t].pc.RemoveUnlink?
    requires CanSwing(s.heap, s.threads[t].pred, s.threads[t].curr)
    ensures s.threads[t].curr in s.heap.nodes && Inv(RemoveUnlinkStep(s, t, s.threads[t]))
  {
    hide SentinelKey, OrdinaryKey, Inv, HeapInv, ThreadOk, RecTie, DeletedOk, ThreadsOk, BucketsOk, CapacityOk,
      E.OwnInv;
    var th := s.threads[t];
    Unfold(s, t);
    RemoveThread(s.heap, th, t, s.maxCapacity);
    RemoveRetires(s.heap, Unlink(s.heap, th.pred, th.curr, th.succ, t), th, t, s.maxCapacity);
    Unlinking(s, RemoveUnlinkStep(s, t, th), t, th.pred, th.curr, th.succ);
  }

  lemma RemoveRetires(h: Heap, k: Heap, th: Thread, t: Tid, max: nat)
    requires ThreadOk(h, th, t, max) && th.pc.RemoveUnlink? && h.clock <= k.clock
    ensures ThreadOk(k, th.(pc := InReclaimer(KRemove)), t, max)
  {
    hide SentinelKey, OrdinaryKey;
  }

  lemma StepRemoveUnlink(s: State, t: Tid)
    requires Inv(s) && t in s.threads && s.threads[t].pc.RemoveUnlink?
    ensures s.threads[t].curr in s.heap.nodes && Inv(RemoveUnlinkStep(s, t, s.threads[t]))
  {
    hide SentinelKey, OrdinaryKey, Inv, HeapInv, RecTie, DeletedOk, ThreadsOk, BucketsOk, CapacityOk, E.OwnInv;
    var th, h := s.threads[t], s.heap;
    Unfold(s, t);
    var s' := RemoveUnlinkStep(s, t, th);
    if CanSwing(h, th.pred, th.curr) {
      RemoveUnlinks(s, t);
    } else {
      QuietLocal(s, s', t);
    }
  }
}
