/**
  The lock-free set is a set: every step either leaves the abstract set alone or is the one effect of
  the operation that takes it, and every completed operation has a moment inside its call at which its
  result is the right one.
*/
module LockFreeLinear {
  import opened Common
  import opened SplitOrder
  import opened ListHeap
  import opened Traversal
  import opened LockFreeSet
  import opened LockFreeInv
  import opened LockFreeSteps
  import opened LockFreeFind
  import opened LockFreeTheorems
  import opened LockFreeSafety
  import E = Epochs

  // ----- the abstract set -----

  /** A linked, unmarked, ordinary node. */
  ghost predicate Member(h: Heap, n: NodeId) {
    Lk(h, n) && !h.nodes[n].mark && n != TAIL && !SentinelKeyForm(h.nodes[n].key)
  }

  ghost function Abs(h: Heap): set<Elem> { set n | n in h.nodes && Member(h, n) :: h.nodes[n].elem }

  lemma InAbs(h: Heap, e: Elem)
    requires Kinds(h)
    ensures e in Abs(h) <==> exists n :: Holds(h, n, e)
  {
    if n :| Holds(h, n, e) {
      assert KeyOk(n, h.nodes[n]);
      assert Member(h, n);
    }
    if e in Abs(h) {
      var n :| n in h.nodes && Member(h, n) && h.nodes[n].elem == e;
      assert KeyOk(n, h.nodes[n]);
      assert Holds(h, n, e);
    }
  }

  /** At most one linked node, marked or not, carries a given element. */
  lemma OneNodePerElement(r: Run, i: nat, e: Elem, m: NodeId, n: NodeId)
    requires IsRun(r) && i < |r.states|
    requires var h := r.states[i].heap; Lk(h, m) && Lk(h, n) && h.nodes[m].elem == e == h.nodes[n].elem
    requires var h := r.states[i].heap; h.nodes[m].key == OrdinaryKey(e.code) == h.nodes[n].key
    ensures m == n
  {
    hide OrdinaryKey;
    Always(r, i);
    assert Same(r.states[i].heap, m, n);
  }

  lemma SameMembers(h: Heap, k: Heap)
    requires forall n :: Member(h, n) <==> Member(k, n)
    requires forall n :: Member(h, n) ==> n in k.nodes && k.nodes[n].elem == h.nodes[n].elem
    ensures Abs(k) == Abs(h)
  {
    assert forall n :: n in h.nodes && Member(h, n) ==>
           n in k.nodes && Member(k, n) && k.nodes[n].elem == h.nodes[n].elem;
    assert forall n :: n in k.nodes && Member(k, n) ==>
           n in h.nodes && Member(h, n) && k.nodes[n].elem == h.nodes[n].elem;
  }

  lemma OneMoreMember(h: Heap, k: Heap, m: NodeId)
    requires Member(k, m) && forall n :: n != m ==> (Member(h, n) <==> Member(k, n))
    requires !Member(h, m) && forall n :: Member(h, n) ==> n in k.nodes && k.nodes[n].elem == h.nodes[n].elem
    ensures Abs(k) == Abs(h) + {k.nodes[m].elem}
  {
    assert forall n :: n in h.nodes && Member(h, n) ==>
           n in k.nodes && Member(k, n) && k.nodes[n].elem == h.nodes[n].elem;
    assert forall n :: n in k.nodes && Member(k, n) && n != m ==>
           n in h.nodes && Member(h, n) && k.nodes[n].elem == h.nodes[n].elem;
  }

  lemma OneMemberLess(h: Heap, k: Heap, m: NodeId)
    requires Member(h, m) && !Member(k, m) && forall n :: n != m ==> (Member(h, n) <==> Member(k, n))
    requires forall n :: n != m && Member(h, n) ==>
             n in k.nodes && k.nodes[n].elem == h.nodes[n].elem != h.nodes[m].elem
    ensures Abs(k) == Abs(h) - {h.nodes[m].elem} && h.nodes[m].elem in Abs(h)
  {
    assert forall n :: n in h.nodes && Member(h, n) && n != m ==>
           n in k.nodes && Member(k, n) && k.nodes[n].elem == h.nodes[n].elem;
    assert forall n :: n in k.nodes && Member(k, n) ==>
           n in h.nodes && Member(h, n) && n != m && k.nodes[n].elem == h.nodes[n].elem;
    assert m in h.nodes && Member(h, m);
  }

  // ----- effects -----

  /** This step of `t` links in the element `t` is adding. */
  ghost predicate LinksElement(s: State, t: Tid) {
    t in s.threads &&
    var th := s.threads[t]; th.pc.LinkCas? && th.want.Some? && CanSwing(s.heap, th.pred, th.curr)
  }

  /** This step of `t` marks the node of the element `t` is removing. */
  ghost predicate MarksElement(s: State, t: Tid) {
    t in s.threads &&
    var th := s.threads[t]; th.pc.RemoveMark? && CanSwing(s.heap, th.curr, th.succ)
  }

  lemma PublishElement(h: Heap, th: Thread, t: Tid, max: nat)
    requires HeapInv(h) && ThreadOk(h, th, t, max) && th.pc.LinkCas? && CanSwing(h, th.pred, th.curr)
    ensures th.node in h.nodes && CanPublish(h, th.pred, th.node, t)
    ensures var k := Publish(h, th.pred, th.node, t);
            if th.want.Some? then th.elem !in Abs(h) && Abs(k) == Abs(h) + {th.elem} && th.op.OpAdd?
              else Abs(k) == Abs(h)
  {
    hide SentinelKey, OrdinaryKey, HeapInv, Abs, SentinelKeyForm;
    MayPublish(h, th, t);
    HeapHas(h);
    PublishEnds(h, th.pred, th.node);
    var k := Publish(h, th.pred, th.node, t);
    PublishedMembers(h, th.pred, th.node, t);
    if th.want.Some? {
      assert Member(k, th.node) by { OrdinaryIsNoSentinel(th.elem.code); }
      OneMoreMember(h, k, th.node);
      NotHeld(h, th.key, th.elem);
    } else {
      assert !Member(k, th.node);
      SameMembers(h, k);
    }
  }

  lemma NotHeld(h: Heap, key: nat, e: Elem)
    requires Kinds(h) && key == OrdinaryKey(e.code)
    requires forall n :: Lk(h, n) ==> !Matches(h.nodes[n], key, Some(e))
    ensures e !in Abs(h)
  {
    hide OrdinaryKey, Abs;
    InAbs(h, e);
  }

  lemma PublishedMembers(h: Heap, p: NodeId, n: NodeId, t: Tid)
    requires CanPublish(h, p, n, t) && p != n
    ensures var k := Publish(h, p, n, t);
            && (forall x :: x != n ==> (Member(k, x) <==> Member(h, x)))
            && (forall x :: Member(h, x) ==> k.nodes[x].elem == h.nodes[x].elem) && !Member(h, n)
            && k.nodes[n].elem == h.nodes[n].elem
  {
  }

  lemma MarkElement(h: Heap, th: Thread, t: Tid, max: nat)
    requires HeapInv(h) && ThreadOk(h, th, t, max) && th.pc.RemoveMark? && CanSwing(h, th.curr, th.succ)
    ensures th.elem in Abs(h) && Abs(MarkNode(h, th.curr, t)) == Abs(h) - {th.elem} && th.op.OpRemove?
  {
    hide SentinelKey, OrdinaryKey, HeapInv, Abs;
    MarkThread(h, th, t, max);
    HeapHas(h);
    var k := MarkNode(h, th.curr, t);
    forall n | n != th.curr && Member(h, n)
      ensures h.nodes[n].elem != th.elem
    {
      assert KeyOk(n, h.nodes[n]);
      assert h.nodes[n].elem == th.elem ==> Same(h, n, th.curr);
    }
    OneMemberLess(h, k, th.curr);
  }

  lemma UnlinkMembers(h: Heap, p: NodeId, c: NodeId, succ: NodeId, t: Tid)
    requires HeapInv(h) && CanUnlink(h, p, c, succ)
    ensures Abs(Unlink(h, p, c, succ, t)) == Abs(h)
  {
    hide Abs, HeapInv;
    HeapHas(h);
    UnlinkEnds(h, p, c, succ);
    SameMembers(h, Unlink(h, p, c, succ, t));
  }

  lemma AllocMembers(h: Heap, key: nat, e: Elem, next: NodeId, t: Tid)
    requires h.nextId !in h.nodes
    ensures Abs(Alloc(h, key, e, next, t)) == Abs(h)
  {
    hide Abs;
    SameMembers(h, Alloc(h, key, e, next, t));
  }

  lemma NewId(h: Heap)
    requires HeapInv(h)
    ensures h.nextId !in h.nodes
  {
    hide HeapInv;
    HeapHas(h);
  }

  lemma StoreMembers(h: Heap, n: NodeId, next: NodeId, t: Tid)
    requires Mine(h, n, t)
    ensures Abs(StoreNext(h, n, next)) == Abs(h)
  {
    hide Abs;
    SameMembers(h, StoreNext(h, n, next));
  }

  lemma PrepareMembers(s: State, t: Tid, th: Thread)
    requires HeapInv(s.heap) && (th.node == NULL || Mine(s.heap, th.node, t))
    ensures Abs(Prepare(s, t, th).heap) == Abs(s.heap)
  {
    hide Abs, HeapInv, Alloc, StoreNext;
    if th.node == NULL {
      NewId(s.heap);
      AllocMembers(s.heap, th.key, Payload(th.want), th.curr, t);
    } else {
      StoreMembers(s.heap, th.node, th.curr, t);
    }
  }

  lemma FindLoadRefinesSet(s: State, t: Tid, op: Op, e: Elem)
    requires Inv(s) && t in s.threads && Ready(s, t) && s.threads[t].pc.FindLoad?
    ensures Abs(Next(s, t, op, e).heap) == Abs(s.heap)
  {
    hide Inv, HeapInv, ThreadOk, Abs, RecTie, DeletedOk, ThreadsOk, BucketsOk, CapacityOk, E.OwnInv;
    hide Matches, AtOrPast, Prepare, DeleteNode;
    var th := s.threads[t];
    Unfold(s, t);
    MineOrNone(s.heap, th, t, s.maxCapacity);
    PrepareMembers(s, t, th.(currAt := s.heap.clock));
  }

  lemma MineOrNone(h: Heap, th: Thread, t: Tid, max: nat)
    requires ThreadOk(h, th, t, max) && th.pc.FindLoad?
    ensures th.node == NULL || Mine(h, th.node, t)
  {
  }

  lemma ListStepRefinesSet(s: State, t: Tid, op: Op, e: Elem)
    requires Inv(s) && t in s.threads && Ready(s, t) && InList(s.threads[t].pc)
    ensures var A, B, x := Abs(s.heap), Abs(Next(s, t, op, e).heap), s.threads[t].elem;
            if LinksElement(s, t) then s.threads[t].op.OpAdd? && x !in A && B == A + {x}
            else if MarksElement(s, t) then s.threads[t].op.OpRemove? && x in A && B == A - {x}
            else B == A
  {
    hide Inv, HeapInv, ThreadOk, Abs, RecTie, DeletedOk, ThreadsOk, BucketsOk, CapacityOk, E.OwnInv;
    hide ContainsAt, Publish, Unlink, MarkNode, FindLoadStep, E.InternalStep, E.Enabled;
    var th, h, m := s.threads[t], s.heap, s.maxCapacity;
    Unfold(s, t);
    if th.pc.LinkCas? && CanSwing(h, th.pred, th.curr) {
      PublishElement(h, th, t, m);
    } else if th.pc.RemoveMark? && CanSwing(h, th.curr, th.succ) {
      MarkElement(h, th, t, m);
    } else if th.pc.FindUnlink? && CanSwing(h, th.pred, th.curr) {
      UnlinkThread(h, th, t, m);
      UnlinkMembers(h, th.pred, th.curr, th.succ, t);
    } else if th.pc.RemoveUnlink? && CanSwing(h, th.pred, th.curr) {
      RemoveThread(h, th, t, m);
      UnlinkMembers(h, th.pred, th.curr, th.succ, t);
    } else if th.pc.FindLoad? {
      FindLoadRefinesSet(s, t, op, e);
    }
  }

  /**
    The refinement of a plain set: a step changes the abstract set only by the publishing CAS of an Add,
    which inserts exactly its element, or by the successful mark of a Remove, which deletes exactly its
    element. Everything else -- unlinking, sentinels, growing, reclaiming, other threads' help -- is
    invisible.
  */
  lemma StepRefinesSet(s: State, t: Tid, op: Op, e: Elem)
    requires Inv(s) && t in s.threads && Ready(s, t)
    ensures var A, B, x := Abs(s.heap), Abs(Next(s, t, op, e).heap), s.threads[t].elem;
            if LinksElement(s, t) then s.threads[t].op.OpAdd? && x !in A && B == A + {x}
            else if MarksElement(s, t) then s.threads[t].op.OpRemove? && x in A && B == A - {x}
            else B == A
  {
    hide Inv, Ready, Next, Abs;
    if !InList(s.threads[t].pc) {
      ElsewhereSameHeap(s, t, op, e);
    } else {
      ListStepRefinesSet(s, t, op, e);
    }
  }

  // ----- calls -----

  /** Step `i` of the run is a call by `t`, and `t` is still in that call in state `j`. */
  ghost predicate InCall(r: Run, t: Tid, i: nat, j: nat)
    requires IsRun(r)
  {
    && i < j < |r.states| && r.events[i].t == t && t in r.states[i].threads && r.states[i].threads[t].pc.Idle?
    && forall k :: i < k <= j ==> t in r.states[k].threads && !r.states[k].threads[t].pc.Idle?
  }

  /** What a thread was called with, and when its Guard opened, stay what they are during the call. */
  ghost predicate SameCall(a: Thread, b: Thread) {
    b.op == a.op && b.elem == a.elem && (Guarded(a.pc) ==> b.since == a.since)
  }

  ghost predicate Steps(s: State, s': State, t: Tid) {
    t in s.threads && t in s'.threads && s'.threads == s.threads[t := s'.threads[t]] &&
    SameCall(s.threads[t], s'.threads[t])
  }

  lemma FoundSteps(s: State, t: Tid, th: Thread)
    requires t in s.threads && th.curr in s.heap.nodes && SameCall(s.threads[t], th)
    ensures Steps(s, Found(s, t, th), t)
  {
    hide Matches, Alloc, StoreNext, DeleteNode, Payload;
  }

  lemma BucketSteps(h: Heap, a: Thread, th: Thread)
    requires th.head in h.nodes && SameCall(a, th)
    ensures SameCall(a, NextBucket(h, th))
  {
  }

  lemma StepStepsInList(s: State, t: Tid, op: Op, e: Elem)
    requires t in s.threads && Ready(s, t) && InList(s.threads[t].pc)
    ensures Steps(s, Next(s, t, op, e), t)
  {
    hide Found, AtOrPast, Matches, Publish, Unlink, MarkNode, E.UnlinkStep, E.InternalStep, E.Enabled;
    var th := s.threads[t];
    if th.pc.FindLoad? {
      FoundSteps(s, t, th.(currAt := s.heap.clock));
    }
  }

  lemma StepStepsElsewhere(s: State, t: Tid, op: Op, e: Elem)
    requires t in s.threads && Ready(s, t) && !s.threads[t].pc.Idle? && !InList(s.threads[t].pc)
    ensures Steps(s, Next(s, t, op, e), t)
  {
    hide NextBucket, E.InternalStep, E.Enabled, E.LeaveStep;
    var th := s.threads[t];
    if th.pc.LoadBucket? {
      if th.pc.i in s.buckets {
        BucketSteps(s.heap, th, th.(head := s.buckets[th.pc.i]));
      }
    } else if th.pc.BucketCas? {
      BucketSteps(s.heap, th, th.(head := th.pc.sentinel, stack := th.stack[..|th.stack| - 1]));
    }
  }

  lemma StepSteps(s: State, t: Tid, op: Op, e: Elem)
    requires t in s.threads && Ready(s, t) && !s.threads[t].pc.Idle?
    ensures Steps(s, Next(s, t, op, e), t)
  {
    hide Ready, Next, Steps;
    if InList(s.threads[t].pc) {
      StepStepsInList(s, t, op, e);
    } else {
      StepStepsElsewhere(s, t, op, e);
    }
  }

  /** A step of one thread leaves every other thread where it is. */
  lemma OthersKeepThread(s: State, e: Event, s': State, t: Tid)
    requires IsStep(s, e, s') && e.t != t
    ensures t in s'.threads <==> t in s.threads
    ensures t in s.threads ==> s'.threads[t] == s.threads[t]
  {
    hide Next, Ready;
    if s.threads[e.t].pc.Idle? {
      CallKeepsOthers(s, e, t);
    } else {
      StepSteps(s, e.t, e.op, e.elem);
    }
  }

  lemma CallKeepsOthers(s: State, e: Event, t: Tid)
    requires e.t in s.threads && Ready(s, e.t) && s.threads[e.t].pc.Idle? && e.t != t
    ensures t in Next(s, e.t, e.op, e.elem).threads <==> t in s.threads
    ensures t in s.threads ==> Next(s, e.t, e.op, e.elem).threads[t] == s.threads[t]
  {
  }
}
