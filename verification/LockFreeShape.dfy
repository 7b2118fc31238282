/** The shape of the list and of the bucket table in every reachable state of the lock-free set. */
module LockFreeShape {
  import opened Common
  import opened Bits
  import opened SplitOrder
  import opened ListHeap
  import opened Traversal
  import opened LockFreeSet
  import opened LockFreeInv
  import opened LockFreeSteps
  import opened LockFreeTheorems
  import opened LockFreeSafety

  // ----- the chain from the root -----

  /** The linked nodes further on than `n`. */
  ghost function Further(h: Heap, n: NodeId): set<NodeId> { set x | x in h.nodes && Lk(h, x) && Lt(h, n, x) }

  lemma FurtherShrinks(h: Heap, n: NodeId)
    requires Links(h) && Lk(h, n) && n != TAIL
    ensures Lk(h, Nx(h, n)) && |Further(h, Nx(h, n))| < |Further(h, n)|
  {
    var m := Nx(h, n);
    var A, B := Further(h, m), Further(h, n);
    assert Lk(h, m) && Lt(h, n, m);
    assert m in B && m !in A;
    assert forall x :: x in A ==> x in B;
    assert A + {m} <= B;
    Larger(A + {m}, B);
  }

  lemma {:induction false} Larger(A: set<NodeId>, B: set<NodeId>)
    requires A <= B
    ensures |A| <= |B|
  {
    if x :| x in A {
      Larger(A - {x}, B - {x});
    }
  }

  /** The nodes met by following `next` from `n` to the tail. */
  ghost function Chain(h: Heap, n: NodeId): seq<NodeId>
    requires Ends(h) && Links(h) && Lk(h, n)
    decreases |Further(h, n)|
  {
    if n == TAIL then [n]
    else
      FurtherShrinks(h, n);
      [n] + Chain(h, Nx(h, n))
  }

  lemma {:induction false} ChainIsLinked(h: Heap, n: NodeId, x: NodeId)
    requires Ends(h) && Links(h) && Sorted(h) && Kinds(h) && Lk(h, n)
    ensures x in Chain(h, n) <==> Lk(h, x) && Le(h, n, x)
    decreases |Further(h, n)|
  {
    hide Further, OrdinaryKey;
    if n == TAIL {
      if Lk(h, x) && Lt(h, TAIL, x) {
        assert KeyOk(x, h.nodes[x]);
        KeysBelowTail(h, x);
      }
    } else {
      var m := Nx(h, n);
      FurtherShrinks(h, n);
      ChainIsLinked(h, m, x);
      assert Lt(h, n, m);
      if Lk(h, x) && Lt(h, n, x) {
        assert Le(h, m, x);
      }
    }
  }

  /** Nothing lies beyond the tail. */
  lemma KeysBelowTail(h: Heap, x: NodeId)
    requires Ends(h) && x in h.nodes && KeyOk(x, h.nodes[x]) && x != TAIL
    ensures h.nodes[x].key < TAIL_KEY
  {
    hide OrdinaryKey;
  }

  lemma {:induction false} ChainAscends(h: Heap, n: NodeId, i: nat)
    requires Ends(h) && Links(h) && Lk(h, n) && i + 1 < |Chain(h, n)|
    ensures var c := Chain(h, n); c[i + 1] == Nx(h, c[i]) && Lt(h, c[i], c[i + 1])
    decreases |Further(h, n)|
  {
    hide Further;
    if n != TAIL {
      FurtherShrinks(h, n);
      var rest := Chain(h, Nx(h, n));
      assert Chain(h, n) == [n] + rest;
      if i == 0 {
        assert rest[0] == Nx(h, n);
      } else {
        ChainAscends(h, Nx(h, n), i - 1);
      }
    }
  }

  lemma {:induction false} ChainEnds(h: Heap, n: NodeId)
    requires Ends(h) && Links(h) && Lk(h, n)
    ensures var c := Chain(h, n); |c| > 0 && c[0] == n && c[|c| - 1] == TAIL
    decreases |Further(h, n)|
  {
    hide Further;
    if n != TAIL {
      FurtherShrinks(h, n);
      ChainEnds(h, Nx(h, n));
    }
  }

  /**
    The shape of the list: following `next` from the root passes exactly the linked nodes, in strictly
    ascending order of key and insertion, and ends at the tail; and a published node that is not marked
    is one of them.
  */
  lemma ListShape(r: Run, i: nat, n: NodeId)
    requires IsRun(r) && i < |r.states|
    ensures var h := r.states[i].heap;
            && HeapInv(h) && Lk(h, ROOT)
            && var c := Chain(h, ROOT);
               && (n in c <==> Lk(h, n)) && (Pub(h, n) && !h.nodes[n].mark ==> n in c)
               && |c| > 0 && c[0] == ROOT && c[|c| - 1] == TAIL
               && forall k {:trigger c[k]} :: 0 <= k < |c| - 1 ==> c[k + 1] == Nx(h, c[k]) && Lt(h, c[k], c[k + 1])
  {
    hide Inv, HeapInv;
    var h := r.states[i].heap;
    Always(r, i);
    assert HeapInv(h) by { HeapOfInv(r.states[i]); }
    HeapHas(h);
    var c := Chain(h, ROOT);
    ChainEnds(h, ROOT);
    ChainIsLinked(h, ROOT, n);
    if Lk(h, n) && n != ROOT {
      RootFirst(h, n);
    }
    forall k | 0 <= k < |c| - 1
      ensures c[k + 1] == Nx(h, c[k]) && Lt(h, c[k], c[k + 1])
    {
      ChainAscends(h, ROOT, k);
    }
  }

  lemma HeapOfInv(s: State)
    requires Inv(s)
    ensures HeapInv(s.heap)
  {
  }

  lemma RootFirst(h: Heap, n: NodeId)
    requires Ends(h) && Births(h) && Lk(h, n) && n != ROOT
    ensures Lt(h, ROOT, n)
  {
    assert !SameBirth(h, ROOT, n);
  }

  // ----- what stays -----

  lemma RunStep(r: Run, j: nat)
    requires IsRun(r) && 0 < j < |r.states|
    ensures Evolves(r.states[j - 1].heap, r.states[j].heap, r.events[j - 1].t) && Inv(r.states[j - 1])
    ensures Inv(r.states[j])
  {
    hide Next, Ready, Evolves, Inv;
    var e := r.events[j - 1];
    assert IsStep(r.states[j - 1], e, r.states[j]);
    Always(r, j - 1);
    Always(r, j);
    StepEvolves(r.states[j - 1], e.t, e.op, e.elem);
  }

  /** Once marked, a node's word never changes; once unlinked, it is never linked again. */
  lemma {:induction false} MarkedStays(r: Run, i: nat, j: nat, n: NodeId)
    requires IsRun(r) && i <= j < |r.states| && n in r.states[i].heap.nodes && r.states[i].heap.nodes[n].mark
    ensures n in r.states[j].heap.nodes
    ensures var a, b := r.states[i].heap.nodes[n], r.states[j].heap.nodes[n];
            b.mark && b.next == a.next && b.key == a.key && b.elem == a.elem &&
              (a.status.Unlinked? ==> b.status.Unlinked?)
  {
    hide IsRun, Inv, HeapInv;
    if i < j {
      MarkedStays(r, i, j - 1, n);
      RunStep(r, j);
      MarkedIsPublished(r.states[j - 1], n);
    }
  }

  lemma MarkedIsPublished(s: State, n: NodeId)
    requires Inv(s) && n in s.heap.nodes && s.heap.nodes[n].mark
    ensures Pub(s.heap, n)
  {
    hide Inv, HeapInv;
    HeapOfInv(s);
    HeapHas(s.heap);
  }

  // ----- buckets -----

  /**
    Every bucket that is set is the sentinel for its own index, linked and not marked, and no other
    linked node has that sentinel's key.
  */
  lemma BucketsAreSentinels(r: Run, i: nat, b: nat, n: NodeId)
    requires IsRun(r) && i < |r.states| && b in r.states[i].buckets
    ensures var s := r.states[i]; var d := s.buckets[b];
            && b < s.maxCapacity && Lk(s.heap, d) && s.heap.nodes[d].key == SentinelKey(b) && !s.heap.nodes[d].mark
            && (Lk(s.heap, n) && s.heap.nodes[n].key == SentinelKey(b) ==> n == d)
  {
    hide Inv, HeapInv, SentinelKey, OrdinaryKey;
    var s := r.states[i];
    Always(r, i);
    BucketOfInv(s, b);
    HeapOfInv(s);
    HeapHas(s.heap);
    var d := s.buckets[b];
    assert KeyOk(d, s.heap.nodes[d]);
    if Lk(s.heap, n) && s.heap.nodes[n].key == SentinelKey(b) {
      assert KeyOk(n, s.heap.nodes[n]);
      assert Same(s.heap, n, d);
    }
  }

  lemma BucketOfInv(s: State, b: nat)
    requires Inv(s) && b in s.buckets
    ensures b < s.maxCapacity && SentinelAt(s.heap, s.buckets[b], SentinelKey(b))
  {
    hide HeapInv, SentinelKey;
  }

  lemma StepBuckets(s: State, t: Tid, op: Op, e: Elem, b: nat)
    requires t in s.threads && Ready(s, t) && b in s.buckets
    ensures b in Next(s, t, op, e).buckets && Next(s, t, op, e).buckets[b] == s.buckets[b]
  {
    hide NextBucket, ContainsAt, AtOrPast, Matches, Publish, Unlink, MarkNode, Alloc, StoreNext;
  }

  /** A bucket is set once and for all, however many threads race to set it. */
  lemma {:induction false} BucketsStay(r: Run, i: nat, j: nat, b: nat)
    requires IsRun(r) && i <= j < |r.states| && b in r.states[i].buckets
    ensures b in r.states[j].buckets && r.states[j].buckets[b] == r.states[i].buckets[b]
  {
    hide Next, Ready;
    if i < j {
      BucketsStay(r, i, j - 1, b);
      var e := r.events[j - 1];
      assert IsStep(r.states[j - 1], e, r.states[j]);
      StepBuckets(r.states[j - 1], e.t, e.op, e.elem, b);
    }
  }

  /** The buckets a thread still has to set up grow strictly smaller, each the parent of the one before. */
  lemma {:induction false} StackDescends(r: Run, i: nat, t: Tid, j: nat)
    requires IsRun(r) && i < |r.states| && t in r.states[i].threads
    requires r.states[i].threads[t].pc.LoadBucket? || InList(r.states[i].threads[t].pc) ||
             r.states[i].threads[t].pc.BucketCas?
    requires j < |r.states[i].threads[t].stack|
    ensures var stack := r.states[i].threads[t].stack;
            && 0 < stack[j] < r.states[i].maxCapacity && ParentIndex(stack[j]) < stack[j]
            && SentinelKey(ParentIndex(stack[j])) < SentinelKey(stack[j])
            && (j + 1 < |stack| ==> stack[j + 1] == ParentIndex(stack[j]))
  {
    hide Inv, ThreadOk, SentinelKey, ParentIndex;
    Always(r, i);
    var s := r.states[i];
    Unfold(s, t);
    assert StackOk(s.threads[t], s.maxCapacity) by { StackHere(s.heap, s.threads[t], t, s.maxCapacity); }
    MaxOfInv(s);
    ParentComesFirst(s.threads[t].stack[j]);
  }

  lemma StackHere(h: Heap, th: Thread, t: Tid, max: nat)
    requires ThreadOk(h, th, t, max) && (th.pc.LoadBucket? || InList(th.pc) || th.pc.BucketCas?)
    ensures StackOk(th, max)
  {
    hide StackOk, SentinelKey, OrdinaryKey;
  }

  lemma MaxOfInv(s: State)
    requires Inv(s)
    ensures s.maxCapacity <= Pow2(CODE_BITS)
  {
    hide HeapInv, PowerOfTwo;
  }
}
