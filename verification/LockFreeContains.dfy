/**
  How far a Contains can be made to walk (src/BucketList.h:128-136). It sets out at the sentinel of its
  element's bucket and never waits, but every node that is linked in ahead of it can cost it one more hop.
  The number of its hops is bounded by the nodes of its own bucket that were in its way when it set out, and
  those that others link in there meanwhile, and no better bound holds.
*/
module LockFreeContains {
  import opened Common
  import opened Bits
  import opened SplitOrder
  import opened ListHeap
  import opened Traversal
  import opened LockFreeSet
  import opened LockFreeInv
  import opened LockFreeSteps
  import opened LockFreeTheorems
  import opened LockFreeSafety
  import opened LockFreeLinear
  import opened Linearizability
  import opened LockFreeProgress
  import opened LockFreeBuckets
  import LockFreeShape
  import E = Epochs

  // ----- what is counted -----

  /** The next step of `t` is a hop: the load of `curr->next` in Contains. */
  ghost predicate Hopping(s: State, t: Tid) { t in s.threads && s.threads[t].pc.ContainsLoad? }

  /** The hops of `t` from state `w` to state `j`. */
  ghost function HopCount(r: Run, t: Tid, w: nat, j: nat): nat
    requires IsRun(r) && w <= j < |r.states|
  {
    if w == j then 0 else HopCount(r, t, w, j - 1) + One(r.events[j - 1].t == t && Hopping(r.states[j - 1], t))
  }

  /** The next step of `u` links in a node with a key from `low` to `key`. */
  ghost predicate Inserts(s: State, u: Tid, low: nat, key: nat) {
    u in s.threads &&
    var th := s.threads[u];
    th.pc.LinkCas? && CanSwing(s.heap, th.pred, th.curr) && th.node in s.heap.nodes &&
    low <= s.heap.nodes[th.node].key <= key
  }

  /** The nodes with such keys that others than `t` link in from state `w` to state `j`. */
  ghost function InsertsOfOthers(r: Run, t: Tid, low: nat, key: nat, w: nat, j: nat): nat
    requires IsRun(r) && w <= j < |r.states|
  {
    if w == j then 0
    else
      InsertsOfOthers(r, t, low, key, w, j - 1) +
      One(r.events[j - 1].t != t && Inserts(r.states[j - 1], r.events[j - 1].t, low, key))
  }

  /** The nodes with keys from `low` to `key` that have been linked at some moment since time `from`. */
  ghost function HeldBetween(h: Heap, from: nat, low: nat, key: nat): set<NodeId> {
    set n | n in h.nodes && Held(h, n, from) && low <= h.nodes[n].key <= key
  }

  /** The linked nodes with keys from `low` to `key`. */
  ghost function LinkedBetween(h: Heap, low: nat, key: nat): set<NodeId> {
    set n | n in h.nodes && Lk(h, n) && low <= h.nodes[n].key <= key
  }

  /** Those of them that lie before node `c`. */
  ghost function Behind(h: Heap, from: nat, low: nat, key: nat, c: NodeId): set<NodeId> {
    set n | n in HeldBetween(h, from, low, key) && Lt(h, n, c)
  }

  /** In state `w` thread `t` is about to make the first hop of a Contains, and it is in that call until state `j`. */
  ghost predicate WalkFrom(r: Run, t: Tid, w: nat, j: nat)
    requires IsRun(r)
  {
    && w <= j < |r.states| && Hopping(r.states[w], t) && r.states[w].threads[t].curr == r.states[w].threads[t].head
    && forall k :: w <= k <= j ==> t in r.states[k].threads && !r.states[k].threads[t].pc.Idle?
  }

  /** The key of the node at which the thread entered the list. */
  ghost function HeadKey(r: Run, t: Tid, w: nat): nat
    requires IsRun(r) && w < |r.states| && t in r.states[w].threads
  {
    var h, n := r.states[w].heap, r.states[w].threads[t].head;
    if n in h.nodes then h.nodes[n].key else 0
  }

  /** The linked nodes, in state `w`, from where the thread entered the list to the key it is looking for. */
  ghost function InItsWay(r: Run, t: Tid, w: nat): set<NodeId>
    requires IsRun(r) && w < |r.states| && t in r.states[w].threads
  {
    LinkedBetween(r.states[w].heap, HeadKey(r, t, w), r.states[w].threads[t].key)
  }

  /** How many nodes others link in there from state `w` to state `j`. */
  ghost function JoiningIn(r: Run, t: Tid, w: nat, j: nat): nat
    requires IsRun(r) && w <= j < |r.states| && t in r.states[w].threads
  {
    InsertsOfOthers(r, t, HeadKey(r, t, w), r.states[w].threads[t].key, w, j)
  }

  // ----- walking -----

  /** On the walk, or done with it. */
  predicate OnWalk(pc: PC) { pc.ContainsLoad? || pc.ContainsMark? || pc.Leaving? }

  lemma WalkStep(s: State, t: Tid, op: Op, e: Elem)
    requires t in s.threads && Ready(s, t) && OnWalk(s.threads[t].pc) && !s.threads[t].pc.Leaving?
    ensures var s', th := Next(s, t, op, e), s.threads[t];
            && t in s'.threads && s'.heap == s.heap && OnWalk(s'.threads[t].pc)
            && s'.threads[t].key == th.key && s'.threads[t].since == th.since && s'.threads[t].head == th.head
            && s'.threads[t].curr == (if th.pc.ContainsLoad? then Nx(s.heap, th.curr) else th.curr)
  {
  }

  /** While `t` walks, others step, or `t` hops, or `t` looks at the mark. */
  lemma WalkOn(r: Run, t: Tid, w: nat, j: nat)
    requires IsRun(r) && WalkFrom(r, t, w, j) && w < j && OnWalk(At(r, j - 1, t).pc)
    ensures WalkFrom(r, t, w, j - 1) && OnWalk(At(r, j, t).pc)
    ensures var h, th, th' := r.states[j - 1].heap, At(r, j - 1, t), At(r, j, t);
            && th'.key == th.key && th'.since == th.since && th'.head == th.head
            && (if r.events[j - 1].t != t then th' == th
                else r.states[j].heap == h && th'.curr == (if th.pc.ContainsLoad? then Nx(h, th.curr) else th.curr))
  {
    hide Next, Ready;
    var e := r.events[j - 1];
    assert IsStep(r.states[j - 1], e, r.states[j]);
    InCallStep(r.states[j - 1], e, r.states[j], t);
    if e.t == t {
      LeavingEnds(r.states[j - 1], t, e.op, e.elem);
      WalkStep(r.states[j - 1], t, e.op, e.elem);
    }
  }

  /** What is known on the walk: `curr` was linked since `from`, and lies ahead of all nodes passed. */
  lemma {:induction false} WalkKnows(r: Run, t: Tid, w: nat, j: nat, from: nat)
    requires IsRun(r) && WalkFrom(r, t, w, j) && Lk(r.states[w].heap, At(r, w, t).head)
    requires from <= r.states[w].heap.clock && Held(r.states[w].heap, At(r, w, t).curr, from)
    ensures OnWalk(At(r, j, t).pc) && Held(r.states[j].heap, At(r, j, t).curr, from)
    ensures At(r, j, t).key == At(r, w, t).key
    ensures At(r, j, t).since == At(r, w, t).since
    ensures KeyFrom(r.states[j].heap, At(r, j, t).curr, HeadKey(r, t, w))
    ensures HopCount(r, t, w, j) <=
            |Behind(r.states[j].heap, from, HeadKey(r, t, w), At(r, w, t).key, At(r, j, t).curr)|
  {
    hide Next, Ready, HeapInv, Evolves, Behind, Held, KeyFrom;
    HeadKeyFrom(r, t, w);
    if w < j {
      assert WalkFrom(r, t, w, j - 1);
      WalkKnows(r, t, w, j - 1, from);
      WalkOn(r, t, w, j);
      RunEvolves(r, j);
      ClockGrows(r, w, j - 1);
      var h, k, c := r.states[j - 1].heap, r.states[j].heap, At(r, j - 1, t).curr;
      var low, key := HeadKey(r, t, w), At(r, w, t).key;
      if r.events[j - 1].t == t && Hopping(r.states[j - 1], t) {
        HopBelow(r, t, j - 1);
        OneMorePassed(h, c, from, low, key);
      } else {
        PassedStays(h, k, r.events[j - 1].t, c, from, low, key);
        KeyFromStays(h, k, r.events[j - 1].t, c, from, low);
      }
    }
  }

  ghost predicate KeyFrom(h: Heap, n: NodeId, low: nat) { n in h.nodes && low <= h.nodes[n].key }

  lemma HeadKeyFrom(r: Run, t: Tid, w: nat)
    requires IsRun(r) && w < |r.states| && t in r.states[w].threads && Lk(r.states[w].heap, At(r, w, t).head)
    ensures KeyFrom(r.states[w].heap, At(r, w, t).head, HeadKey(r, t, w))
  {
  }

  lemma KeyFromStays(h: Heap, k: Heap, u: Tid, c: NodeId, from: nat, low: nat)
    requires Evolves(h, k, u) && Held(h, c, from) && KeyFrom(h, c, low)
    ensures KeyFrom(k, c, low)
  {
    assert NodeEvolves(h.nodes[c], k.nodes[c], h.clock, u);
  }

  lemma {:induction false} ClockGrows(r: Run, w: nat, j: nat)
    requires IsRun(r) && w <= j < |r.states|
    ensures r.states[w].heap.clock <= r.states[j].heap.clock
  {
    hide Next, Ready, HeapInv;
    if w < j {
      ClockGrows(r, w, j - 1);
      RunEvolves(r, j);
    }
  }

  /** A thread hops only from nodes at or before its key. */
  lemma HopBelow(r: Run, t: Tid, j: nat)
    requires IsRun(r) && j < |r.states| && Hopping(r.states[j], t)
    ensures At(r, j, t).curr in r.states[j].heap.nodes && At(r, j, t).curr != TAIL
    ensures r.states[j].heap.nodes[At(r, j, t).curr].key <= At(r, j, t).key
  {
    hide IsRun, Inv, HeapInv, E.OwnInv, BucketsOk, CapacityOk, RecTie, DeletedOk, ThreadsOk, OrdinaryKey, SentinelKey;
    Always(r, j);
    var s := r.states[j];
    Unfold(s, t);
    HeapHas(s.heap);
    BelowTail(s.heap, At(r, j, t).curr, At(r, j, t));
  }

  lemma HopsAhead(h: Heap, c: NodeId, from: nat)
    requires HeapInv(h) && Held(h, c, from) && c != TAIL
    ensures c in h.nodes && Held(h, Nx(h, c), from) && Lt(h, c, Nx(h, c))
    ensures Nx(h, c) in h.nodes && h.nodes[c].key <= h.nodes[Nx(h, c)].key
  {
    hide HeapInv;
    HeapHas(h);
    HeldNext(h, c, from);
  }

  lemma OneMorePassed(h: Heap, c: NodeId, from: nat, low: nat, key: nat)
    requires HeapInv(h) && Held(h, c, from) && c != TAIL && KeyFrom(h, c, low) && h.nodes[c].key <= key
    ensures KeyFrom(h, Nx(h, c), low)
    ensures Held(h, Nx(h, c), from) && |Behind(h, from, low, key, Nx(h, c))| >= |Behind(h, from, low, key, c)| + 1
  {
    hide HeapInv, Held;
    HopsAhead(h, c, from);
    var a, b := Behind(h, from, low, key, c), Behind(h, from, low, key, Nx(h, c));
    assert c in HeldBetween(h, from, low, key) && c in b && c !in a;
    assert a + {c} <= b;
    LockFreeShape.Larger(a + {c}, b);
  }

  lemma PassedStays(h: Heap, k: Heap, u: Tid, c: NodeId, from: nat, low: nat, key: nat)
    requires Evolves(h, k, u) && from <= h.clock && Held(h, c, from)
    ensures Held(k, c, from) && |Behind(h, from, low, key, c)| <= |Behind(k, from, low, key, c)|
  {
    HeldStable(h, k, u, c, from);
    var a, b := Behind(h, from, low, key, c), Behind(k, from, low, key, c);
    forall n | n in a
      ensures n in b
    {
      HeldStable(h, k, u, n, from);
    }
    LockFreeShape.Larger(a, b);
  }

  // ----- what is linked in meanwhile -----

  /** Only the CAS that links a node in makes it linked. */
  lemma OnlyLinked(s: State, u: Tid, op: Op, e: Elem, n: NodeId)
    requires Inv(s) && u in s.threads && Ready(s, u) && Lk(Next(s, u, op, e).heap, n) && !Lk(s.heap, n)
    ensures var th := s.threads[u];
            th.pc.LinkCas? && CanSwing(s.heap, th.pred, th.curr) && n == th.node && n in s.heap.nodes
  {
    hide Inv, HeapInv, E.OwnInv, BucketsOk, CapacityOk, RecTie, DeletedOk, ThreadsOk, StackOk, TargetOk, OrdinaryKey,
      SentinelKey,
      E.UnlinkStep, E.InternalStep;
    Unfold(s, u);
    if !AboutToCas(s.threads[u].pc) && !s.threads[u].pc.FindLoad? {
      HeapKept(s, u, op, e);
    }
  }

  /** With every step at most the one node linked in by somebody else joins those that were linked since `from`. */
  lemma StepHolds(s: State, u: Tid, op: Op, e: Elem, from: nat, low: nat, key: nat)
    requires Inv(s) && u in s.threads && Ready(s, u)
    ensures |HeldBetween(Next(s, u, op, e).heap, from, low, key)| <= |HeldBetween(s.heap, from, low, key)| +
            One(Inserts(s, u, low, key))
  {
    hide Inv, Next, Ready;
    var h, k, m := s.heap, Next(s, u, op, e).heap, s.threads[u].node;
    StepEvolves(s, u, op, e);
    var a, b := HeldBetween(h, from, low, key), HeldBetween(k, from, low, key);
    forall n | n in b && n !in a
      ensures n == m && Inserts(s, u, low, key)
    {
      NewlyHeld(h, k, u, n, from);
      OnlyLinked(s, u, op, e, n);
    }
    if Inserts(s, u, low, key) {
      LockFreeShape.Larger(b, a + {m});
    } else {
      LockFreeShape.Larger(b, a);
    }
  }

  lemma NewlyHeld(h: Heap, k: Heap, u: Tid, n: NodeId, from: nat)
    requires Evolves(h, k, u) && n in k.nodes && Held(k, n, from) && !(n in h.nodes && Held(h, n, from))
    ensures Lk(k, n) && !Lk(h, n) && (n in h.nodes ==> k.nodes[n].key == h.nodes[n].key)
  {
    if n in h.nodes {
      assert NodeEvolves(h.nodes[n], k.nodes[n], h.clock, u);
    }
  }

  lemma HeldNowIsLinked(h: Heap, low: nat, key: nat)
    requires Marks(h)
    ensures HeldBetween(h, h.clock, low, key) == LinkedBetween(h, low, key)
  {
  }

  lemma {:induction false} HeldGrows(r: Run, t: Tid, w: nat, j: nat, low: nat, key: nat)
    requires IsRun(r) && WalkFrom(r, t, w, j)
    ensures OnWalk(At(r, j, t).pc)
    ensures var from := r.states[w].heap.clock;
            |HeldBetween(r.states[j].heap, from, low, key)| <= |HeldBetween(r.states[w].heap, from, low, key)| +
              InsertsOfOthers(r, t, low, key, w, j)
  {
    hide Next, Ready, Inv, HeldBetween, Inserts;
    if w < j {
      assert WalkFrom(r, t, w, j - 1);
      HeldGrows(r, t, w, j - 1, low, key);
      var e := r.events[j - 1];
      assert IsStep(r.states[j - 1], e, r.states[j]);
      Always(r, j - 1);
      StepHolds(r.states[j - 1], e.t, e.op, e.elem, r.states[w].heap.clock, low, key);
      WalkerInsertsNothing(r.states[j - 1], t, low, key);
      WalkOn(r, t, w, j);
    }
  }

  lemma WalkerInsertsNothing(s: State, t: Tid, low: nat, key: nat)
    requires t in s.threads && OnWalk(s.threads[t].pc)
    ensures !Inserts(s, t, low, key)
  {
  }

  lemma HeadIsLinked(r: Run, t: Tid, w: nat)
    requires IsRun(r) && w < |r.states| && Hopping(r.states[w], t)
    ensures Lk(r.states[w].heap, At(r, w, t).head) && Held(r.states[w].heap, At(r, w, t).curr, At(r, w, t).since)
    ensures At(r, w, t).since <= r.states[w].heap.clock && At(r, w, t).key == OrdinaryKey(At(r, w, t).elem.code)
  {
    hide IsRun, Inv, HeapInv, E.OwnInv, BucketsOk, CapacityOk, RecTie, DeletedOk, ThreadsOk, OrdinaryKey, SentinelKey,
      StackOk;
    Always(r, w);
    Unfold(r.states[w], t);
  }

  /**
    The hops of a Contains from its first on are at most the nodes, from the sentinel of its bucket up to its
    key, that have been linked at some moment since its Guard opened; and at most those that were linked
    there when it started to walk, and those that others have linked in there since.
  */
  lemma WalkBound(r: Run, t: Tid, w: nat, j: nat)
    requires IsRun(r) && WalkFrom(r, t, w, j)
    ensures var th := At(r, w, t);
            && HopCount(r, t, w, j) <= |HeldBetween(r.states[j].heap, th.since, HeadKey(r, t, w), th.key)|
            && HopCount(r, t, w, j) <= |InItsWay(r, t, w)| + JoiningIn(r, t, w, j)
  {
    hide IsRun, HeldBetween, LinkedBetween, Inv, HeapInv, InsertsOfOthers, HopCount, HeadKey;
    var th, h, k, low := At(r, w, t), r.states[w].heap, r.states[j].heap, HeadKey(r, t, w);
    HeadIsLinked(r, t, w);
    assert th.curr == th.head && Lk(h, th.curr);
    WalkKnows(r, t, w, j, th.since);
    LockFreeShape.Larger(Behind(k, th.since, low, th.key, At(r, j, t).curr), HeldBetween(k, th.since, low, th.key));
    WalkKnows(r, t, w, j, h.clock);
    LockFreeShape.Larger(Behind(k, h.clock, low, th.key, At(r, j, t).curr), HeldBetween(k, h.clock, low, th.key));
    HeldGrows(r, t, w, j, low, th.key);
    assert Marks(h) by { Always(r, w); LockFreeShape.HeapOfInv(r.states[w]); HeapHas(h); }
    HeldNowIsLinked(h, low, th.key);
  }

  // ----- whole calls -----

  lemma {:induction false} HopsAdd(r: Run, t: Tid, i: nat, w: nat, j: nat)
    requires IsRun(r) && i <= w <= j < |r.states|
    ensures HopCount(r, t, i, j) == HopCount(r, t, i, w) + HopCount(r, t, w, j)
  {
    hide IsRun, Hopping;
    if w < j {
      HopsAdd(r, t, i, w, j - 1);
    }
  }

  lemma BucketHops(h: Heap, th: Thread)
    requires th.head in h.nodes
    ensures NextBucket(h, th).pc.ContainsLoad? ==> NextBucket(h, th).curr == NextBucket(h, th).head
  {
  }

  lemma FoundHopsNot(s: State, t: Tid, th: Thread)
    requires t in s.threads && s.threads[t].pc.FindLoad? && th.curr in s.heap.nodes
    ensures !Hopping(Found(s, t, th), t)
  {
    hide Matches, Alloc, StoreNext, DeleteNode, Payload;
  }

  /** No other step of the list code begins to hop. */
  lemma HopsNotInList(s: State, t: Tid, op: Op, e: Elem)
    requires t in s.threads && Ready(s, t) && InList(s.threads[t].pc) && !s.threads[t].pc.ContainsLoad?
    ensures !Hopping(Next(s, t, op, e), t)
  {
    hide Found, AtOrPast, Matches, E.InternalStep, E.Enabled, E.UnlinkStep, Publish, Unlink, MarkNode;
    var th := s.threads[t];
    if th.pc.FindLoad? {
      FoundHopsNot(s, t, th.(currAt := s.heap.clock));
    }
  }

  lemma HopBeginsAtHead(s: State, t: Tid, op: Op, e: Elem)
    requires t in s.threads && Ready(s, t) && !InList(s.threads[t].pc) && Hopping(Next(s, t, op, e), t)
    ensures Next(s, t, op, e).threads[t].curr == Next(s, t, op, e).threads[t].head
  {
    hide NextBucket, E.InternalStep, E.Enabled, E.BeginStep, E.LeaveStep;
    var th := s.threads[t];
    if th.pc.LoadBucket? {
      if th.pc.i in s.buckets {
        BucketHops(s.heap, th.(head := s.buckets[th.pc.i]));
      }
    } else if th.pc.BucketCas? {
      BucketHops(s.heap, th.(head := th.pc.sentinel, stack := th.stack[..|th.stack| - 1]));
    }
  }

  /** A thread that has just begun to hop is at the head of its bucket. */
  lemma HopBegins(s: State, t: Tid, op: Op, e: Elem)
    requires t in s.threads && Ready(s, t) && !s.threads[t].pc.ContainsLoad?
    requires Hopping(Next(s, t, op, e), t)
    ensures Next(s, t, op, e).threads[t].curr == Next(s, t, op, e).threads[t].head
  {
    hide Next, Ready;
    if InList(s.threads[t].pc) {
      HopsNotInList(s, t, op, e);
    } else {
      HopBeginsAtHead(s, t, op, e);
    }
  }

  /** The state at which a Contains begins to walk. */
  lemma {:induction false} WalkStart(r: Run, t: Tid, i: nat, j: nat) returns (w: nat)
    requires IsRun(r) && InCall(r, t, i, j) && (HopCount(r, t, i, j) > 0 || Hopping(r.states[j], t))
    ensures i < w <= j && WalkFrom(r, t, w, j) && HopCount(r, t, i, w) == 0
  {
    hide Next, Ready;
    var e := r.events[j - 1];
    assert IsStep(r.states[j - 1], e, r.states[j]);
    if j - 1 == i {
      CallStepShape(r.states[i], t, e.op, e.elem);
    } else {
      assert InCall(r, t, i, j - 1);
      if HopCount(r, t, i, j - 1) > 0 || Hopping(r.states[j - 1], t) {
        w := WalkStart(r, t, i, j - 1);
      } else {
        w := j;
        InCallStep(r.states[j - 1], e, r.states[j], t);
        HopBegins(r.states[j - 1], t, e.op, e.elem);
      }
    }
  }

  // ----- whose nodes these are -----

  /** A walk sets out at the sentinel of its element's bucket, for a capacity that was read during the call. */
  lemma WalksItsBucket(r: Run, t: Tid, i: nat, w: nat) returns (v: nat, k: nat)
    requires IsRun(r) && InCall(r, t, i, w) && Hopping(r.states[w], t)
    ensures i < v < w && k <= CODE_BITS && r.states[v].capacity == Pow2(k)
    ensures HeadKey(r, t, w) == SentinelKey(r.events[i].elem.code % Pow2(k))
    ensures At(r, w, t).key == OrdinaryKey(r.events[i].elem.code)
  {
    hide IsRun, SentinelKey, OrdinaryKey;
    Walks(r, t, w);
    HeadIsLinked(r, t, w);
    RunLength(r);
    CallArguments(r, t, i, w);
    v, k := OnlyItsBucket(r, t, i, w);
  }

  lemma Walks(r: Run, t: Tid, w: nat)
    requires IsRun(r) && w < |r.states| && Hopping(r.states[w], t)
    ensures At(r, w, t).stack == [] && InList(At(r, w, t).pc)
  {
    hide IsRun, Inv, HeapInv, E.OwnInv, BucketsOk, CapacityOk, RecTie, DeletedOk, ThreadsOk, OrdinaryKey, SentinelKey,
      StackOk;
    Always(r, w);
    Unfold(r.states[w], t);
  }

  /**
    The bound, for a whole call: it walks once, and its hops are those of that walk. They are at most the
    nodes of the element's bucket, up to its key, that were linked at a state inside the call, and those that
    others link in there during the call. The bucket is that of a capacity inside the call.
  */
  lemma ContainsBound(r: Run, t: Tid, i: nat, j: nat) returns (w: nat, v: nat, k: nat)
    requires IsRun(r) && InCall(r, t, i, j)
    ensures i < v <= w <= j && k <= CODE_BITS && r.states[v].capacity == Pow2(k)
    ensures var code := r.events[i].elem.code;
            var low, key := SentinelKey(code % Pow2(k)), OrdinaryKey(code);
            && HopCount(r, t, i, j) <= |LinkedBetween(r.states[w].heap, low, key)| +
               InsertsOfOthers(r, t, low, key, w, j)
            && forall x :: low <= x <= key ==> InBucket(x, code % Pow2(k), k)
  {
    hide IsRun, LinkedBetween, InsertsOfOthers, HopCount, OrdinaryKey, SentinelKey, HeadKey, InBucket, Pow2;
    RunLength(r);
    if HopCount(r, t, i, j) == 0 {
      w, v := j, j;
      k := CapacityPower(r, j);
    } else {
      w := WalkStart(r, t, i, j);
      HopsAdd(r, t, i, w, j);
      WalkBound(r, t, w, j);
      assert InCall(r, t, i, w);
      v, k := WalksItsBucket(r, t, i, w);
    }
    AllInBucket(r.events[i].elem.code, k);
  }
}
