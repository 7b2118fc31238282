/**
  A Contains that is made to walk as far as its bound allows, for any bound: it stands at the head of the
  list while elements with the same key are linked in ahead of it. So it is wait-free exactly as far as the
  insertions ahead of it are bounded (src/BucketList.h:125); and if one more is linked in for every hop, its
  walk never ends.
*/
module LongWalks {
  import opened Common
  import opened SplitOrder
  import opened ListHeap
  import opened Traversal
  import opened LockFreeSet
  import opened LockFreeInv
  import opened LockFreeSteps
  import opened LockFreeTheorems
  import opened LockFreeSafety
  import opened Linearizability
  import opened LockFreeShape
  import opened LockFreeContains
  import opened LockFreeBuild
  import opened LockFreeUnsafe
  import E = Epochs

  const MISSING: Elem := Elem(-1, 0)

  /** The first `k` of any number of different elements with the same key. */
  function Elems(k: nat): (es: seq<Elem>)
    ensures |es| == k && MISSING !in es && forall i :: 0 <= i < k ==> es[i] == Elem(i, 0)
  {
    seq(k, i requires 0 <= i < k => Elem(i, 0))
  }

  // ----- counting -----

  ghost function Members(c: seq<NodeId>): set<NodeId> { set n | n in c }

  lemma {:induction false} CountSeq(c: seq<NodeId>)
    requires forall i, j :: 0 <= i < j < |c| ==> c[i] != c[j]
    ensures |Members(c)| == |c|
  {
    if c == [] {
      assert Members(c) == {};
    } else {
      var d, x := c[..|c| - 1], c[|c| - 1];
      CountSeq(d);
      assert c == d + [x] && x !in d;
      assert Members(c) == Members(d) + {x};
    }
  }

  lemma {:induction false} ChainIs(h: Heap, c: seq<NodeId>, es: seq<Elem>, k: nat)
    requires Ends(h) && Links(h) && ListIs(h, c, es) && k < |c| && Lk(h, c[k])
    ensures Chain(h, c[k]) == c[k..]
    decreases |c| - k
  {
    if k < |c| - 1 {
      assert c[k] != TAIL && Nx(h, c[k]) == c[k + 1];
      ChainIs(h, c, es, k + 1);
      assert c[k..] == [c[k]] + c[k + 1..];
    }
  }

  /** Nothing else is linked at or before the key than the root and the nodes of the elements. */
  lemma LinkedCount(s: State, c: seq<NodeId>, es: seq<Elem>)
    requires Inv(s) && ListIs(s.heap, c, es)
    ensures |LinkedBetween(s.heap, 0, OrdinaryKey(0))| == |es| + 1
  {
    hide Inv, HeapInv, OrdinaryKey;
    var h, d := s.heap, c[..|es| + 1];
    HeapOfInv(s);
    HeapHas(h);
    TailAndRoot(s);
    ChainIs(h, c, es, 0);
    forall n
      ensures Lk(h, n) <==> n in c
    {
      ChainIsLinked(h, ROOT, n);
      if Lk(h, n) && n != ROOT {
        RootFirst(h, n);
      }
    }
    forall n
      ensures n in LinkedBetween(h, 0, OrdinaryKey(0)) <==> n in d
    {
      KeysOfChain(h, c, es, n);
    }
    forall i, j | 0 <= i < j < |d|
      ensures d[i] != d[j]
    {
      Distinct(h, c, es, i, j);
    }
    CountSeq(d);
    assert LinkedBetween(h, 0, OrdinaryKey(0)) == Members(d);
  }

  lemma KeysOfChain(h: Heap, c: seq<NodeId>, es: seq<Elem>, n: NodeId)
    requires ListIs(h, c, es) && h.nodes[c[0]].key == 0 < OrdinaryKey(0) < h.nodes[c[|es| + 1]].key
    ensures n in c && h.nodes[n].key <= OrdinaryKey(0) <==> n in c[..|es| + 1]
  {
    hide OrdinaryKey;
    var d := c[..|es| + 1];
    if n in d {
      var i :| 0 <= i < |d| && d[i] == n;
      assert c[i] == n;
      if i > 0 {
        assert es[i - 1] == es[i - 1] && c[i - 1 + 1] == n;
      }
    } else if n in c {
      assert forall i :: 0 <= i <= |es| ==> c[i] == d[i] && c[i] in d;
    }
  }

  /** Every node that others link in stays among those linked since `from`. */
  lemma StepAdds(s: State, u: Tid, op: Op, e: Elem, from: nat, low: nat, key: nat)
    requires Inv(s) && u in s.threads && Ready(s, u) && from <= s.heap.clock
    ensures |HeldBetween(Next(s, u, op, e).heap, from, low, key)| >= |HeldBetween(s.heap, from, low, key)| +
            One(Inserts(s, u, low, key))
  {
    hide Inv, Next, Ready, Evolves;
    var h, k, m := s.heap, Next(s, u, op, e).heap, s.threads[u].node;
    StepEvolves(s, u, op, e);
    var a, b := HeldBetween(h, from, low, key), HeldBetween(k, from, low, key);
    forall n | n in a
      ensures n in b
    {
      HeldStable(h, k, u, n, from);
    }
    if Inserts(s, u, low, key) {
      InsertedIsLinked(s, u, op, e, low, key);
      assert m in b && m !in a;
      Larger(a + {m}, b);
    } else {
      Larger(a, b);
    }
  }

  lemma InsertedIsLinked(s: State, u: Tid, op: Op, e: Elem, low: nat, key: nat)
    requires Inv(s) && u in s.threads && Ready(s, u) && Inserts(s, u, low, key)
    ensures var n, h, k := s.threads[u].node, s.heap, Next(s, u, op, e).heap;
            && n in h.nodes && h.nodes[n].status.Private? && Lk(k, n) && low <= k.nodes[n].key <= key
  {
    hide Inv, HeapInv, E.OwnInv, BucketsOk, CapacityOk, RecTie, DeletedOk, ThreadsOk, StackOk, TargetOk, OrdinaryKey,
      SentinelKey,
      Searching;
    Unfold(s, u);
  }

  lemma {:induction false} InsertsCounted(r: Run, t: Tid, w: nat, j: nat, from: nat, low: nat, key: nat)
    requires IsRun(r) && w <= j < |r.states| && from <= r.states[w].heap.clock
    ensures |HeldBetween(r.states[j].heap, from, low, key)| >= |HeldBetween(r.states[w].heap, from, low, key)| +
            InsertsOfOthers(r, t, low, key, w, j)
  {
    hide Next, Ready, Inv, HeldBetween, Inserts;
    if w < j {
      InsertsCounted(r, t, w, j - 1, from, low, key);
      ClockGrows(r, w, j - 1);
      var e := r.events[j - 1];
      assert IsStep(r.states[j - 1], e, r.states[j]);
      Always(r, j - 1);
      StepAdds(r.states[j - 1], e.t, e.op, e.elem, from, low, key);
    }
  }

  /** Where nothing has been unlinked, what was linked since any time is linked now. */
  lemma NothingUnlinked(s: State, from: nat, low: nat, key: nat)
    requires Inv(s) && s.rec.fates == map[]
    ensures HeldBetween(s.heap, from, low, key) == LinkedBetween(s.heap, low, key)
  {
    hide HeapInv, E.OwnInv, BucketsOk, CapacityOk, DeletedOk, ThreadsOk, CtlsTie, HolderTie;
    assert forall n :: !Un(s.heap, n);
  }

  // ----- growing the list, and walking it -----

  lemma ExtendsTwice(a: Run, b: Run, c: Run, t: Tid)
    requires Extends(a, b, t) && Extends(b, c, t)
    ensures Extends(a, c, t)
  {
    assert forall k :: 0 <= k < |b.events| ==> c.events[k] == b.events[k];
  }

  lemma {:induction false} GrowBy(r: Run, t: Tid, c: seq<NodeId>, k: nat, m: nat) returns (q: Run, d: seq<NodeId>)
    requires Good(r) && t in Last(r).threads && Last(r).threads[t].pc.Idle? && t in Last(r).rec.joined && Small(Last(r))
    requires ListIs(Last(r).heap, c, Elems(k)) && Last(r).rec.fates == map[]
    ensures Good(q) && Extends(r, q, t) && Small(Last(q)) && Own(Last(r), Last(q), t)
    ensures Last(q).threads[t].pc.Idle? && ListIs(Last(q).heap, d, Elems(k + m)) && Last(q).rec.fates == map[]
    decreases m
  {
    hide IsRun, TagsWithin, Inv, Last, ListIs;
    if m == 0 {
      q, d := r, c;
    } else {
      ListLength(Last(r).heap, c, Elems(k));
      var q1 := Add(r, t, Elem(k, 0), c, Elems(k));
      assert Elems(k) + [Elem(k, 0)] == Elems(k + 1);
      q, d := GrowBy(q1, t, c[..|c| - 1] + [Last(r).heap.nextId, TAIL], k + 1, m - 1);
      ExtendsTwice(r, q1, q, t);
      OwnTwice(Last(r), Last(q1), Last(q), t);
    }
  }

  lemma {:induction false} SameHops(r: Run, q: Run, t: Tid, w: nat, j: nat)
    requires IsRun(r) && IsRun(q) && r.states <= q.states && r.events <= q.events && w <= j < |r.states|
    ensures HopCount(q, t, w, j) == HopCount(r, t, w, j)
  {
    hide Init, Next, Ready, Hopping;
    if w < j {
      SameHops(r, q, t, w, j - 1);
      assert r.events[j - 1] == q.events[j - 1] && r.states[j - 1] == q.states[j - 1];
    }
  }

  ghost function End(r: Run): nat
    requires IsRun(r)
  {
    |r.states| - 1
  }

  /** The walk goes on through the steps of others. */
  lemma {:induction false} OthersStep(q: Run, t: Tid, u: Tid, i: nat, j: nat)
    requires IsRun(q) && i <= j < |q.states| && t in q.states[i].threads && !q.states[i].threads[t].pc.Idle?
    requires forall k :: i <= k < j ==> q.events[k].t != t
    ensures t in q.states[j].threads && q.states[j].threads[t] == q.states[i].threads[t]
  {
    hide Next, Ready, Init;
    if i < j {
      OthersStep(q, t, u, i, j - 1);
      assert IsStep(q.states[j - 1], q.events[j - 1], q.states[j]);
      InCallStep(q.states[j - 1], q.events[j - 1], q.states[j], t);
    }
  }

  lemma StillWalking(r: Run, q: Run, t: Tid, u: Tid, w: nat)
    requires IsRun(r) && IsRun(q) && Extends(r, q, u) && u != t && WalkFrom(r, t, w, End(r))
    ensures WalkFrom(q, t, w, End(q)) && At(q, End(q), t) == At(r, End(r), t)
  {
    hide Init, Next, Ready, Hopping, IsStep;
    assert q.states[w] == r.states[w] && q.states[End(r)] == r.states[End(r)];
    forall k | w <= k <= End(q)
      ensures t in q.states[k].threads && !q.states[k].threads[t].pc.Idle?
      ensures k >= End(r) ==> q.states[k].threads[t] == r.states[End(r)].threads[t]
    {
      if k < End(r) {
        assert q.states[k] == r.states[k];
      } else {
        OthersStep(q, t, u, End(r), k);
      }
    }
  }

  /** The walk through the whole list, to the tail. */
  lemma {:induction false} WalkAll(r: Run, t: Tid, c: seq<NodeId>, es: seq<Elem>, k: nat, w: nat) returns (q: Run)
    requires Good(r) && WalkFrom(r, t, w, End(r)) && Last(r).threads[t].pc.ContainsLoad?
    requires ListIs(Last(r).heap, c, es) && k <= |es| && Last(r).threads[t].curr == c[k] && MISSING !in es
    requires Last(r).threads[t].key == OrdinaryKey(0) && Last(r).threads[t].want == Some(MISSING)
    ensures Good(q) && WalkFrom(q, t, w, End(q)) && q.states[w] == r.states[w] && Last(q).heap == Last(r).heap
    ensures Last(q).rec == Last(r).rec
    ensures HopCount(q, t, w, End(q)) == HopCount(r, t, w, End(r)) + |es| + 1 - k
    decreases |es| - k
  {
    hide IsRun, TagsWithin, Inv, ListIs, OrdinaryKey, HopCount;
    InWalk(r, t, w);
    var q1 := Go(r, t);
    HopLands(Last(r), t, c, es, k);
    OneMoreHop(r, q1, t, w);
    if k == |es| {
      q := q1;
    } else {
      q := WalkAll(q1, t, c, es, k + 1, w);
    }
  }

  lemma InWalk(r: Run, t: Tid, w: nat)
    requires IsRun(r) && WalkFrom(r, t, w, End(r))
    ensures t in Last(r).threads && w <= End(r) < |r.states| && Last(r) == r.states[End(r)]
  {
  }

  lemma HopLands(s: State, t: Tid, c: seq<NodeId>, es: seq<Elem>, k: nat)
    requires Inv(s) && Ready(s, t) && t in s.threads && s.threads[t].pc.ContainsLoad?
    requires ListIs(s.heap, c, es) && k <= |es| && s.threads[t].curr == c[k] && MISSING !in es
    requires s.threads[t].key == OrdinaryKey(0) && s.threads[t].want == Some(MISSING)
    ensures Next(s, t, OpAdd, NO_ELEM) ==
            Put(s, t, s.threads[t].(curr := c[k + 1], pc := if k == |es| then Leaving(false) else ContainsLoad))
  {
    hide Inv, OrdinaryKey;
    TailAndRoot(s);
    assert c[k] in s.heap.nodes && s.heap.nodes[c[k]].next == c[k + 1] && c[k + 1] in s.heap.nodes;
    if k < |es| {
      assert es[k] in es;
    }
  }

  lemma OneMoreHop(r: Run, q: Run, t: Tid, w: nat)
    requires IsRun(r) && IsRun(q) && WalkFrom(r, t, w, End(r)) && Hopping(Last(r), t)
    requires q.states == r.states + [Last(q)] && r.events <= q.events && |q.events| == |r.events| + 1
    requires q.events[|r.events|].t == t
    requires t in Last(q).threads && !Last(q).threads[t].pc.Idle?
    ensures WalkFrom(q, t, w, End(q)) && q.states[w] == r.states[w]
    ensures HopCount(q, t, w, End(q)) == HopCount(r, t, w, End(r)) + 1
  {
    hide Next, Ready, Init;
    SameHops(r, q, t, w, End(r));
    assert forall k :: 0 <= k < |r.states| ==> q.states[k] == r.states[k];
  }

  // ----- the longest walk -----

  /** `C` is at the head of the list, about to look for an element that is not there. */
  lemma SetOut(m: nat) returns (r: Run, c: seq<NodeId>)
    requires m > 0
    ensures Good(r) && Small(Last(r)) && ListIs(Last(r).heap, c, Elems(m - 1)) && Last(r).rec.fates == map[]
    ensures var s := Last(r);
            && B in s.threads && s.threads[B].pc.Idle? && B in s.rec.joined && C in s.threads
            && s.threads[C].pc.ContainsLoad? && s.threads[C].curr == ROOT == s.threads[C].head
            && s.threads[C].key == OrdinaryKey(0) && s.threads[C].want == Some(MISSING)
  {
    hide IsRun, TagsWithin, Inv, Last, ListIs, Fresh, OrdinaryKey;
    var r0 := Start();
    var r1 := Join(r0, A);
    var r2 := Join(r1, B);
    var r3 := Join(r2, C);
    FreshThread(Last(r3), B);
    FreshThread(Last(r3), C);
    assert Elems(0) == [];
    var r4, d := GrowBy(r3, B, [ROOT, TAIL], 0, m - 1);
    c := d;
    var r5 := CallAndLoad(r4, C, OpContains, MISSING);
    r := AnnounceAndFind(r5, C);
  }

  lemma WalkBegins(r: Run, t: Tid)
    requires IsRun(r) && t in Last(r).threads && Last(r).threads[t].pc.ContainsLoad?
    requires Last(r).threads[t].curr == Last(r).threads[t].head
    ensures WalkFrom(r, t, End(r), End(r)) && HopCount(r, t, End(r), End(r)) == 0
  {
    hide Next, Ready, Init;
  }

  /**
    A walk that starts with `m` linked nodes at or before its key, sees no more than `p` inserted by others,
    and takes `m + p` hops.
  */
  lemma LongWalk(m: nat, p: nat) returns (r: Run, w: nat, j: nat)
    requires m > 0
    ensures IsRun(r) && WalkFrom(r, C, w, j) && HopCount(r, C, w, j) == m + p
    ensures |InItsWay(r, C, w)| == m && JoiningIn(r, C, w, j) <= p
  {
    hide IsRun, TagsWithin, Inv, Last, ListIs, OrdinaryKey, LinkedBetween, HeldBetween, InsertsOfOthers, HopCount, Next,
      Ready;
    var r1, c := SetOut(m);
    w := End(r1);
    WalkBegins(r1, C);
    InWalk(r1, C, w);
    var r2, d := GrowBy(r1, B, c, m - 1, p);
    StillWalking(r1, r2, C, B, w);
    InWalk(r2, C, w);
    SameHops(r1, r2, C, w, w);
    NoHops(r1, r2, C, B);
    ListLength(Last(r2).heap, d, Elems(m - 1 + p));
    r := WalkAll(r2, C, d, Elems(m - 1 + p), 0, w);
    j := End(r);
    InWalk(r, C, w);
    Counted(r, w, j, c, d, m, p);
    AtRoot(r, C, w);
  }

  /** While others step, the walker does not hop. */
  lemma {:induction false} OthersHop(q: Run, t: Tid, u: Tid, i: nat, j: nat)
    requires IsRun(q) && i <= j < |q.states| && forall k :: i <= k < j ==> q.events[k].t != t
    ensures HopCount(q, t, i, j) == 0
  {
    hide Next, Ready, Init, Hopping;
    if i < j {
      OthersHop(q, t, u, i, j - 1);
    }
  }

  lemma NoHops(r: Run, q: Run, t: Tid, u: Tid)
    requires IsRun(r) && IsRun(q) && Extends(r, q, u) && u != t
    ensures HopCount(q, t, End(r), End(q)) == 0
  {
    hide Next, Ready, Init, IsStep;
    OthersHop(q, t, u, End(r), End(q));
  }

  lemma Counted(r: Run, w: nat, j: nat, c: seq<NodeId>, d: seq<NodeId>, m: nat, p: nat)
    requires IsRun(r) && m > 0 && w <= j < |r.states| && r.states[j].rec.fates == map[]
    requires ListIs(r.states[w].heap, c, Elems(m - 1)) && ListIs(r.states[j].heap, d, Elems(m - 1 + p))
    ensures |LinkedBetween(r.states[w].heap, 0, OrdinaryKey(0))| == m
    ensures InsertsOfOthers(r, C, 0, OrdinaryKey(0), w, j) <= p
  {
    hide IsRun, Inv, ListIs, OrdinaryKey, LinkedBetween, HeldBetween, InsertsOfOthers;
    var low, key, from := 0, OrdinaryKey(0), r.states[w].heap.clock;
    Always(r, w);
    Always(r, j);
    LinkedCount(r.states[w], c, Elems(m - 1));
    LinkedCount(r.states[j], d, Elems(m - 1 + p));
    NothingUnlinked(r.states[j], from, low, key);
    assert Marks(r.states[w].heap) by { HeapOfInv(r.states[w]); HeapHas(r.states[w].heap); }
    HeldNowIsLinked(r.states[w].heap, low, key);
    InsertsCounted(r, C, w, j, from, low, key);
  }

  lemma AtRoot(r: Run, t: Tid, w: nat)
    requires IsRun(r) && w < |r.states| && t in r.states[w].threads && r.states[w].threads[t].head == ROOT
    ensures HeadKey(r, t, w) == 0
  {
    hide IsRun, Inv;
    Always(r, w);
    TailAndRoot(r.states[w]);
  }

  // ----- exactly how long a walk can get -----

  /**
    Whenever a walk sets out with at most `m` nodes in its way, from the sentinel of its bucket to its key,
    and at most `p` are linked in there meanwhile, it takes at most `n` hops.
  */
  ghost predicate HopsWithin(m: nat, p: nat, n: nat) {
    forall r, t, w: nat, j: nat {:trigger WalkFrom(r, t, w, j)} ::
      IsRun(r) && WalkFrom(r, t, w, j) && |InItsWay(r, t, w)| <= m && JoiningIn(r, t, w, j) <= p ==>
        HopCount(r, t, w, j) <= n
  }

  /**
    Contains finishes its walk within `n` hops in all runs in which it sets out with at most `m` nodes of its
    bucket in its way and others link in at most `p` there meanwhile, if and only if `m + p` is at most `n`.
  */
  lemma HopsExactly(m: nat, p: nat, n: nat)
    requires m > 0   // the sentinel of the bucket is always there
    ensures HopsWithin(m, p, n) <==> m + p <= n
  {
    hide IsRun, InItsWay, JoiningIn, HopCount;
    if m + p <= n {
      forall r, t, w: nat, j: nat | IsRun(r) && WalkFrom(r, t, w, j)
        ensures |InItsWay(r, t, w)| <= m && JoiningIn(r, t, w, j) <= p ==> HopCount(r, t, w, j) <= n
      {
        WalkBound(r, t, w, j);
      }
    } else {
      var r, w, j := LongWalk(m, p);
      assert WalkFrom(r, C, w, j);
    }
  }

  // ----- a walk that never ends -----

  /** `C`, on the walk since state `w`, is at the last node before the tail, after `n` hops; `B` is idle. */
  ghost predicate Chasing(r: Run, w: nat, n: nat) {
    Good(r) && exists c :: ChasingIn(r, w, c, n)
  }

  ghost predicate ChasingIn(r: Run, w: nat, c: seq<NodeId>, n: nat)
    requires Good(r)
  {
    && WalkFrom(r, C, w, End(r)) && HopCount(r, C, w, End(r)) == n && |InItsWay(r, C, w)| == 1
    && var s := Last(r);
       && Small(s) && ListIs(s.heap, c, Elems(n)) && s.rec.fates == map[]
       && B in s.threads && s.threads[B].pc.Idle? && B in s.rec.joined && C in s.threads
       && s.threads[C].pc.ContainsLoad? && s.threads[C].curr == c[n]
       && s.threads[C].key == OrdinaryKey(0) && s.threads[C].want == Some(MISSING)
  }

  lemma ChaseBegins() returns (r: Run, w: nat)
    ensures Chasing(r, w, 0)
  {
    hide IsRun, TagsWithin, Inv, Last, ListIs, OrdinaryKey, LinkedBetween, HopCount;
    var r1, c := SetOut(1);
    r := r1;
    w := End(r);
    WalkBegins(r, C);
    InWalk(r, C, w);
    ListLength(Last(r).heap, c, Elems(0));
    AtRoot(r, C, w);
    Always(r, w);
    LinkedCount(Last(r), c, Elems(0));
    assert ChasingIn(r, w, c, 0);
  }

  /**
    The chase goes on for ever: each of these runs goes on, by one Add of `B` and one hop of `C`, to another
    of them, in which `C` is still on its walk.
  */
  lemma ChaseGoesOn(r: Run, w: nat, n: nat) returns (q: Run)
    requires Chasing(r, w, n)
    ensures Chasing(q, w, n + 1) && r.states < q.states && r.events < q.events
    ensures q.events[|q.events| - 1].t == C
    ensures forall k :: |r.events| <= k < |q.events| - 1 ==> q.events[k].t == B
  {
    hide IsRun, TagsWithin, Inv, ListIs, OrdinaryKey, InItsWay, HopCount;
    var c :| ChasingIn(r, w, c, n);
    var es := Elems(n);
    ListLength(Last(r).heap, c, es);
    var q1 := Add(r, B, Elem(n, 0), c, es);
    StillWalking(r, q1, C, B, w);
    SameHops(r, q1, C, w, End(r));
    NoHops(r, q1, C, B);
    HopsAdd(q1, C, w, End(r), End(q1));
    var d := c[..|c| - 1] + [Last(r).heap.nextId, TAIL];
    assert es + [Elem(n, 0)] == Elems(n + 1);
    q := Go(q1, C);
    HopLands(Last(q1), C, d, Elems(n + 1), n);
    OneMoreHop(q1, q, C, w);
    SameWay(r, q, C, w);
    assert ChasingIn(q, w, d, n + 1);
  }

  lemma SameWay(r: Run, q: Run, t: Tid, w: nat)
    requires IsRun(r) && IsRun(q) && w < |r.states| && r.states <= q.states && t in r.states[w].threads
    ensures InItsWay(q, t, w) == InItsWay(r, t, w)
  {
    hide Init, Next, Ready;
    assert q.states[w] == r.states[w];
  }

  lemma {:induction false} Chase(n: nat) returns (r: Run, w: nat)
    ensures Chasing(r, w, n)
  {
    hide Chasing;
    if n == 0 {
      r, w := ChaseBegins();
    } else {
      var r1, w1 := Chase(n - 1);
      w := w1;
      r := ChaseGoesOn(r1, w, n - 1);
    }
  }

  /**
    So no number of hops is enough in all runs: for every `n` there is one in which a Contains that set out
    with nothing but the sentinel of its bucket in its way has taken `n` hops and is still on its way.
  */
  lemma NotWaitFree(n: nat) returns (r: Run, w: nat, j: nat)
    ensures IsRun(r) && WalkFrom(r, C, w, j) && HopCount(r, C, w, j) == n && Hopping(r.states[j], C)
    ensures |InItsWay(r, C, w)| == 1
  {
    hide IsRun, InItsWay, HopCount;
    r, w := Chase(n);
    j := End(r);
  }
}
