/** Every step of every thread keeps the invariant of the striped set. */
module StripedProof {
  import opened Common
  import opened Bits
  import opened Tables
  import opened SetHistory
  import opened Striped

  // ----- stripes and buckets -----

  lemma RemainderOfRemainder(x: nat, n: nat, m: nat)
    requires n > 0 && m > 0
    ensures n * m > 0 && (x % (n * m)) % n == x % n
  {
    Positive(n, m);
    var q, r := x / (n * m), x % (n * m);
    var p, l := r / n, r % n;
    assert x == q * (n * m) + r;
    Regroup(q, n, m, p, l);
    DivMod(x, q * m + p, n, l);
  }

  lemma Positive(n: nat, m: nat)
    requires n > 0 && m > 0
    ensures n * m > 0
  {
  }

  lemma Regroup(q: nat, n: nat, m: nat, p: nat, l: nat)
    ensures q * (n * m) + (p * n + l) == (q * m + p) * n + l
  {
    assert q * (n * m) == (q * m) * n;
  }

  /** However often the table has doubled, elements that share a bucket share a stripe. */
  lemma SameBucketSameStripe(s: State, a: Elem, b: Elem)
    requires s.stripes > 0 && CapacityOk(s)
    ensures s.capacity > 0 && (a.code % s.capacity == b.code % s.capacity ==> Stripe(s, a) == Stripe(s, b))
  {
    var k: nat :| s.capacity == s.stripes * Pow2(k);
    RemainderOfRemainder(a.code, s.stripes, Pow2(k));
    RemainderOfRemainder(b.code, s.stripes, Pow2(k));
  }

  // ----- locks -----

  ghost predicate OnlyThread(s: State, s': State, t: Tid) {
    && t in s.threads && t in s'.threads && s'.threads == s.threads[t := s'.threads[t]] && s'.stripes == s.stripes
    && s.stripes > 0
  }

  lemma SameLocks(s: State, s': State, t: Tid)
    requires OwnersOk(s) && OnlyThread(s, s', t) && s'.owner == s.owner
    requires forall w {:trigger Holds(s'.threads[t], s.stripes, w)} ::
               Holds(s'.threads[t], s.stripes, w) <==> Holds(s.threads[t], s.stripes, w)
    ensures OwnersOk(s')
  {
    hide Holds;
  }

  lemma Locked(s: State, s': State, t: Tid, l: nat)
    requires OwnersOk(s) && OnlyThread(s, s', t) && l !in s.owner && s'.owner == s.owner[l := t]
    requires forall w {:trigger Holds(s'.threads[t], s.stripes, w)} ::
               Holds(s'.threads[t], s.stripes, w) <==> Holds(s.threads[t], s.stripes, w) || w == l
    ensures OwnersOk(s')
  {
    hide Holds;
  }

  lemma Unlocked(s: State, s': State, t: Tid, l: nat)
    requires OwnersOk(s) && OnlyThread(s, s', t) && Holds(s.threads[t], s.stripes, l) && s'.owner == s.owner - {l}
    requires forall w {:trigger Holds(s'.threads[t], s.stripes, w)} ::
               Holds(s'.threads[t], s.stripes, w) <==> Holds(s.threads[t], s.stripes, w) && w != l
    ensures OwnersOk(s')
  {
    hide Holds;
    assert s.owner[l] == t;
    forall w | w in s'.owner
      ensures s'.owner[w] in s'.threads && Holds(s'.threads[s'.owner[w]], s'.stripes, w)
    {
      assert w in s.owner && Holds(s.threads[s.owner[w]], s.stripes, w);
    }
  }

  /** Whoever holds every stripe keeps everyone else out. */
  lemma Alone(s: State, t: Tid, u: Tid)
    requires OwnersOk(s) && t in s.threads && Exclusive(s.threads[t].pc) && u in s.threads && u != t
    ensures !InBucket(s.threads[u].pc) && !Exclusive(s.threads[u].pc)
  {
    assert Holds(s.threads[t], s.stripes, 0);
    if InBucket(s.threads[u].pc) {
      var w := s.threads[u].elem.code % s.stripes;
      assert Holds(s.threads[t], s.stripes, w) && Holds(s.threads[u], s.stripes, w);
    }
    if Exclusive(s.threads[u].pc) {
      assert Holds(s.threads[u], s.stripes, 0);
    }
  }

  /** Two threads at the same bucket are the same. */
  lemma OnePerBucket(s: State, t: Tid, u: Tid)
    requires OwnersOk(s) && CapacityOk(s) && t in s.threads && u in s.threads
    requires InBucket(s.threads[t].pc) && InBucket(s.threads[u].pc)
    requires s.capacity > 0 && s.threads[t].elem.code % s.capacity == s.threads[u].elem.code % s.capacity
    ensures t == u
  {
    SameBucketSameStripe(s, s.threads[t].elem, s.threads[u].elem);
    assert Holds(s.threads[t], s.stripes, Stripe(s, s.threads[t].elem));
    assert Holds(s.threads[u], s.stripes, Stripe(s, s.threads[t].elem));
  }

  // ----- steps that leave the data alone -----

  /** No data changes, and `t` neither starts nor stops moving the table. */
  lemma DataKept(s: State, s': State, t: Tid)
    requires Inv(s) && OnlyThread(s, s', t) && OwnersOk(s')
    requires s'.table == s.table && s'.capacity == s.capacity && Legal(s'.log) && Played(s'.log) == Played(s.log)
    requires !Moving(s.threads[t].pc) && !Moving(s'.threads[t].pc)
    requires ThreadOk(s', s'.threads[t])
    ensures Inv(s')
  {
    hide OwnersOk, Legal, Played;
    forall u | u in s'.threads
      ensures ThreadOk(s', s'.threads[u])
    {
      if u != t {
        assert ThreadOk(s, s.threads[u]);
      }
    }
    assert forall u :: u in s.threads ==> u in s'.threads && (u != t ==> s'.threads[u] == s.threads[u]);
  }

  predicate IsLocal(pc: PC) {
    pc.Idle? || pc.LoadCapacity? || pc.PolicyCapacity? || pc.PolicySize? || pc.CheckCapacity? || pc.CheckSize? ||
    pc.ResizeCapacity? || pc.Returning? || pc.Count?
  }

  lemma LegalNow(s: State)
    requires DataOk(s)
    ensures Legal(s.log)
  {
  }

  /** A local step changes its thread, and perhaps the size, and leaves the locks with whoever has them. */
  lemma LocalShape(s: State, t: Tid, op: Op, e: Elem)
    requires t in s.threads && s.stripes > 0 && IsLocal(s.threads[t].pc)
    ensures Ready(s, t)
    ensures var s' := Next(s, t, op, e);
            && OnlyThread(s, s', t) && s' == s.(threads := s'.threads, size := s'.size)
            && !Moving(s.threads[t].pc) && !Moving(s'.threads[t].pc)
            && forall w {:trigger Holds(s'.threads[t], s.stripes, w)} ::
                 Holds(s'.threads[t], s.stripes, w) <==> Holds(s.threads[t], s.stripes, w)
  {
    hide Limit;
  }

  lemma LocalThread(s: State, t: Tid, op: Op, e: Elem)
    requires t in s.threads && IsLocal(s.threads[t].pc) && Ready(s, t) && ThreadOk(s, s.threads[t])
    ensures var s' := Next(s, t, op, e); t in s'.threads && ThreadOk(s', s'.threads[t])
  {
    hide Limit, Played, TableIs;
  }

  lemma StepLocal(s: State, t: Tid, op: Op, e: Elem)
    requires Inv(s) && t in s.threads
    requires IsLocal(s.threads[t].pc)
    ensures Ready(s, t) && Inv(Next(s, t, op, e))
  {
    hide Legal, Played, TableIs, OwnersOk, CapacityOk, Limit, Next, Ready, DataOk, ThreadOk;
    assert ThreadOk(s, s.threads[t]);
    assert s.stripes > 0 && Legal(s.log) by { OwnersHave(s); LegalNow(s); }
    LocalShape(s, t, op, e);
    LocalThread(s, t, op, e);
    SameLocks(s, Next(s, t, op, e), t);
    DataKept(s, Next(s, t, op, e), t);
  }

  lemma StepLock(s: State, t: Tid, op: Op, e: Elem)
    requires Inv(s) && t in s.threads && (s.threads[t].pc.LockStripe? || s.threads[t].pc.LockAll?)
    ensures Ready(s, t) && Inv(Next(s, t, op, e))
  {
    hide Legal, Played, TableIs, OwnersOk;
    var th := s.threads[t];
    assert ThreadOk(s, th);
    assert s.stripes > 0 by { OwnersHave(s); }
    var s' := Next(s, t, op, e);
    var l := if th.pc.LockStripe? then Stripe(s, th.elem) else th.pc.i;
    if l !in s.owner {
      Locked(s, s', t, l);
      DataKept(s, s', t);
    }
  }

  lemma StepUnlock(s: State, t: Tid, op: Op, e: Elem)
    requires Inv(s) && t in s.threads && (s.threads[t].pc.Unlock? || s.threads[t].pc.UnlockAll?)
    ensures Ready(s, t) && Inv(Next(s, t, op, e))
  {
    hide Legal, Played, TableIs, OwnersOk;
    var th := s.threads[t];
    assert ThreadOk(s, th);
    assert s.stripes > 0 by { OwnersHave(s); }
    var s' := Next(s, t, op, e);
    var l := if th.pc.Unlock? then Stripe(s, th.elem) else th.pc.i;
    Unlocked(s, s', t, l);
    DataKept(s, s', t);
  }

  // ----- the bucket -----

  /** While a thread holds a stripe nobody is moving the table. */
  lemma NobodyMoves(s: State, t: Tid)
    requires Inv(s) && t in s.threads && InBucket(s.threads[t].pc)
    ensures TableIs(s.table, s.capacity, s.log)
  {
    hide Holds, Legal, TableIs;
    forall u | u in s.threads
      ensures !Moving(s.threads[u].pc)
    {
      if Moving(s.threads[u].pc) {
        Alone(s, u, t);
      }
    }
  }

  lemma InBucketOrNot(s: State, e: Elem)
    requires TableIs(s.table, s.capacity, s.log)
    ensures s.capacity > 0 && e.code % s.capacity < |s.table|
    ensures e in s.table[e.code % s.capacity] <==> e in Played(s.log)
  {
    hide Played;
    InItsBucket(s.table, e);
  }

  lemma StepReadBucket(s: State, t: Tid, op: Op, e: Elem)
    requires Inv(s) && t in s.threads && s.threads[t].pc.ReadBucket?
    ensures Ready(s, t) && Inv(Next(s, t, op, e))
  {
    hide Legal, Played, TableIs, OwnersOk;
    var th := s.threads[t];
    assert ThreadOk(s, th);
    NobodyMoves(s, t);
    InBucketOrNot(s, th.elem);
    var s' := Next(s, t, op, e);
    if s'.threads[t].pc.Unlock? {
      LoggedRead(s.log, Entry(t, th.op, th.elem, s'.threads[t].pc.res));
    }
    assert s.stripes > 0 by { OwnersHave(s); }
    SameLocks(s, s', t);
    DataKept(s, s', t);
  }

  lemma OwnersHave(s: State)
    requires OwnersOk(s)
    ensures s.stripes > 0
  {
  }

  /** What the write makes of the table. */
  lemma Written(s: State, th: Thread, h: nat, b: Bucket)
    requires TableIs(s.table, s.capacity, s.log) && ThreadOk(s, th) && th.pc == WriteBucket(h, b)
    ensures var to := if th.op.OpRemove? then Erased(b, IndexOf(b, th.elem)) else b + [th.elem];
            && Placed(s.table[h := to]) && Elements(s.table[h := to]) == After(th.op, th.elem, Played(s.log))
            && Answer(th.op, th.elem, Played(s.log))
  {
    hide Placed, Elements, Played, Erased;
    InBucketOrNot(s, th.elem);
    if th.op.OpRemove? {
      Removed(s.table, th.elem, IndexOf(b, th.elem));
    } else {
      Inserted(s.table, th.elem);
    }
  }

  lemma StepWriteBucket(s: State, t: Tid, op: Op, e: Elem)
    requires Inv(s) && t in s.threads && s.threads[t].pc.WriteBucket?
    ensures Ready(s, t) && Inv(Next(s, t, op, e))
  {
    hide Legal, Played, Placed, Elements, OwnersOk, Erased;
    var th := s.threads[t];
    assert ThreadOk(s, th);
    NobodyMoves(s, t);
    Written(s, th, th.pc.index, th.pc.bucket);
    Logged(s.log, Entry(t, th.op, th.elem, true));
    assert s.stripes > 0 by { OwnersHave(s); }
    var s' := Next(s, t, op, e);
    SameLocks(s, s', t);
    forall u | u in s'.threads
      ensures ThreadOk(s', s'.threads[u])
    {
      if u != t {
        assert ThreadOk(s, s.threads[u]);
        OtherWrites(s, t, u);
      }
    }
  }

  /** Whoever else is in a bucket is in another one, with another element; and nobody is moving the table. */
  lemma OtherWrites(s: State, t: Tid, u: Tid)
    requires Inv(s) && t in s.threads && u in s.threads && u != t && InBucket(s.threads[t].pc) && s.capacity > 0
    ensures InBucket(s.threads[u].pc) ==>
              s.threads[u].elem.code % s.capacity != s.threads[t].elem.code % s.capacity &&
                s.threads[u].elem != s.threads[t].elem
    ensures !Moving(s.threads[u].pc)
  {
    hide OwnersOk, CapacityOk, DataOk, ThreadsOk;
    if InBucket(s.threads[u].pc) && s.threads[u].elem.code % s.capacity == s.threads[t].elem.code % s.capacity {
      OnePerBucket(s, t, u);
    }
    if Moving(s.threads[u].pc) {
      Alone(s, u, t);
    }
  }

  // ----- the resize -----

  /** Only the thread that holds every stripe knows anything about the table and the capacity. */
  lemma Bystander(s: State, s': State, t: Tid, u: Tid)
    requires Inv(s) && OnlyThread(s, s', t) && Exclusive(s.threads[t].pc) && u in s.threads && u != t
    requires s'.log == s.log && s.capacity <= s'.capacity
    ensures ThreadOk(s', s.threads[u]) && !Moving(s.threads[u].pc)
  {
    hide OwnersOk, Legal, Played;
    assert ThreadOk(s, s.threads[u]);
    Alone(s, t, u);
  }

  lemma Resizing(s: State, s': State, t: Tid)
    requires Inv(s) && OnlyThread(s, s', t) && Exclusive(s.threads[t].pc) && OwnersOk(s') && CapacityOk(s')
    requires s'.log == s.log && s.capacity <= s'.capacity && ThreadOk(s', s'.threads[t])
    requires !Moving(s'.threads[t].pc) ==> TableIs(s'.table, s'.capacity, s'.log)
    ensures Inv(s')
  {
    hide OwnersOk, CapacityOk, TableIs, Legal, ThreadOk;
    forall u | u in s'.threads && u != t
      ensures ThreadOk(s', s'.threads[u]) && !Moving(s'.threads[u].pc)
    {
      Bystander(s, s', t, u);
    }
  }

  lemma StepRebuild(s: State, t: Tid, op: Op, e: Elem)
    requires Inv(s) && t in s.threads && s.threads[t].pc.Rebuild?
    ensures Ready(s, t) && Inv(Next(s, t, op, e))
  {
    hide Legal, Played, Placed, Elements, OwnersOk;
    var th := s.threads[t];
    assert ThreadOk(s, th);
    forall u | u in s.threads
      ensures !Moving(s.threads[u].pc)
    {
      if u != t {
        Alone(s, t, u);
      }
    }
    assert s.capacity > 0 by { PlacedHas(s.table); }
    RehashKeeps(s.table, th.pc.newCapacity);
    assert s.stripes > 0 by { OwnersHave(s); }
    var s' := Next(s, t, op, e);
    SameLocks(s, s', t);
    Resizing(s, s', t);
  }

  lemma PlacedHas(table: Table)
    requires Placed(table)
    ensures |table| > 0
  {
  }

  lemma StepStore(s: State, t: Tid, op: Op, e: Elem)
    requires Inv(s) && t in s.threads && Moving(s.threads[t].pc)
    ensures Ready(s, t) && Inv(Next(s, t, op, e))
  {
    hide Legal, Played, Placed, Elements, OwnersOk;
    var th := s.threads[t];
    assert ThreadOk(s, th);
    assert s.stripes > 0 by { OwnersHave(s); }
    var s' := Next(s, t, op, e);
    SameLocks(s, s', t);
    if th.pc.StoreCapacity? {
      Doubled(s, s');
    }
    Resizing(s, s', t);
  }

  lemma Doubled(s: State, s': State)
    requires CapacityOk(s) && s'.capacity == 2 * s.capacity && s'.stripes == s.stripes
    ensures CapacityOk(s')
  {
    var k: nat :| s.capacity == s.stripes * Pow2(k);
    assert Pow2(k + 1) == 2 * Pow2(k);
    assert s'.capacity == s.stripes * Pow2(k + 1);
  }

  // ----- every step -----

  lemma InitInv(s: State)
    requires Init(s)
    ensures Inv(s)
  {
    EmptyTable(s.capacity);
    assert s.capacity == s.stripes * Pow2(0);
    forall t, w | t in s.threads && w >= 0
      ensures !Holds(s.threads[t], s.stripes, w)
    {
    }
  }

  /** In every reachable state every thread has a next step, and taking it keeps the invariant. */
  lemma StepInv(s: State, t: Tid, op: Op, e: Elem)
    requires Inv(s) && t in s.threads
    ensures Ready(s, t) && Inv(Next(s, t, op, e))
  {
    hide *;
    var pc := s.threads[t].pc;
    if pc.LockStripe? || pc.LockAll? {
      StepLock(s, t, op, e);
    } else if pc.Unlock? || pc.UnlockAll? {
      StepUnlock(s, t, op, e);
    } else if pc.ReadBucket? {
      StepReadBucket(s, t, op, e);
    } else if pc.WriteBucket? {
      StepWriteBucket(s, t, op, e);
    } else if pc.Rebuild? {
      StepRebuild(s, t, op, e);
    } else if pc.StoreTable? || pc.StoreCapacity? {
      assert Moving(pc) by { MovingPc(pc); }
      StepStore(s, t, op, e);
    } else {
      RestIsLocal(pc);
      StepLocal(s, t, op, e);
    }
  }

  lemma RestIsLocal(pc: PC)
    ensures || IsLocal(pc) || pc.LockStripe? || pc.LockAll? || pc.Unlock? || pc.UnlockAll? || pc.ReadBucket?
            || pc.WriteBucket? || pc.Rebuild? || pc.StoreTable? || pc.StoreCapacity?
  {
  }

  lemma MovingPc(pc: PC)
    requires pc.StoreTable? || pc.StoreCapacity?
    ensures Moving(pc)
  {
  }
}
