/**
  Runs of the lock-free set, put together operation by operation: a set of two buckets that never grows,
  and elements with hash code 0, which all share one key.
*/
module LockFreeBuild {
  import opened Common
  import opened SplitOrder
  import opened ListHeap
  import opened Traversal
  import opened LockFreeSet
  import opened LockFreeSteps
  import opened LockFreeTheorems
  import opened LockFreeSafety
  import E = Epochs

  ghost function Last(r: Run): State
    requires IsRun(r)
  {
    r.states[|r.states| - 1]
  }

  /** A run in which no node is unlinked more than one epoch past the epoch of its tag. */
  ghost predicate Good(r: Run) { IsRun(r) && TagsWithin(r, 1) }

  /** `q` goes on where `r` ends, with steps of `t` only. */
  ghost predicate Extends(r: Run, q: Run, t: Tid) {
    && r.states <= q.states && r.events <= q.events
    && forall k {:trigger q.events[k]} :: |r.events| <= k < |q.events| ==> q.events[k].t == t
  }

  lemma Do(r: Run, t: Tid, op: Op, e: Elem) returns (q: Run)
    requires Good(r) && t in Last(r).threads && TagWithin(Last(r), t, 1)
    ensures Inv(Last(r)) && Ready(Last(r), t)
    ensures Good(q) && Last(q) == Next(Last(r), t, op, e) && Extends(r, q, t)
    ensures q.events == r.events + [Event(t, op, e)] && q.states == r.states + [Last(q)]
  {
    hide Inv, Init, Next, Ready, TagWithin;
    Always(r, |r.states| - 1);
    StepInv(Last(r), t, op, e);
    q := Run(r.states + [Next(Last(r), t, op, e)], r.events + [Event(t, op, e)]);
    forall i | 0 <= i < |q.events|
      ensures IsStep(q.states[i], q.events[i], q.states[i + 1]) && TagWithin(q.states[i], q.events[i].t, 1)
    {
      if i < |r.events| {
        assert q.events[i] == r.events[i] && IsStep(r.states[i], r.events[i], r.states[i + 1]);
      }
    }
  }

  /** The next step of `t`, which is in a call and about to do something other than unlink. */
  lemma Go(r: Run, t: Tid) returns (q: Run)
    requires Good(r) && t in Last(r).threads && !Last(r).threads[t].pc.FindUnlink?
    requires !Last(r).threads[t].pc.RemoveUnlink?
    ensures Inv(Last(r)) && Ready(Last(r), t)
    ensures Good(q) && Last(q) == Next(Last(r), t, OpAdd, NO_ELEM) && Extends(r, q, t)
    ensures q.events == r.events + [Event(t, OpAdd, NO_ELEM)] && q.states == r.states + [Last(q)]
  {
    hide IsRun, TagsWithin, Inv, Next, Ready;
    q := Do(r, t, OpAdd, NO_ELEM);
  }

  // ----- the setting -----

  /** The set does not grow, and bucket 0 is set up. */
  ghost predicate Small(s: State) {
    s.capacity == 2 == s.maxCapacity && 0 in s.buckets && s.buckets[0] == ROOT &&
      s.rec.parts.Keys == s.threads.Keys == s.rec.ctl.Keys
  }

  /** What a thread's own steps leave alone. */
  ghost predicate Own(s: State, s': State, t: Tid) {
    && t in s.threads && t in s'.threads && s'.threads == s.threads[t := s'.threads[t]]
    && s'.buckets == s.buckets && s'.capacity == s.capacity && s'.maxCapacity == s.maxCapacity
    && t in s.rec.parts && t in s'.rec.parts && s'.rec.parts == s.rec.parts[t := s'.rec.parts[t]]
    && t in s.rec.ctl && t in s'.rec.ctl && s'.rec.ctl == s.rec.ctl[t := s'.rec.ctl[t]]
    && s'.rec.joined == s.rec.joined && s'.rec.advancing == s.rec.advancing
  }

  lemma OwnHas(s: State, s': State, t: Tid)
    requires Own(s, s', t)
    ensures t in s'.threads && t in s'.rec.parts && t in s'.rec.ctl
    ensures s'.rec.joined == s.rec.joined && s'.rec.advancing == s.rec.advancing
  {
  }

  /** Two stretches of steps of `t`, one after the other. */
  lemma OneAfterOther(r: Run, p: Run, q: Run, t: Tid)
    requires IsRun(r) && IsRun(p) && IsRun(q) && Extends(r, p, t) && Extends(p, q, t)
    requires Own(Last(r), Last(p), t) && Own(Last(p), Last(q), t)
    ensures Extends(r, q, t) && Own(Last(r), Last(q), t)
  {
    hide IsRun, Last;
    forall k | |r.events| <= k < |q.events|
      ensures q.events[k].t == t
    {
      assert k < |p.events| ==> q.events[k] == p.events[k];
    }
    OwnTwice(Last(r), Last(p), Last(q), t);
  }

  lemma OwnTwice(a: State, b: State, c: State, t: Tid)
    requires Own(a, b, t) && Own(b, c, t)
    ensures Own(a, c, t)
  {
    assert c.threads == a.threads[t := c.threads[t]];
    assert c.rec.parts == a.rec.parts[t := c.rec.parts[t]];
    assert c.rec.ctl == a.rec.ctl[t := c.rec.ctl[t]];
  }

  ghost predicate Carries(h: Heap, n: NodeId, e: Elem) {
    n in h.nodes && h.nodes[n].key == OrdinaryKey(0) && h.nodes[n].elem == e
  }

  /** The chain of the list, and the elements between its ends. */
  ghost predicate ListIs(h: Heap, c: seq<NodeId>, es: seq<Elem>) {
    && |c| == |es| + 2 && c[0] == ROOT && c[|c| - 1] == TAIL
    && (forall k :: 0 <= k < |c| ==> c[k] in h.nodes && !h.nodes[c[k]].mark)
    && (forall k :: 0 <= k < |c| - 1 ==> c[k] != TAIL && h.nodes[c[k]].next == c[k + 1])
    && (forall k {:trigger es[k]} :: 0 <= k < |es| ==> Carries(h, c[k + 1], es[k]))
  }

  lemma TailAndRoot(s: State)
    requires Inv(s)
    ensures ROOT in s.heap.nodes && s.heap.nodes[ROOT].key == 0 && TAIL in s.heap.nodes
    ensures s.heap.nodes[TAIL].key == TAIL_KEY
    ensures !s.heap.nodes[TAIL].mark && s.heap.nextId !in s.heap.nodes && s.heap.nextId != NULL
    ensures 0 < OrdinaryKey(0) < TAIL_KEY
  {
    hide HeapInv, E.OwnInv, BucketsOk, CapacityOk, RecTie, DeletedOk, ThreadsOk, OrdinaryKey;
    HeapHas(s.heap);
  }

  // ----- entering and leaving -----

  /** `t`, which has joined before, calls and loads the epoch. */
  lemma CallAndLoad(r: Run, t: Tid, op: Op, e: Elem) returns (q: Run)
    requires Good(r) && t in Last(r).threads && Last(r).threads[t].pc.Idle? && t in Last(r).rec.joined && Small(Last(r))
    ensures Good(q) && Extends(r, q, t) && Small(Last(q)) && Own(Last(r), Last(q), t)
    ensures var s, s', th := Last(r), Last(q), Last(q).threads[t];
            && th == s.threads[t].(pc := InReclaimer(KEnter), op := op, elem := e, stack := [], node := NULL)
            && s'.heap == s.heap && s'.deleted == s.deleted && s'.rec.epoch == s.rec.epoch
            && s'.rec.ctl[t] == E.Announcing(s.rec.epoch)
            && E.Typed(s.rec, t) && s'.rec.parts[t] == E.Loaded(s.rec.parts[t], s.rec.epoch)
            && s'.rec.freed == s.rec.freed + E.EnterFrees(s.rec.parts[t], s.rec.epoch)
            && (s.rec.fates == map[] ==> s'.rec.fates == map[])
  {
    hide IsRun, TagsWithin, Inv, Last, E.Collect, E.Emptied, E.EnterFrees;
    var q1 := Do(r, t, op, e);
    q := Go(q1, t);
    NothingToEmpty(t, E.ExpiredBags(Last(r).rec.parts[t], Last(r).rec.epoch));
  }

  lemma NothingToEmpty(t: Tid, gone: set<nat>)
    ensures E.Emptied(map[], t, gone) == map[]
  {
  }

  /** `t` announces what it has loaded, and gets to its bucket. */
  lemma AnnounceAndFind(r: Run, t: Tid) returns (q: Run)
    requires Good(r) && t in Last(r).threads && Last(r).threads[t].pc == InReclaimer(KEnter) && Small(Last(r))
    requires Last(r).rec.ctl[t].Announcing? && Last(r).threads[t].elem.code == 0 && Last(r).threads[t].stack == []
    ensures Good(q) && Extends(r, q, t) && Small(Last(q)) && Own(Last(r), Last(q), t)
    ensures var s, s', th := Last(r), Last(q), Last(q).threads[t];
            && th.op == s.threads[t].op && th.elem == s.threads[t].elem && th.stack == []
            && th.node == s.threads[t].node
            && th.key == OrdinaryKey(0) && th.want == Some(th.elem) && th.head == ROOT
            && (if th.op.OpContains? then th.pc.ContainsLoad? && th.curr == ROOT else th.pc.FindStart?)
            && s'.heap == s.heap && s'.deleted == s.deleted && s'.rec.epoch == s.rec.epoch
            && s'.rec.freed == s.rec.freed
            && s'.rec.ctl[t] == E.Inside && s'.rec.parts[t] == s.rec.parts[t].(epoch := Some(s.rec.ctl[t].e))
            && s'.rec.fates == s.rec.fates
  {
    hide IsRun, TagsWithin, Inv, Last, OrdinaryKey;
    var q1 := Go(r, t);
    q := GoToBucket(q1, t);
  }

  /** From the capacity to the first node, in bucket 0. */
  lemma GoToBucket(r: Run, t: Tid) returns (q: Run)
    requires Good(r) && t in Last(r).threads && Last(r).threads[t].pc.LoadCapacity? && Small(Last(r))
    requires Last(r).threads[t].elem.code == 0
    ensures Good(q) && Extends(r, q, t) && Small(Last(q)) && Own(Last(r), Last(q), t)
    ensures var s, s', th := Last(r), Last(q), Last(q).threads[t];
            && th.op == s.threads[t].op && th.elem == s.threads[t].elem && th.stack == []
            && th.node == s.threads[t].node
            && th.key == OrdinaryKey(0) && th.want == Some(th.elem) && th.head == ROOT
            && (if th.op.OpContains? then th.pc.ContainsLoad? && th.curr == ROOT else th.pc.FindStart?)
            && s'.heap == s.heap && s'.deleted == s.deleted && s'.rec == s.rec
  {
    hide IsRun, TagsWithin, Inv, Last, OrdinaryKey;
    var q1 := Go(r, t);
    q := Go(q1, t);
    TailAndRoot(Last(q1));
  }

  /** `t` is about to return, and does. */
  lemma Return(r: Run, t: Tid) returns (q: Run)
    requires Good(r) && t in Last(r).threads && Last(r).threads[t].pc.Leaving? && Small(Last(r))
    ensures Good(q) && Extends(r, q, t) && Small(Last(q)) && Own(Last(r), Last(q), t)
    ensures var s, s' := Last(r), Last(q);
            && s'.threads[t] == s.threads[t].(pc := Idle) && s'.heap == s.heap && s'.deleted == s.deleted
            && s'.rec.epoch == s.rec.epoch && s'.rec.freed == s.rec.freed
            && s'.rec.ctl[t] == E.Out && s'.rec.parts[t] == s.rec.parts[t].(epoch := None)
            && (s.rec.fates == map[] ==> s'.rec.fates == map[])
  {
    hide IsRun, TagsWithin, Inv, Last;
    q := Go(r, t);
  }

  // ----- Find -----

  lemma FindBegins(r: Run, t: Tid, c: seq<NodeId>, es: seq<Elem>) returns (q: Run)
    requires Good(r) && t in Last(r).threads && Last(r).threads[t].pc.FindStart? && Small(Last(r))
    requires Last(r).threads[t].head == ROOT && ListIs(Last(r).heap, c, es)
    ensures Good(q) && Extends(r, q, t) && Small(Last(q)) && Own(Last(r), Last(q), t)
    ensures var s, th := Last(r), Last(r).threads[t];
            Last(q) == Put(s, t, th.(pred := ROOT, curr := c[1], predAt := s.heap.clock, pc := FindLoad))
  {
    hide IsRun, TagsWithin, Inv, Last, OrdinaryKey;
    q := Go(r, t);
  }

  /** Find passes the nodes of other elements, as far as the tail. */
  lemma {:induction false} FindPasses(r: Run, t: Tid, c: seq<NodeId>, es: seq<Elem>, k: nat) returns (q: Run)
    requires Good(r) && t in Last(r).threads && Last(r).threads[t].pc.FindLoad? && Small(Last(r))
    requires ListIs(Last(r).heap, c, es) && k <= |es| && Last(r).threads[t].pred == c[k]
    requires Last(r).threads[t].curr == c[k + 1]
    requires Last(r).threads[t].key == OrdinaryKey(0) && Last(r).threads[t].want.Some?
    requires Last(r).threads[t].want.value !in es[k..]
    ensures Good(q) && Extends(r, q, t) && Small(Last(q)) && Own(Last(r), Last(q), t)
    ensures var s, s', th, th' := Last(r), Last(q), Last(r).threads[t], Last(q).threads[t];
            && s' == Put(s, t, th') && th' == th.(pred := c[|es|], curr := TAIL, predAt := th'.predAt)
    decreases |es| - k
  {
    hide IsRun, TagsWithin, Inv, Last, OrdinaryKey;
    if k == |es| {
      q := r;
    } else {
      assert es[k] in es[k..] && forall x :: x in es[k + 1..] ==> x in es[k..];
      var q1 := Go(r, t);
      q := FindPasses(q1, t, c, es, k + 1);
    }
  }

  // ----- Add -----

  /** An Add links in its element at the end, and returns. */
  lemma AddRuns(r: Run, t: Tid, c: seq<NodeId>, es: seq<Elem>) returns (q: Run)
    requires Good(r) && t in Last(r).threads && Last(r).threads[t].pc.FindStart? && Small(Last(r))
    requires Last(r).threads[t].op.OpAdd? && Last(r).threads[t].node == NULL && Last(r).threads[t].head == ROOT
    requires Last(r).threads[t].key == OrdinaryKey(0) && Last(r).threads[t].want == Some(Last(r).threads[t].elem)
    requires ListIs(Last(r).heap, c, es) && Last(r).threads[t].elem !in es
    ensures Good(q) && Extends(r, q, t) && Small(Last(q)) && Own(Last(r), Last(q), t)
    ensures var s, s' := Last(r), Last(q);
            && s'.threads[t].pc == Leaving(true) && s'.rec == s.rec && s'.deleted == s.deleted
            && ListIs(s'.heap, c[..|c| - 1] + [s.heap.nextId, TAIL], es + [s.threads[t].elem])
            && s.heap.nextId !in c
  {
    hide IsRun, TagsWithin, Inv, Last, OrdinaryKey, ListIs;
    var e := Last(r).threads[t].elem;
    assert |c| == |es| + 2 by { ListLength(Last(r).heap, c, es); }
    assert es[0..] == es;
    var q1 := FindBegins(r, t, c, es);
    assert c[0] == ROOT by { ListLength(Last(r).heap, c, es); }
    var q2 := FindPasses(q1, t, c, es, 0);
    q := LinkAtEnd(q2, t, c, es);
  }

  lemma ListLength(h: Heap, c: seq<NodeId>, es: seq<Elem>)
    requires ListIs(h, c, es)
    ensures |c| == |es| + 2 && c[0] == ROOT && c[|c| - 1] == TAIL
  {
  }

  lemma LinkAtEnd(r: Run, t: Tid, c: seq<NodeId>, es: seq<Elem>) returns (q: Run)
    requires Good(r) && t in Last(r).threads && Last(r).threads[t].pc.FindLoad? && Small(Last(r))
    requires Last(r).threads[t].op.OpAdd? && Last(r).threads[t].node == NULL
    requires Last(r).threads[t].key == OrdinaryKey(0) && Last(r).threads[t].want == Some(Last(r).threads[t].elem)
    requires ListIs(Last(r).heap, c, es) && Last(r).threads[t].pred == c[|es|] && Last(r).threads[t].curr == TAIL
    ensures Good(q) && Extends(r, q, t) && Small(Last(q)) && Own(Last(r), Last(q), t)
    ensures var s, s' := Last(r), Last(q);
            && s'.threads[t].pc == Leaving(true) && s'.rec == s.rec && s'.deleted == s.deleted
            && ListIs(s'.heap, c[..|c| - 1] + [s.heap.nextId, TAIL], es + [s.threads[t].elem])
            && s.heap.nextId !in c
  {
    hide IsRun, TagsWithin, Inv, Last, OrdinaryKey, ListIs, Extends, Small, Own, Alloc, Publish;
    ListLength(Last(r).heap, c, es);
    var q2 := PublishAtEnd(r, t, c, es);
    OwnHas(Last(r), Last(q2), t);
    q := CountUp(q2, t);
    OwnHas(Last(q2), Last(q), t);
    OneAfterOther(r, q2, q, t);
  }

  lemma PublishAtEnd(r: Run, t: Tid, c: seq<NodeId>, es: seq<Elem>) returns (q: Run)
    requires Good(r) && t in Last(r).threads && Last(r).threads[t].pc.FindLoad? && Small(Last(r))
    requires Last(r).threads[t].op.OpAdd? && Last(r).threads[t].node == NULL
    requires Last(r).threads[t].key == OrdinaryKey(0) && Last(r).threads[t].want == Some(Last(r).threads[t].elem)
    requires ListIs(Last(r).heap, c, es) && Last(r).threads[t].pred == c[|es|] && Last(r).threads[t].curr == TAIL
    ensures Good(q) && Extends(r, q, t) && Small(Last(q)) && Own(Last(r), Last(q), t)
    ensures var s, s' := Last(r), Last(q);
            && s'.threads[t].pc.CountAdd? && s'.rec == s.rec && s'.deleted == s.deleted
            && ListIs(s'.heap, c[..|c| - 1] + [s.heap.nextId, TAIL], es + [s.threads[t].elem])
            && s.heap.nextId !in c
  {
    hide IsRun, TagsWithin, Inv, Last, OrdinaryKey, ListIs;
    var s, th := Last(r), Last(r).threads[t];
    EndOfList(s.heap, c, es);
    var q1 := Go(r, t);
    TailAndRoot(s);
    q := Go(q1, t);
    assert Last(q).heap == Publish(Alloc(s.heap, th.key, th.elem, TAIL, t), c[|es|], s.heap.nextId, t);
    Longer(s.heap, c, es, th.elem, t);
  }

  lemma EndOfList(h: Heap, c: seq<NodeId>, es: seq<Elem>)
    requires ListIs(h, c, es)
    ensures |c| == |es| + 2 && CanSwing(h, c[|es|], TAIL) && c[|es|] in h.nodes && TAIL in h.nodes && c[|es|] != TAIL
  {
    assert c[|es| + 1] == TAIL;
  }

  lemma CountUp(r: Run, t: Tid) returns (q: Run)
    requires Good(r) && t in Last(r).threads && Last(r).threads[t].pc.CountAdd? && Small(Last(r))
    ensures Good(q) && Extends(r, q, t) && Small(Last(q)) && Own(Last(r), Last(q), t)
    ensures var s, s' := Last(r), Last(q);
            && s'.threads[t].pc == Leaving(true) && s'.rec == s.rec && s'.deleted == s.deleted && s'.heap == s.heap
  {
    hide IsRun, TagsWithin, Inv, Last, Small, Own;
    var s := Last(r);
    assert s.capacity == s.maxCapacity by { SmallHas(s); }
    var q1 := Go(r, t);
    var q2 := Go(q1, t);
    q := Go(q2, t);
    assert Last(q).threads == s.threads[t := Last(q).threads[t]];
    Alone(s, Last(q), t);
  }

  lemma SmallHas(s: State)
    requires Small(s)
    ensures s.capacity == 2 == s.maxCapacity && s.rec.parts.Keys == s.threads.Keys == s.rec.ctl.Keys
  {
  }

  lemma Alone(s: State, s': State, t: Tid)
    requires Small(s) && t in s.threads && t in s'.threads
    requires s' == s.(threads := s.threads[t := s'.threads[t]], size := s'.size)
    ensures Small(s') && Own(s, s', t)
  {
    assert s'.rec.parts == s.rec.parts[t := s'.rec.parts[t]] && s'.rec.ctl == s.rec.ctl[t := s'.rec.ctl[t]];
  }

  lemma Longer(h: Heap, c: seq<NodeId>, es: seq<Elem>, e: Elem, t: Tid)
    requires ListIs(h, c, es) && h.nextId !in h.nodes
    ensures h.nextId !in c
    ensures ListIs(Publish(Alloc(h, OrdinaryKey(0), e, TAIL, t), c[|es|], h.nextId, t), c[..|c| - 1] + [h.nextId, TAIL],
            es + [e])
  {
    hide OrdinaryKey;
    var n, m, fs := h.nextId, |es|, es + [e];
    var k, d := Publish(Alloc(h, OrdinaryKey(0), e, TAIL, t), c[m], n, t), c[..|c| - 1] + [n, TAIL];
    assert c[m + 1] == TAIL && TAIL in h.nodes && n != TAIL;
    assert d[m + 1] == n && d[m + 2] == TAIL && |d| == m + 3;
    assert c[m] != TAIL && !h.nodes[c[m + 1]].mark && k.nodes[TAIL] == h.nodes[TAIL];
    assert n in k.nodes && !k.nodes[n].mark && k.nodes[n].next == TAIL;
    forall i | 0 <= i <= m
      ensures d[i] == c[i] && d[i] in k.nodes && d[i] != n && d[i] != TAIL && !k.nodes[d[i]].mark
      ensures k.nodes[d[i]].next == d[i + 1] && k.nodes[d[i]].key == h.nodes[c[i]].key
      ensures k.nodes[d[i]].elem == h.nodes[c[i]].elem
    {
      if i < m {
        Distinct(h, c, es, i, m);
      }
    }
    assert |d| == |fs| + 2 && d[0] == ROOT && d[|d| - 1] == TAIL;
    assert forall i :: 0 <= i < |d| ==> d[i] in k.nodes && !k.nodes[d[i]].mark;
    assert forall i :: 0 <= i < |d| - 1 ==> d[i] != TAIL && k.nodes[d[i]].next == d[i + 1];
    forall i | 0 <= i < |fs|
      ensures Carries(k, d[i + 1], fs[i])
    {
      if i < m {
        assert fs[i] == es[i] && d[i + 1] == c[i + 1] && Carries(h, c[i + 1], es[i]);
      }
    }
    assert ListIs(k, d, fs);
  }

  /** A chain of unmarked nodes that ends at the tail meets no node twice. */
  lemma {:induction false} Distinct(h: Heap, c: seq<NodeId>, es: seq<Elem>, i: nat, j: nat)
    requires ListIs(h, c, es) && i < j < |c|
    ensures c[i] != c[j]
    decreases |c| - j
  {
    if c[i] == c[j] && j < |c| - 1 {
      Distinct(h, c, es, i + 1, j + 1);
    }
  }

  /** `t`, which has joined before, adds an element at the end of the list. */
  lemma Add(r: Run, t: Tid, e: Elem, c: seq<NodeId>, es: seq<Elem>) returns (q: Run)
    requires Good(r) && t in Last(r).threads && Last(r).threads[t].pc.Idle? && t in Last(r).rec.joined && Small(Last(r))
    requires e.code == 0 && ListIs(Last(r).heap, c, es) && e !in es
    ensures Good(q) && Extends(r, q, t) && Small(Last(q)) && Own(Last(r), Last(q), t)
    ensures var s, s' := Last(r), Last(q);
            && s'.threads[t].pc.Idle? && ListIs(s'.heap, c[..|c| - 1] + [s.heap.nextId, TAIL], es + [e])
            && s.heap.nextId !in c
            && s'.rec.epoch == s.rec.epoch && s'.rec.ctl[t].Out? && s'.rec.parts[t].retires == s.rec.parts[t].retires
            && (s.rec.fates == map[] ==> s'.rec.fates == map[])
  {
    hide IsRun, TagsWithin, Inv, Last, OrdinaryKey, ListIs, E.Collect, E.EnterFrees, Own, Extends, Small;
    var q1 := CallAndLoad(r, t, OpAdd, e);
    OwnHas(Last(r), Last(q1), t);
    LoadedKeepsCount(Last(r).rec.parts[t], Last(r).rec.epoch);
    var q2 := AnnounceAndFind(q1, t);
    OwnHas(Last(q1), Last(q2), t);
    var q3 := AddRuns(q2, t, c, es);
    OwnHas(Last(q2), Last(q3), t);
    q := Return(q3, t);
    OwnHas(Last(q3), Last(q), t);
    OneAfterOther(r, q1, q2, t);
    OneAfterOther(r, q2, q3, t);
    OneAfterOther(r, q3, q, t);
  }

  lemma LoadedKeepsCount(p: E.Participant, e: nat)
    requires |p.tags| == |p.bags| == E.BAGS
    ensures E.Loaded(p, e).retires == p.retires && E.Loaded(p, e).announced == e && E.Loaded(p, e).epoch == p.epoch
  {
  }

  // ----- Remove -----

  /** The list holds `e` and nothing else, in node `n`. */
  ghost predicate Single(h: Heap, n: NodeId, e: Elem) {
    && ROOT in h.nodes && n in h.nodes && TAIL in h.nodes && n != ROOT && n != TAIL
    && h.nodes[ROOT].next == n && h.nodes[n].next == TAIL
    && !h.nodes[ROOT].mark && !h.nodes[n].mark && !h.nodes[TAIL].mark
    && h.nodes[n].key == OrdinaryKey(0) && h.nodes[n].elem == e
  }

  lemma OneNode(h: Heap, n: NodeId, e: Elem)
    requires ListIs(h, [ROOT, n, TAIL], [e])
    ensures Single(h, n, e)
  {
    hide OrdinaryKey;
    var c := [ROOT, n, TAIL];
    assert c[0] == ROOT && c[0 + 1] == n && c[1 + 1] == TAIL && [e][0] == e;
    Distinct(h, c, [e], 0, 1);
  }

  /** Find stops at the node of the element, where it is the only one, and the Remove marks it. */
  lemma MarkOnly(r: Run, t: Tid, n: NodeId) returns (q: Run)
    requires Good(r) && t in Last(r).threads && Last(r).threads[t].pc.FindStart? && Small(Last(r))
    requires Last(r).threads[t].op.OpRemove? && Last(r).threads[t].head == ROOT
    requires Last(r).threads[t].key == OrdinaryKey(0) && Last(r).threads[t].want == Some(Last(r).threads[t].elem)
    requires Single(Last(r).heap, n, Last(r).threads[t].elem)
    ensures Good(q) && Extends(r, q, t) && Small(Last(q)) && Own(Last(r), Last(q), t)
    ensures var s, s', th := Last(r), Last(q), Last(q).threads[t];
            && th.pc.RemoveUnlink? && th.pred == ROOT && th.curr == n && th.succ == TAIL && th.op.OpRemove?
            && s'.rec == s.rec && n in s.heap.nodes && s'.heap == MarkNode(s.heap, n, t)
  {
    hide IsRun, TagsWithin, Inv, Last, OrdinaryKey;
    var q1 := FindOne(r, t, n);
    var q2 := Go(q1, t);
    q := Go(q2, t);
  }

  lemma FindOne(r: Run, t: Tid, n: NodeId) returns (q: Run)
    requires Good(r) && t in Last(r).threads && Last(r).threads[t].pc.FindStart? && Small(Last(r))
    requires Last(r).threads[t].op.OpRemove? && Last(r).threads[t].head == ROOT
    requires Last(r).threads[t].key == OrdinaryKey(0) && Last(r).threads[t].want == Some(Last(r).threads[t].elem)
    requires Single(Last(r).heap, n, Last(r).threads[t].elem)
    ensures Good(q) && Extends(r, q, t) && Small(Last(q)) && Own(Last(r), Last(q), t)
    ensures var s, s', th, th' := Last(r), Last(q), Last(r).threads[t], Last(q).threads[t];
            && s' == Put(s, t, th') && th'.pc.RemoveLoad? && th'.pred == ROOT && th'.curr == n && th'.op == th.op
            && th'.elem == th.elem
  {
    hide IsRun, TagsWithin, Inv, Last, OrdinaryKey;
    var q1 := Go(r, t);
    q := FindHits(q1, t, n);
  }

  lemma FindHits(r: Run, t: Tid, n: NodeId) returns (q: Run)
    requires Good(r) && t in Last(r).threads && Last(r).threads[t].pc.FindLoad? && Last(r).threads[t].op.OpRemove?
    requires Last(r).threads[t].want.Some? && Last(r).threads[t].curr == n && n in Last(r).heap.nodes
    requires !Last(r).heap.nodes[n].mark
    requires Matches(Last(r).heap.nodes[n], Last(r).threads[t].key, Last(r).threads[t].want)
    ensures Good(q) && Extends(r, q, t)
    ensures Last(q) == Put(Last(r), t, Last(r).threads[t].(currAt := Last(r).heap.clock, pc := RemoveLoad))
  {
    hide IsRun, TagsWithin, Inv, Last, OrdinaryKey;
    q := Go(r, t);
  }

  /** The Remove takes the node out of the list. */
  lemma UnlinkOnly(r: Run, t: Tid, n: NodeId) returns (q: Run)
    requires Good(r) && t in Last(r).threads && Last(r).threads[t].pc.RemoveUnlink? && Small(Last(r))
    requires Last(r).threads[t].pred == ROOT && Last(r).threads[t].curr == n && Last(r).threads[t].succ == TAIL
    requires ROOT in Last(r).heap.nodes && CanSwing(Last(r).heap, ROOT, n) && n in Last(r).heap.nodes && n != ROOT
    requires n != TAIL
    requires TAIL in Last(r).heap.nodes && !Last(r).heap.nodes[TAIL].mark
    requires Last(r).rec.epoch <= Last(r).rec.parts[t].announced + 2
    ensures Good(q) && Extends(r, q, t) && Small(Last(q)) && Own(Last(r), Last(q), t)
    ensures var s, s' := Last(r), Last(q);
            && s'.threads[t] == s.threads[t].(pc := InReclaimer(KRemove)) && ListIs(s'.heap, [ROOT, TAIL], [])
            && s'.rec == E.UnlinkStep(s.rec, t, n)
  {
    hide IsRun, TagsWithin, Inv, Last, OrdinaryKey;
    q := Do(r, t, OpAdd, NO_ELEM);
  }

  /** Retire puts the node in the current bag. */
  lemma Push(r: Run, t: Tid, n: NodeId) returns (q: Run)
    requires Good(r) && t in Last(r).threads && Last(r).threads[t].pc == InReclaimer(KRemove) && Small(Last(r))
    requires Last(r).rec.ctl[t] == E.Pushing(n)
    ensures Good(q) && Extends(r, q, t) && Small(Last(q)) && Own(Last(r), Last(q), t)
    ensures var s, s', advance := Last(r), Last(q), Last(q).rec.parts[t].retires == 0;
            && s'.heap == s.heap
            && s'.threads[t] == s.threads[t].(pc := if advance then InReclaimer(KRemove) else CountRemove)
            && E.Typed(s.rec, t) && s'.rec.parts[t] == E.Retired(s.rec.parts[t], n) && s'.rec.epoch == s.rec.epoch
            && s'.rec.ctl[t] == (if advance then E.AdvLoad else E.Inside)
  {
    hide IsRun, TagsWithin, Inv, Last, E.Emptied, E.RetireFrees, E.Retired;
    q := Go(r, t);
  }

  /** The Remove is counted, and returns. */
  lemma CountDown(r: Run, t: Tid) returns (q: Run)
    requires Good(r) && t in Last(r).threads && Last(r).threads[t].pc.CountRemove? && Small(Last(r))
    ensures Good(q) && Extends(r, q, t) && Small(Last(q)) && Own(Last(r), Last(q), t)
    ensures var s, s' := Last(r), Last(q);
            && s'.threads[t].pc.Idle? && s'.heap == s.heap && s'.rec.epoch == s.rec.epoch
            && s'.rec.ctl[t] == E.Out && s'.rec.parts[t] == s.rec.parts[t].(epoch := None)
  {
    hide IsRun, TagsWithin, Inv, Last;
    var q1 := Go(r, t);
    q := Return(q1, t);
  }

  // ----- advancing the epoch -----

  /** Every participant in the list from index `from` on is outside its Guard, or has announced `at`. */
  ghost predicate AllAt(r: E.State, at: nat) {
    forall j {:trigger r.joined[j]} :: 0 <= j < |r.joined| ==>
      r.joined[j] in r.parts && (r.parts[r.joined[j]].epoch == None || r.parts[r.joined[j]].epoch == Some(at))
  }

  /** One step of the reclaimer's own code that does not end it. */
  lemma Inner(r: Run, t: Tid) returns (q: Run)
    requires Good(r) && t in Last(r).threads && Last(r).threads[t].pc == InReclaimer(KRemove)
    ensures E.InternalEnabled(Last(r).rec, t) && Good(q) && Extends(r, q, t)
    ensures var rec := E.InternalStep(Last(r).rec, t);
            E.Typed(rec, t) ==>
              var pc := if rec.ctl[t].Inside? then CountRemove else InReclaimer(KRemove);
              Last(q) == Put(Last(r), t, Last(r).threads[t].(pc := pc)).(rec := rec)
  {
    hide IsRun, TagsWithin, Inv, Last, E.InternalStep, E.InternalEnabled;
    q := Go(r, t);
    assert Last(r).threads[t].(pc := InReclaimer(KRemove)) == Last(r).threads[t];
  }

  ghost function WithCtl(s: State, t: Tid, c: E.Ctl): State { s.(rec := E.SetCtl(s.rec, t, c)) }

  lemma ScanGoesOn(r: E.State, t: Tid, at: nat, left: nat, locked: bool)
    requires E.InternalEnabled(r, t) && r.ctl[t] == E.AdvScan(at, left, locked) && AllAt(r, at)
    ensures E.InternalStep(r, t) == E.SetCtl(r, t, E.Scanning(at, left - 1, locked)) && E.Typed(E.InternalStep(r, t), t)
  {
  }

  lemma SameAt(a: E.State, b: E.State, at: nat)
    requires AllAt(a, at) && b.joined == a.joined && b.parts == a.parts
    ensures AllAt(b, at)
  {
  }

  lemma ScanOne(r: Run, t: Tid, at: nat, left: nat, locked: bool) returns (q: Run)
    requires Good(r) && t in Last(r).threads && Last(r).threads[t].pc == InReclaimer(KRemove) && AllAt(Last(r).rec, at)
    requires t in Last(r).rec.ctl && Last(r).rec.ctl[t] == E.AdvScan(at, left, locked) && left > 0
    ensures Good(q) && Extends(r, q, t) && Last(q) == WithCtl(Last(r), t, E.Scanning(at, left - 1, locked))
  {
    hide IsRun, TagsWithin, Inv, Last, AllAt, E.InternalStep;
    q := Inner(r, t);
    ScanGoesOn(Last(r).rec, t, at, left, locked);
    SamePut(Last(r), t);
  }

  lemma {:induction false} ScanRest(r: Run, t: Tid, at: nat, left: nat, locked: bool) returns (q: Run)
    requires Good(r) && t in Last(r).threads && Last(r).threads[t].pc == InReclaimer(KRemove) && AllAt(Last(r).rec, at)
    requires t in Last(r).rec.ctl && Last(r).rec.ctl[t] == E.Scanning(at, left, locked)
    requires left <= |Last(r).rec.joined|
    ensures Good(q) && Extends(r, q, t) && Last(q) == WithCtl(Last(r), t, E.AfterScan(at, locked, true))
    decreases left
  {
    hide IsRun, TagsWithin, Inv, Last, AllAt;
    var s := Last(r);
    if left == 0 {
      q := r;
      assert E.SetCtl(s.rec, t, E.AfterScan(at, locked, true)) == s.rec;
    } else {
      var q1 := ScanOne(r, t, at, left, locked);
      SameAt(s.rec, Last(q1).rec, at);
      q := ScanRest(q1, t, at, left - 1, locked);
      Twice(s.rec, t, E.Scanning(at, left - 1, locked), E.AfterScan(at, locked, true));
    }
  }

  /** A scan from its start to its end. */
  lemma ScanAll(r: Run, t: Tid, at: nat, locked: bool) returns (q: Run)
    requires Good(r) && t in Last(r).threads && Last(r).threads[t].pc == InReclaimer(KRemove) && AllAt(Last(r).rec, at)
    requires Last(r).rec.ctl.Keys == Last(r).rec.parts.Keys && t in Last(r).rec.ctl
    requires Last(r).rec.ctl[t] == E.AdvHead(at, locked)
    ensures Good(q) && Extends(r, q, t) && Last(q) == WithCtl(Last(r), t, E.AfterScan(at, locked, true))
  {
    hide IsRun, TagsWithin, Inv, Last, AllAt;
    var q1 := Inner(r, t);
    assert E.InternalStep(Last(r).rec, t) == E.SetCtl(Last(r).rec, t, E.Scanning(at, |Last(r).rec.joined|, locked));
    assert Last(q1) == WithCtl(Last(r), t, E.Scanning(at, |Last(r).rec.joined|, locked)) by {
      SamePut(Last(r), t);
      ScanIsOutside(at, |Last(r).rec.joined|, locked);
    }
    SameAt(Last(r).rec, Last(q1).rec, at);
    q := ScanRest(q1, t, at, |Last(r).rec.joined|, locked);
    assert E.SetCtl(Last(q1).rec, t, E.AfterScan(at, locked, true)) ==
           E.SetCtl(Last(r).rec, t, E.AfterScan(at, locked, true));
  }

  lemma SamePut(s: State, t: Tid)
    requires t in s.threads
    ensures Put(s, t, s.threads[t]) == s
  {
    assert s.threads[t := s.threads[t]] == s.threads;
  }

  lemma ScanIsOutside(at: nat, left: nat, locked: bool)
    ensures !E.Scanning(at, left, locked).Inside?
  {
  }

  lemma AdvanceNow(r: Run, t: Tid) returns (q: Run)
    requires Good(r) && t in Last(r).threads && Last(r).threads[t].pc == InReclaimer(KRemove)
    requires t in Last(r).rec.ctl && Last(r).rec.ctl[t] == E.AdvCas(Last(r).rec.epoch)
    ensures Good(q) && Extends(r, q, t)
    ensures Last(q) == Put(Last(r), t, Last(r).threads[t].(pc := CountRemove)).
                         (rec := Last(r).rec.(epoch := Last(r).rec.epoch + 1, advancing := false,
                           ctl := Last(r).rec.ctl[t := E.Inside]))
  {
    hide IsRun, TagsWithin, Inv, Last;
    var q1 := Inner(r, t);
    q := Inner(q1, t);
    assert Last(q).rec.ctl == Last(r).rec.ctl[t := E.Inside];
    assert Last(q).threads == Last(r).threads[t := Last(r).threads[t].(pc := CountRemove)];
  }

  /** With everybody else outside or up to date, `t` scans twice and advances the epoch. */
  lemma Advance(r: Run, t: Tid) returns (q: Run)
    requires Good(r) && t in Last(r).threads && Last(r).threads[t].pc == InReclaimer(KRemove) && Small(Last(r))
    requires Last(r).rec.ctl[t].AdvLoad? && !Last(r).rec.advancing && AllAt(Last(r).rec, Last(r).rec.epoch)
    ensures Good(q) && Extends(r, q, t)
    ensures Last(q) == Put(Last(r), t, Last(r).threads[t].(pc := CountRemove)).
                         (rec := Last(r).rec.(epoch := Last(r).rec.epoch + 1, ctl := Last(r).rec.ctl[t := E.Inside]))
  {
    hide IsRun, TagsWithin, Inv, Last, AllAt;
    var s, at := Last(r), Last(r).rec.epoch;
    var q1 := Inner(r, t);
    assert Last(q1) == WithCtl(s, t, E.AdvHead(at, false)) by { SamePut(s, t); }
    SameAt(s.rec, Last(q1).rec, at);
    var q2 := ScanAll(q1, t, at, false);
    assert Last(q2) == WithCtl(s, t, E.AdvLock(at)) by { Twice(s.rec, t, E.AdvHead(at, false), E.AdvLock(at)); }
    SameAt(s.rec, Last(q2).rec, at);
    q := AdvanceLocked(q2, t);
    Twice(s.rec, t, E.AdvLock(at), E.Inside);
  }

  lemma Twice(r: E.State, t: Tid, a: E.Ctl, b: E.Ctl)
    ensures E.SetCtl(E.SetCtl(r, t, a), t, b) == E.SetCtl(r, t, b) && r.ctl[t := a][t := b] == r.ctl[t := b]
  {
    assert r.ctl[t := a][t := b] == r.ctl[t := b];
  }

  lemma LockForAdvance(r: Run, t: Tid) returns (q: Run)
    requires Good(r) && t in Last(r).threads && Last(r).threads[t].pc == InReclaimer(KRemove)
    requires t in Last(r).rec.ctl && Last(r).rec.ctl[t] == E.AdvLock(Last(r).rec.epoch) && !Last(r).rec.advancing
    ensures Good(q) && Extends(r, q, t)
    ensures var s, at := Last(r), Last(r).rec.epoch;
            Last(q) == s.(rec := E.SetCtl(s.rec, t, E.AdvHead(at, true)).(advancing := true))
  {
    hide IsRun, TagsWithin, Inv, Last;
    q := Inner(r, t);
    SamePut(Last(r), t);
  }

  lemma AdvanceLocked(r: Run, t: Tid) returns (q: Run)
    requires Good(r) && t in Last(r).threads && Last(r).threads[t].pc == InReclaimer(KRemove) && Small(Last(r))
    requires Last(r).rec.ctl[t] == E.AdvLock(Last(r).rec.epoch) && !Last(r).rec.advancing
    requires AllAt(Last(r).rec, Last(r).rec.epoch)
    ensures Good(q) && Extends(r, q, t)
    ensures Last(q) == Put(Last(r), t, Last(r).threads[t].(pc := CountRemove)).
                         (rec := Last(r).rec.(epoch := Last(r).rec.epoch + 1, ctl := Last(r).rec.ctl[t := E.Inside]))
  {
    hide IsRun, TagsWithin, Inv, Last, AllAt;
    var s, at := Last(r), Last(r).rec.epoch;
    var q1 := LockForAdvance(r, t);
    var s1 := s.(rec := E.SetCtl(s.rec, t, E.AdvHead(at, true)).(advancing := true));
    SameAt(s.rec, s1.rec, at);
    var q2 := ScanAll(q1, t, at, true);
    assert Last(q2) == s1.(rec := E.SetCtl(s.rec, t, E.AdvCas(at)).(advancing := true)) by {
      Twice(s.rec, t, E.AdvHead(at, true), E.AdvCas(at));
    }
    q := AdvanceNow(q2, t);
    Twice(s.rec, t, E.AdvCas(at), E.Inside);
  }
}
