/**
  Lock-freedom of the whole set: some call returns within a number of steps that is bounded by the state they
  start from, whatever the threads do and however they are scheduled.

  The proof counts. Each thread has a budget: the effect its call may still have, the sentinels it may still
  have to make, and its joining of the reclaimer; and the list has one: its marked nodes. Every successful CAS
  on the list spends some of it, and nothing ever adds to it while no call returns. Every other step takes its
  thread forward through what is left of its call, and that is bounded as long as nothing is spent.
*/
module LockFreedom {
  import opened Common
  import opened SplitOrder
  import opened ListHeap
  import opened Traversal
  import opened LockFreeSet
  import opened LockFreeInv
  import opened LockFreeSteps
  import opened LockFreeFind
  import opened LockFreeSafety
  import opened LockFreeLinear
  import opened Linearizability
  import opened LockFreeProgress
  import LockFreeShape
  import E = Epochs

  // ----- what may still be spent -----

  ghost function Published(h: Heap): set<NodeId> { set n | n in h.nodes && Pub(h, n) }

  ghost function Further(h: Heap, c: NodeId): set<NodeId> { set n | n in h.nodes && Pub(h, n) && Lt(h, c, n) }

  ghost function Marked(h: Heap): set<NodeId> { set n | n in h.nodes && Lk(h, n) && h.nodes[n].mark }

  /** The sentinels that the thread may still have to make in its call. */
  ghost function Sentinels(max: nat, th: Thread): nat {
    match th.pc
    case Idle => max
    case InReclaimer(k) => if k.KEnter? then max else if k.KFind? then |th.stack| else 0
    case LoadCapacity => max
    case LoadBucket(i) => |th.stack| + i
    case BucketCas(_) => if th.stack == [] then 0 else |th.stack| - 1
    case _ => if InList(th.pc) then |th.stack| else 0
  }

  ghost predicate ToJoin(s: State, t: Tid)
    requires t in s.threads
  {
    s.threads[t].pc.Idle? || (t in s.rec.ctl && s.rec.ctl[t].Joining?)
  }

  ghost function Credit(s: State, t: Tid): nat
    requires t in s.threads
  {
    2 * One(!Took(s.threads[t])) + Sentinels(s.maxCapacity, s.threads[t]) + One(ToJoin(s, t))
  }

  ghost function Credits(s: State): map<Tid, nat> { map t | t in s.threads :: Credit(s, t) }

  ghost function Budget(s: State): nat { Sum(Credits(s)) + |Marked(s.heap)| }

  // ----- what is left of a call -----

  /** The steps left in the reclaimer, with `d` participants in the list. */
  function Rank(c: E.Ctl, d: nat): nat {
    match c
    case Out => 0
    case Inside => 0
    case Announcing(_) => 1
    case Reading => 2
    case Joining(head) => if head == d then 3 else 4
    case AdvUnlock => 1
    case AdvCas(_) => 2
    case AdvScan(_, left, locked) => left + if locked then 2 else 4 + d
    case AdvHead(_, locked) => if locked then 3 + d else 5 + 2 * d
    case AdvLock(_) => 4 + d
    case AdvLoad => 6 + 2 * d
    case Pushing(_) => 7 + 2 * d
  }

  ghost function RankOf(r: E.State, t: Tid): nat { if t in r.ctl then Rank(r.ctl[t], |r.joined|) else 0 }

  /** What it costs to search again from the start, if the next CAS is bound to fail; `w` bounds the list. */
  function Again(fails: bool, w: nat): nat { if fails then 2 * w + 5 else 0 }

  /** The steps left of a search, and of the marking of what it finds. */
  ghost function Search(h: Heap, th: Thread, w: nat): nat {
    match th.pc
    case FindStart => 2 * w + 4
    case FindLoad => 2 * |Further(h, th.curr)| + 3 + Again(!CanSwing(h, th.pred, th.curr), w)
    case InReclaimer(_) => 2 * |Further(h, th.curr)| + 3 + Again(!CanSwing(h, th.pred, th.curr), w)
    case FindUnlink => 2 * |Further(h, th.curr)| + 2 + Again(!CanSwing(h, th.pred, th.curr), w)
    case LinkCas => 1 + Again(!CanSwing(h, th.pred, th.curr), w)
    case RemoveLoad => 2 + Again(th.curr in h.nodes && h.nodes[th.curr].mark, w)
    case RemoveMark => 1 + Again(!CanSwing(h, th.curr, th.succ), w)
    case _ => 0
  }

  /** More than any search takes. */
  function Lap(w: nat): nat { 4 * w + 17 }

  /** More than a call takes from the load of the capacity on, with `n` sentinels to make. */
  function Whole(w: nat, n: nat): nat { n * (Lap(w) + 1) + Lap(w) + 3 }

  ghost function Work(s: State, t: Tid, w: nat): nat
    requires t in s.threads
  {
    var th, h := s.threads[t], s.heap;
    match th.pc
    case Idle => Whole(w, s.maxCapacity) + 6
    case InReclaimer(k) =>
      RankOf(s.rec, t) + (match k
                          case KEnter => Whole(w, s.maxCapacity) + 1
                          case KFind => Search(h, th, w) + |th.stack| * Lap(w)
                          case KRemove => 2)
    case LoadCapacity => Whole(w, s.maxCapacity)
    case LoadBucket(i) => (|th.stack| + i) * Lap(w) + i + Lap(w) + 2
    case BucketCas(_) => |th.stack| * Lap(w)
    case ContainsLoad => |Further(h, th.curr)| + 2
    case ContainsMark => 1
    case RemoveUnlink => 2
    case CountRemove => 1
    case CountAdd => 4
    case GrowLoad => 3
    case GrowSize(_) => 2
    case GrowCas(_) => 1
    case Leaving(_) => 0
    case _ => Search(h, th, w) + |th.stack| * Lap(w)
  }

  ghost function Works(s: State, w: nat): map<Tid, nat> { map t | t in s.threads :: Work(s, t, w) }

  // ----- the two kinds of steps -----

  /** As far as anybody but its maker can see, memory is the same. */
  ghost predicate SameNodes(h: Heap, k: Heap) {
    forall n :: (Pub(k, n) <==> Pub(h, n)) && (Pub(h, n) ==> k.nodes[n] == h.nodes[n])
  }

  /** The step of `t` spends some of the budget. */
  ghost predicate Spends(s: State, s': State, t: Tid)
    requires t in s.threads && t in s'.threads
  {
    && Credit(s', t) + |Marked(s'.heap)| < Credit(s, t) + |Marked(s.heap)|
    && |Published(s'.heap)| <= |Published(s.heap)| + 1 && |s'.rec.joined| <= |s.rec.joined| + 1
  }

  /** The step of `t` takes it on, and nobody else sees any of it. */
  ghost predicate Advances(s: State, s': State, t: Tid, w: nat)
    requires t in s.threads && t in s'.threads
  {
    && SameNodes(s.heap, s'.heap) && |s'.rec.joined| == |s.rec.joined|
    && Credit(s', t) <= Credit(s, t) && Work(s', t, w) < Work(s, t, w)
  }

  ghost predicate Moves(s: State, s': State, t: Tid, w: nat) {
    t in s.threads && t in s'.threads && (Spends(s, s', t) || Advances(s, s', t, w))
  }

  // ----- arithmetic -----

  /** A call with `n` sentinels to make comes to its bucket, which is one of no more than `n`. */
  lemma WholeCovers(w: nat, n: nat, b: nat)
    requires b <= n
    ensures b * Lap(w) + b + Lap(w) + 2 < Whole(w, n)
  {
    MoreTimes(b, n, Lap(w) + 1);
    assert b * (Lap(w) + 1) == b * Lap(w) + b;
  }

  lemma {:induction false} FewerFurther(h: Heap, w: nat, c: NodeId)
    requires |Published(h)| <= w
    ensures |Further(h, c)| <= w
  {
    LockFreeShape.Larger(Further(h, c), Published(h));
  }

  /** A hop leaves fewer nodes further on. */
  lemma HopCloser(h: Heap, c: NodeId, d: NodeId)
    requires Pub(h, c) && Pub(h, d) && Lt(h, c, d)
    ensures |Further(h, d)| < |Further(h, c)|
  {
    var a, b := Further(h, d), Further(h, c);
    assert d in b && d !in a;
    LockFreeShape.Larger(a + {d}, b);
  }

  // ----- in the reclaimer -----

  /** The step takes `t` on in the reclaimer, or makes it join. */
  ghost predicate Falls(r: E.State, q: E.State, t: Tid) {
    && t in r.ctl && t in q.ctl && (q.ctl[t].Joining? ==> r.ctl[t].Joining?)
    && (|| (|q.joined| == |r.joined| && RankOf(q, t) < RankOf(r, t))
        || (r.ctl[t].Joining? && !q.ctl[t].Joining? && |q.joined| == |r.joined| + 1))
  }

  lemma ScanFalls(r: E.State, t: Tid, at: nat, left: nat, locked: bool)
    requires t in r.ctl && r.ctl[t] == E.AdvScan(at, left, locked) && 0 < left <= |r.joined|
    requires r.joined[left - 1] in r.parts
    ensures Falls(r, E.ScanStep(r, t, at, left, locked), t)
  {
  }

  lemma LoadFalls(r: E.State, t: Tid)
    requires E.Typed(r, t) && r.ctl[t].Reading?
    ensures Falls(r, E.LoadStep(r, t), t)
  {
    hide E.Loaded, E.Emptied, E.EnterFrees, E.ExpiredBags;
  }

  lemma PushFalls(r: E.State, t: Tid, n: NodeId)
    requires E.Typed(r, t) && r.ctl[t] == E.Pushing(n) && n in r.fates
    ensures Falls(r, E.PushStep(r, t, n), t)
  {
    hide E.Retired, E.Emptied, E.RetireFrees, E.Reuses, E.CurrentBag;
  }

  lemma CasFalls(r: E.State, t: Tid)
    requires E.InternalEnabled(r, t)
    requires r.ctl[t].Joining? || r.ctl[t].AdvLock? || r.ctl[t].AdvCas? || r.ctl[t].AdvUnlock?
    ensures Falls(r, E.InternalStep(r, t), t)
  {
  }

  /** Every step of the reclaimer's own code does. */
  lemma InternalFalls(r: E.State, t: Tid)
    requires E.InternalEnabled(r, t)
    ensures Falls(r, E.InternalStep(r, t), t)
  {
    hide E.LoadStep, E.PushStep, E.ScanStep;
    var c := r.ctl[t];
    if c.Joining? || c.AdvLock? || c.AdvCas? || c.AdvUnlock? {
      hide Falls, E.InternalStep;
      CasFalls(r, t);
    } else if c.AdvScan? {
      ScanFalls(r, t, c.at, c.left, c.locked);
    } else if c.Reading? {
      LoadFalls(r, t);
    } else if c.Pushing? {
      PushFalls(r, t, c.n);
    }
  }

  lemma SameNodesSame(h: Heap)
    ensures SameNodes(h, h)
  {
  }

  lemma ReclaimerMoves(s: State, t: Tid, k: Cont, w: nat)
    requires t in s.threads && s.threads[t].pc == InReclaimer(k) && Ready(s, t) && CtlTie(s.threads[t].pc, s.rec.ctl[t])
    ensures Moves(s, ReclaimerStep(s, t, s.threads[t], k), t, w)
  {
    hide E.InternalStep, E.InternalEnabled, Further, Marked, Published, Lap, Whole, RankOf;
    InternalFalls(s.rec, t);
    var s', th' := ReclaimerStep(s, t, s.threads[t], k), ReclaimerStep(s, t, s.threads[t], k).threads[t];
    SameNodesSame(s.heap);
    assert Credit(s', t) <= Credit(s, t);
    if |s'.rec.joined| == |s.rec.joined| {
      assert Work(s', t, w) < Work(s, t, w);
    }
  }

  // ----- in the code around the list -----

  /** A step that touches nothing but its own thread, the counters and the buckets. */
  ghost predicate Local(s: State, s': State, t: Tid) {
    && t in s.threads && t in s'.threads && s'.heap == s.heap && s'.rec == s.rec && s'.maxCapacity == s.maxCapacity
  }

  lemma LocalMoves(s: State, s': State, t: Tid, w: nat)
    requires Local(s, s', t) && !s'.threads[t].pc.Idle?
    requires Took(s.threads[t]) ==> Took(s'.threads[t])
    requires Sentinels(s.maxCapacity, s'.threads[t]) <= Sentinels(s.maxCapacity, s.threads[t])
    requires Work(s', t, w) < Work(s, t, w)
    ensures Moves(s, s', t, w)
  {
    hide Took, Sentinels, Work;
    SameNodesSame(s.heap);
  }

  lemma CountAddMoves(s: State, t: Tid, w: nat)
    requires t in s.threads && s.threads[t].pc.CountAdd?
    ensures Moves(s, CountAddStep(s, t, s.threads[t]), t, w)
  {
    LocalMoves(s, CountAddStep(s, t, s.threads[t]), t, w) by { hide Moves; }
  }

  lemma CountRemoveMoves(s: State, t: Tid, w: nat)
    requires t in s.threads && s.threads[t].pc.CountRemove? && s.threads[t].op.OpRemove?
    ensures Moves(s, CountRemoveStep(s, t, s.threads[t]), t, w)
  {
    LocalMoves(s, CountRemoveStep(s, t, s.threads[t]), t, w) by { hide Moves; }
  }

  lemma GrowLoadMoves(s: State, t: Tid, w: nat)
    requires t in s.threads && s.threads[t].pc.GrowLoad?
    ensures Moves(s, GrowLoadStep(s, t, s.threads[t]), t, w)
  {
    LocalMoves(s, GrowLoadStep(s, t, s.threads[t]), t, w) by { hide Moves; }
  }

  lemma GrowSizeMoves(s: State, t: Tid, cap: nat, w: nat)
    requires t in s.threads && s.threads[t].pc == GrowSize(cap)
    ensures Moves(s, GrowSizeStep(s, t, s.threads[t], cap), t, w)
  {
    LocalMoves(s, GrowSizeStep(s, t, s.threads[t], cap), t, w) by { hide Moves; }
  }

  lemma GrowCasMoves(s: State, t: Tid, cap: nat, w: nat)
    requires t in s.threads && s.threads[t].pc == GrowCas(cap)
    ensures Moves(s, GrowCasStep(s, t, s.threads[t], cap), t, w)
  {
    LocalMoves(s, GrowCasStep(s, t, s.threads[t], cap), t, w) by { hide Moves; }
  }

  lemma LookMoves(s: State, t: Tid, w: nat)
    requires t in s.threads && s.threads[t].pc.ContainsMark? && s.threads[t].op.OpContains?
    requires s.threads[t].curr in s.heap.nodes
    ensures Moves(s, ContainsMarkStep(s, t, s.threads[t]), t, w)
  {
    LocalMoves(s, ContainsMarkStep(s, t, s.threads[t]), t, w) by { hide Moves; }
  }

  lemma CapacityMoves(s: State, t: Tid, w: nat)
    requires t in s.threads && s.threads[t].pc.LoadCapacity? && 0 < s.capacity <= s.maxCapacity
    ensures Moves(s, LoadCapacityStep(s, t, s.threads[t]), t, w)
  {
    hide Lap, Whole;
    WholeCovers(w, s.maxCapacity, s.threads[t].elem.code % s.capacity);
    LocalMoves(s, LoadCapacityStep(s, t, s.threads[t]), t, w) by { hide Moves; }
  }

  /** What is left once a bucket has been found. */
  lemma StartWork(s: State, t: Tid, th: Thread, w: nat)
    requires t in s.threads && th.head in s.heap.nodes && |Published(s.heap)| <= w
    ensures var s' := Put(s, t, NextBucket(s.heap, th));
            && Work(s', t, w) <= |th.stack| * Lap(w) + 2 * w + 4
            && Sentinels(s.maxCapacity, s'.threads[t]) <= |th.stack| && !s'.threads[t].pc.Idle?
  {
    hide Published, Further, Lap, Matches, AtOrPast, OrdinaryKey, SentinelKey, CanSwing;
    FewerFurther(s.heap, w, th.head);
  }

  lemma BucketTaken(s: State, s': State, t: Tid, w: nat)
    requires t in s.threads && t in s'.threads && s'.threads[t] == s.threads[t] && s'.heap == s.heap && s'.rec == s.rec
    requires s'.maxCapacity == s.maxCapacity
    ensures Work(s', t, w) == Work(s, t, w)
  {
    hide Search, Lap, Whole, Further;
  }

  /** Descending to the parent bucket costs less than its index says. */
  lemma PushWork(k: nat, i: nat, p: nat, w: nat)
    requires p < i
    ensures (k + 1 + p) * Lap(w) + p < (k + i) * Lap(w) + i
  {
    MoreTimes(k + 1 + p, k + i, Lap(w));
  }

  lemma PushMoves(s: State, t: Tid, i: nat, w: nat)
    requires t in s.threads && s.threads[t].pc == LoadBucket(i) && i !in s.buckets && i > 0
    ensures Moves(s, LoadBucketStep(s, t, s.threads[t], i), t, w)
  {
    hide NextBucket, Lap, Search, ParentIndex, Further;
    PushWork(|s.threads[t].stack|, i, ParentIndex(i), w);
    LocalMoves(s, LoadBucketStep(s, t, s.threads[t], i), t, w) by { hide Moves; }
  }

  lemma LoadMoves(s: State, t: Tid, i: nat, w: nat)
    requires t in s.threads && s.threads[t].pc == LoadBucket(i) && i in s.buckets && Ready(s, t)
    requires |Published(s.heap)| <= w
    ensures Moves(s, LoadBucketStep(s, t, s.threads[t], i), t, w)
  {
    hide Published, NextBucket, Lap, Search, Further;
    var th, k := s.threads[t].(head := s.buckets[i]), |s.threads[t].stack|;
    StartWork(s, t, th, w);
    MoreTimes(k, k + i, Lap(w));
    LapCovers(w);
    BucketTakesNothing(s.heap, th);
    LocalMoves(s, LoadBucketStep(s, t, s.threads[t], i), t, w) by { hide Moves; }
  }

  lemma LapCovers(w: nat)
    ensures 4 * w + 16 < Lap(w)
  {
  }

  lemma CasMoves(s: State, t: Tid, n: NodeId, w: nat)
    requires t in s.threads && s.threads[t].pc == BucketCas(n) && Ready(s, t) && |Published(s.heap)| <= w
    ensures Moves(s, BucketCasStep(s, t, s.threads[t], n), t, w)
  {
    hide Published, NextBucket, Lap, Search, Further;
    var th := s.threads[t];
    var th0, k := th.(head := n, stack := th.stack[..|th.stack| - 1]), |th.stack| - 1;
    var s' := BucketCasStep(s, t, th, n);
    StartWork(s, t, th0, w);
    OneMoreTimes(k, Lap(w));
    LapCovers(w);
    BucketTakesNothing(s.heap, th0);
    BucketTaken(Put(s, t, NextBucket(s.heap, th0)), s', t, w);
    LocalMoves(s, s', t, w) by { hide Moves; }
  }

  lemma CallMoves(s: State, t: Tid, op: Op, e: Elem, w: nat)
    requires t in s.threads && s.threads[t].pc.Idle? && t in s.rec.ctl
    ensures Moves(s, CallStep(s, t, s.threads[t], op, e), t, w)
  {
    hide Marked, Published, Whole, Further;
    SameNodesSame(s.heap);
  }

  lemma WalkMoves(s: State, t: Tid, w: nat)
    requires t in s.threads && s.threads[t].pc.ContainsLoad? && s.threads[t].op.OpContains? && Ready(s, t)
    requires var h, c := s.heap, s.threads[t].curr; Pub(h, c) && Pub(h, Nx(h, c)) && Lt(h, c, Nx(h, c))
    ensures Moves(s, ContainsLoadStep(s, t, s.threads[t]), t, w)
  {
    hide Further, Matches, AtOrPast;
    var th, h := s.threads[t], s.heap;
    HopCloser(h, th.curr, Nx(h, th.curr));
    LocalMoves(s, ContainsLoadStep(s, t, th), t, w) by { hide Moves; }
  }

  // ----- searching -----

  lemma FindStartMoves(s: State, t: Tid, w: nat)
    requires t in s.threads && s.threads[t].pc.FindStart? && |Published(s.heap)| <= w
    requires Lk(s.heap, s.threads[t].head) && !s.heap.nodes[s.threads[t].head].mark
    ensures Moves(s, FindStartStep(s, t, s.threads[t]), t, w)
  {
    hide Published, Further, Lap;
    FewerFurther(s.heap, w, s.heap.nodes[s.threads[t].head].next);
    LocalMoves(s, FindStartStep(s, t, s.threads[t]), t, w) by { hide Moves; }
  }

  lemma FindHopMoves(s: State, t: Tid, w: nat)
    requires t in s.threads && s.threads[t].pc.FindLoad?
    requires var h, c := s.heap, s.threads[t].curr; Pub(h, c) && Pub(h, Nx(h, c)) && Lt(h, c, Nx(h, c))
    requires var th, d := s.threads[t], s.heap.nodes[s.threads[t].curr]; !d.mark && !AtOrPast(d, th.key, th.want)
    ensures Moves(s, FindLoadStep(s, t, s.threads[t]), t, w)
  {
    hide Further, Lap, AtOrPast;
    var th, h := s.threads[t], s.heap;
    HopCloser(h, th.curr, Nx(h, th.curr));
    LocalMoves(s, FindLoadStep(s, t, th), t, w) by { hide Moves; }
  }

  lemma FindSeesMark(s: State, t: Tid, w: nat)
    requires t in s.threads && s.threads[t].pc.FindLoad? && s.threads[t].curr in s.heap.nodes
    requires s.heap.nodes[s.threads[t].curr].mark
    ensures Moves(s, FindLoadStep(s, t, s.threads[t]), t, w)
  {
    hide Further, Lap, CanSwing;
    LocalMoves(s, FindLoadStep(s, t, s.threads[t]), t, w) by { hide Moves; }
  }

  /** Find has found what a Remove looks for, or that it has nothing to remove. */
  lemma RemoveFinds(s: State, t: Tid, w: nat)
    requires t in s.threads && s.threads[t].pc.FindLoad? && s.threads[t].curr in s.heap.nodes
    requires !s.heap.nodes[s.threads[t].curr].mark && s.threads[t].want.Some? && s.threads[t].op.OpRemove?
    requires s.threads[t].stack == []
    ensures Moves(s, Found(s, t, s.threads[t].(currAt := s.heap.clock)), t, w)
  {
    hide Further, Lap, CanSwing, Matches;
    LocalMoves(s, Found(s, t, s.threads[t].(currAt := s.heap.clock)), t, w) by { hide Moves; }
  }

  /** What was to be linked in is there already. */
  lemma MatchFinds(s: State, t: Tid, w: nat)
    requires t in s.threads && s.threads[t].pc.FindLoad? && s.threads[t].curr in s.heap.nodes
    requires !(s.threads[t].want.Some? && s.threads[t].op.OpRemove?)
    requires s.threads[t].want.Some? <==> s.threads[t].stack == []
    requires Matches(s.heap.nodes[s.threads[t].curr], s.threads[t].key, s.threads[t].want)
    ensures Moves(s, Found(s, t, s.threads[t].(currAt := s.heap.clock)), t, w)
  {
    hide Further, Lap, CanSwing, Matches;
    LocalMoves(s, Found(s, t, s.threads[t].(currAt := s.heap.clock)), t, w) by { hide Moves; }
  }

  lemma PrepareSame(s: State, t: Tid, th: Thread)
    requires HeapInv(s.heap) && (th.node == NULL || Mine(s.heap, th.node, t))
    ensures SameNodes(s.heap, Prepare(s, t, th).heap)
  {
    hide HeapInv;
    assert s.heap.nextId !in s.heap.nodes by { NewId(s.heap); }
  }

  lemma SameSwing(h: Heap, k: Heap, p: NodeId, c: NodeId)
    requires SameNodes(h, k) && Pub(h, p)
    ensures CanSwing(k, p, c) <==> CanSwing(h, p, c)
  {
  }

  lemma PrepareMoves(s: State, t: Tid, th: Thread, w: nat)
    requires HeapInv(s.heap) && t in s.threads && s.threads[t].pc.FindLoad? && Pub(s.heap, th.pred)
    requires th == s.threads[t].(currAt := th.currAt) && (th.node == NULL || Mine(s.heap, th.node, t))
    ensures Moves(s, Prepare(s, t, th), t, w)
  {
    hide HeapInv, SameNodes, Further, Lap, CanSwing, Alloc, StoreNext, Marked, Published;
    var s' := Prepare(s, t, th);
    PrepareSame(s, t, th);
    SameSwing(s.heap, s'.heap, th.pred, th.curr);
  }

  // ----- the CASes -----

  /** A CAS of a search that fails starts the search over. */
  lemma RetryMoves(s: State, t: Tid, w: nat)
    requires t in s.threads && Fails(s, t)
    requires s.threads[t].pc.FindUnlink? || s.threads[t].pc.LinkCas? || s.threads[t].pc.RemoveMark?
    ensures Moves(s, Put(s, t, s.threads[t].(pc := FindStart)), t, w)
  {
    hide Further, Lap, CanSwing;
    LocalMoves(s, Put(s, t, s.threads[t].(pc := FindStart)), t, w) by { hide Moves; }
  }

  lemma FindRetries(s: State, t: Tid, op: Op, e: Elem, w: nat)
    requires t in s.threads && Ready(s, t) && Fails(s, t)
    requires s.threads[t].pc.FindUnlink? || s.threads[t].pc.LinkCas? || s.threads[t].pc.RemoveMark?
    ensures Moves(s, Next(s, t, op, e), t, w)
  {
    hide Moves, E.UnlinkStep, Publish, Unlink, MarkNode;
    RetryMoves(s, t, w);
  }

  lemma RereadMoves(s: State, t: Tid, w: nat)
    requires t in s.threads && s.threads[t].pc.RemoveLoad? && s.threads[t].curr in s.heap.nodes
    ensures Moves(s, RemoveLoadStep(s, t, s.threads[t]), t, w)
  {
    hide Further, Lap;
    LocalMoves(s, RemoveLoadStep(s, t, s.threads[t]), t, w) by { hide Moves; }
  }

  lemma UnlinkGivesUp(s: State, t: Tid, w: nat)
    requires t in s.threads && s.threads[t].pc.RemoveUnlink? && s.threads[t].curr in s.heap.nodes && Fails(s, t)
    ensures Moves(s, RemoveUnlinkStep(s, t, s.threads[t]), t, w)
  {
    hide Further, Lap, E.UnlinkStep, Unlink;
    LocalMoves(s, RemoveUnlinkStep(s, t, s.threads[t]), t, w) by { hide Moves; }
  }

  lemma PublishNodes(h: Heap, p: NodeId, n: NodeId, t: Tid)
    requires CanPublish(h, p, n, t) && !h.nodes[n].mark
    ensures var k := Publish(h, p, n, t); |Published(k)| <= |Published(h)| + 1 && |Marked(k)| <= |Marked(h)|
  {
    var k := Publish(h, p, n, t);
    LockFreeShape.Larger(Published(k), Published(h) + {n});
    LockFreeShape.Larger(Marked(k), Marked(h));
  }

  lemma MarkNodes(h: Heap, c: NodeId, t: Tid)
    requires c in h.nodes
    ensures var k := MarkNode(h, c, t); |Published(k)| <= |Published(h)| && |Marked(k)| <= |Marked(h)| + 1
  {
    var k := MarkNode(h, c, t);
    LockFreeShape.Larger(Published(k), Published(h));
    LockFreeShape.Larger(Marked(k), Marked(h) + {c});
  }

  lemma UnlinkNodes(h: Heap, p: NodeId, c: NodeId, succ: NodeId, t: Tid)
    requires CanUnlink(h, p, c, succ) && Lk(h, c) && p != c
    ensures var k := Unlink(h, p, c, succ, t); |Published(k)| <= |Published(h)| && |Marked(k)| + 1 <= |Marked(h)|
  {
    var k := Unlink(h, p, c, succ, t);
    LockFreeShape.Larger(Published(k), Published(h));
    assert c in Marked(h) && c !in Marked(k);
    LockFreeShape.Larger(Marked(k) + {c}, Marked(h));
  }

  lemma PublishSpends(s: State, t: Tid, w: nat)
    requires t in s.threads && s.threads[t].pc.LinkCas? && !s.threads[t].pc.Idle?
    requires CanPublish(s.heap, s.threads[t].pred, s.threads[t].node, t) && !s.heap.nodes[s.threads[t].node].mark
    requires CanSwing(s.heap, s.threads[t].pred, s.threads[t].curr)
    requires var th := s.threads[t]; if th.want.Some? then th.stack == [] && th.op.OpAdd? else th.stack != []
    ensures Moves(s, LinkCasStep(s, t, s.threads[t]), t, w)
  {
    hide Marked, Published, CanPublish, Publish, CanSwing;
    PublishNodes(s.heap, s.threads[t].pred, s.threads[t].node, t);
  }

  lemma MarkSpends(s: State, t: Tid, w: nat)
    requires t in s.threads && s.threads[t].pc.RemoveMark? && s.threads[t].op.OpRemove? && s.threads[t].stack == []
    requires CanSwing(s.heap, s.threads[t].curr, s.threads[t].succ)
    ensures Moves(s, RemoveMarkStep(s, t, s.threads[t]), t, w)
  {
    hide Marked, Published, MarkNode;
    MarkNodes(s.heap, s.threads[t].curr, t);
  }

  lemma UnlinkSpends(s: State, t: Tid, op: Op, e: Elem, w: nat)
    requires t in s.threads && Ready(s, t) && (s.threads[t].pc.FindUnlink? || s.threads[t].pc.RemoveUnlink?)
    requires s.threads[t].pc.RemoveUnlink? ==> s.threads[t].op.OpRemove?
    requires var th := s.threads[t];
             CanUnlink(s.heap, th.pred, th.curr, th.succ) && Lk(s.heap, th.curr) &&
             th.pred != th.curr
    ensures Moves(s, Next(s, t, op, e), t, w)
  {
    hide Marked, Published, Unlink;
    UnlinkNodes(s.heap, s.threads[t].pred, s.threads[t].curr, s.threads[t].succ, t);
  }

  // ----- every step -----

  lemma HeadFacts(h: Heap, th: Thread, t: Tid, max: nat)
    requires HeapInv(h) && ThreadOk(h, th, t, max) && th.pc.FindStart?
    ensures Lk(h, th.head) && !h.nodes[th.head].mark
  {
    hide HeapInv, OrdinaryKey, SentinelKey, StackOk, TargetOk;
    HeapHas(h);
    assert KeyOk(th.head, h.nodes[th.head]);
  }

  lemma TargetFacts(h: Heap, th: Thread, t: Tid, max: nat)
    requires ThreadOk(h, th, t, max) && InList(th.pc)
    ensures (th.want.Some? <==> th.stack == []) && TargetOk(th)
    ensures InFind(th.pc) ==> th.node == NULL || Mine(h, th.node, t)
    ensures th.pc.FindLoad? || th.pc.FindUnlink? || th.pc.LinkCas? ==> Pub(h, th.pred) && Pub(h, th.curr)
    ensures th.pc.RemoveLoad? || th.pc.RemoveMark? || th.pc.RemoveUnlink? ==> th.op.OpRemove? && th.curr in h.nodes
    ensures th.pc.ContainsLoad? || th.pc.ContainsMark? ==> Pub(h, th.curr) && th.op.OpContains?
    ensures th.pc.LinkCas? && th.stack == [] ==> th.op.OpAdd?
    ensures th.pc.RemoveMark? ==> th.stack == []
  {
    hide OrdinaryKey, SentinelKey, HeadOk, PredFresh, Passed, Clear, Gap, Ahead, StackOk;
  }

  /** The walk can go on from a node that is not past the key. */
  lemma NextFacts(h: Heap, th: Thread, t: Tid, max: nat)
    requires HeapInv(h) && ThreadOk(h, th, t, max) && (th.pc.FindLoad? || th.pc.ContainsLoad?)
    requires th.curr in h.nodes && !AtOrPast(h.nodes[th.curr], th.key, th.want)
    ensures Pub(h, Nx(h, th.curr)) && Lt(h, th.curr, Nx(h, th.curr))
  {
    hide HeapInv, OrdinaryKey, SentinelKey, HeadOk, PredFresh, Passed, Clear, Gap, Ahead, StackOk, TargetOk;
    HeapHas(h);
    assert Held(h, th.curr, th.since);
    assert TargetOk(th) by { TargetFacts(h, th, t, max); }
    BelowTail(h, th.curr, th);
    HeldNext(h, th.curr, th.since);
  }

  lemma FindLoadMoves(s: State, t: Tid, w: nat)
    requires Inv(s) && t in s.threads && s.threads[t].pc.FindLoad? && Ready(s, t)
    ensures Moves(s, FindLoadStep(s, t, s.threads[t]), t, w)
  {
    hide Inv, HeapInv, ThreadOk, RecTie, DeletedOk, ThreadsOk, BucketsOk, CapacityOk, E.OwnInv, Moves, Prepare,
      TargetOk,
      Matches;
    var th, h := s.threads[t], s.heap;
    Unfold(s, t);
    TargetFacts(h, th, t, s.maxCapacity);
    var d := h.nodes[th.curr];
    if d.mark {
      FindSeesMark(s, t, w);
    } else if !AtOrPast(d, th.key, th.want) {
      NextFacts(h, th, t, s.maxCapacity);
      FindHopMoves(s, t, w);
    } else if th.want.Some? && th.op.OpRemove? {
      RemoveFinds(s, t, w);
    } else if Matches(d, th.key, th.want) {
      MatchFinds(s, t, w);
    } else {
      PrepareMoves(s, t, th.(currAt := h.clock), w);
    }
  }

  lemma SwingMoves(s: State, t: Tid, op: Op, e: Elem, w: nat)
    requires Inv(s) && t in s.threads && Ready(s, t) && AboutToCas(s.threads[t].pc) && Succeeds(s.heap, s.threads[t])
    ensures Moves(s, Next(s, t, op, e), t, w)
  {
    hide Inv, HeapInv, ThreadOk, RecTie, DeletedOk, ThreadsOk, BucketsOk, CapacityOk, E.OwnInv, Moves, TargetOk,
      Evolves,
      E.UnlinkStep, Publish, Unlink, MarkNode;
    var th, h, m := s.threads[t], s.heap, s.maxCapacity;
    Unfold(s, t);
    TargetFacts(h, th, t, m);
    if th.pc.LinkCas? {
      LinkThread(h, th, t, m);
      assert !h.nodes[th.node].mark by { HeapHas(h); }
      PublishSpends(s, t, w);
    } else if th.pc.RemoveMark? {
      MarkSpends(s, t, w);
    } else {
      if th.pc.FindUnlink? {
        UnlinkThread(h, th, t, m);
      } else {
        RemoveThread(h, th, t, m);
      }
      UnlinkEnds(h, th.pred, th.curr, th.succ) by { HeapHas(h); }
      UnlinkSpends(s, t, op, e, w);
    }
  }

  lemma ListMoves(s: State, t: Tid, op: Op, e: Elem, w: nat)
    requires Inv(s) && t in s.threads && Ready(s, t) && InList(s.threads[t].pc) && !s.threads[t].pc.InReclaimer?
    requires |Published(s.heap)| <= w
    ensures Moves(s, Next(s, t, op, e), t, w)
  {
    hide Inv, HeapInv, ThreadOk, RecTie, DeletedOk, ThreadsOk, BucketsOk, CapacityOk, E.OwnInv, Moves, TargetOk,
      Succeeds, Matches, FindLoadStep, FindStartStep, RemoveLoadStep, ContainsLoadStep, ContainsMarkStep,
        FindUnlinkStep,
      LinkCasStep, RemoveMarkStep, RemoveUnlinkStep, Published;
    var th, h, m := s.threads[t], s.heap, s.maxCapacity;
    Unfold(s, t);
    TargetFacts(h, th, t, m);
    if AboutToCas(th.pc) {
      if Succeeds(h, th) {
        SwingMoves(s, t, op, e, w);
      } else if th.pc.RemoveUnlink? {
        UnlinkGivesUp(s, t, w);
      } else {
        FindRetries(s, t, op, e, w);
      }
    } else if th.pc.FindStart? {
      HeadFacts(h, th, t, m);
      FindStartMoves(s, t, w);
    } else if th.pc.FindLoad? {
      FindLoadMoves(s, t, w);
    } else if th.pc.RemoveLoad? {
      RereadMoves(s, t, w);
    } else if th.pc.ContainsLoad? {
      assert !AtOrPast(h.nodes[th.curr], th.key, th.want) by { WalkFacts(h, th, t, m); }
      NextFacts(h, th, t, m);
      WalkMoves(s, t, w);
    } else {
      LookMoves(s, t, w);
    }
  }

  lemma WalkFacts(h: Heap, th: Thread, t: Tid, max: nat)
    requires ThreadOk(h, th, t, max) && th.pc.ContainsLoad?
    ensures th.curr in h.nodes && !AtOrPast(h.nodes[th.curr], th.key, th.want)
  {
    hide OrdinaryKey, SentinelKey, HeadOk, Ahead, StackOk, TargetOk, AtOrPast;
  }

  lemma OtherMoves(s: State, t: Tid, op: Op, e: Elem, w: nat)
    requires Inv(s) && t in s.threads && Ready(s, t) && !InList(s.threads[t].pc) && !s.threads[t].pc.Leaving?
    requires |Published(s.heap)| <= w && !s.threads[t].pc.InReclaimer?
    ensures Moves(s, Next(s, t, op, e), t, w)
  {
    hide Inv, HeapInv, RecTie, DeletedOk, ThreadsOk, BucketsOk, E.OwnInv, Moves, ThreadOk, PowerOfTwo, Published,
      LoadBucketStep, BucketCasStep, LoadCapacityStep, CallStep, CountAddStep, CountRemoveStep, GrowLoadStep,
        GrowSizeStep,
      GrowCasStep;
    var th := s.threads[t];
    Unfold(s, t);
    EffectPc(s.heap, th, t, s.maxCapacity);
    match th.pc
    case Idle =>
      assert t in s.rec.ctl by { TiedTo(s, t); }
      CallMoves(s, t, op, e, w);
    case LoadCapacity => CapacityMoves(s, t, w);
    case LoadBucket(i) =>
      if i in s.buckets {
        LoadMoves(s, t, i, w);
      } else {
        PushMoves(s, t, i, w);
      }
    case BucketCas(n) => CasMoves(s, t, n, w);
    case CountAdd => CountAddMoves(s, t, w);
    case CountRemove => CountRemoveMoves(s, t, w);
    case GrowLoad => GrowLoadMoves(s, t, w);
    case GrowSize(cap) => GrowSizeMoves(s, t, cap, w);
    case GrowCas(cap) => GrowCasMoves(s, t, cap, w);
  }

  lemma TiedTo(s: State, t: Tid)
    requires RecTie(s) && t in s.threads
    ensures t in s.rec.ctl && CtlTie(s.threads[t].pc, s.rec.ctl[t])
  {
  }

  /** Every step but a return spends some of the budget, or takes its thread on. */
  lemma StepMoves(s: State, t: Tid, op: Op, e: Elem, w: nat)
    requires Inv(s) && t in s.threads && Ready(s, t) && !s.threads[t].pc.Leaving? && |Published(s.heap)| <= w
    ensures Moves(s, Next(s, t, op, e), t, w)
  {
    hide Inv, RecTie, Moves, ThreadOk, InList, Published, ReclaimerStep;
    if s.threads[t].pc.InReclaimer? {
      Unfold(s, t);
      TiedTo(s, t);
      ReclaimerMoves(s, t, s.threads[t].pc.k, w);
    } else if InList(s.threads[t].pc) {
      ListMoves(s, t, op, e, w);
    } else {
      OtherMoves(s, t, op, e, w);
    }
  }

  // ----- what the others see of it -----

  lemma InternalOnlyCtl(r: E.State, t: Tid)
    requires E.InternalEnabled(r, t)
    ensures t in E.InternalStep(r, t).ctl && E.InternalStep(r, t).ctl == r.ctl[t := E.InternalStep(r, t).ctl[t]]
  {
    hide E.Loaded, E.Retired, E.Emptied, E.EnterFrees, E.RetireFrees, E.ExpiredBags, E.Reuses, E.CurrentBag, E.ScanStep;
    if r.ctl[t].AdvScan? {
      E.ScanMovesControl(r, t, r.ctl[t].at, r.ctl[t].left, r.ctl[t].locked);
    }
  }

  /** What a step leaves alone, for the threads that do not take it. */
  ghost predicate Apart(s: State, s': State, t: Tid) {
    && t in s.threads && t in s'.threads && s'.threads == s.threads[t := s'.threads[t]]
    && s'.maxCapacity == s.maxCapacity
    && t in s.rec.ctl && t in s'.rec.ctl && s'.rec.ctl == s.rec.ctl[t := s'.rec.ctl[t]]
  }

  lemma FoundApart(s: State, t: Tid, th: Thread)
    requires t in s.threads && t in s.rec.ctl && th.curr in s.heap.nodes
    ensures Apart(s, Found(s, t, th), t)
  {
    hide Matches, Alloc, StoreNext, DeleteNode, Payload;
  }

  lemma ListApart(s: State, t: Tid, op: Op, e: Elem)
    requires t in s.threads && t in s.rec.ctl && Ready(s, t) && InList(s.threads[t].pc) && !s.threads[t].pc.InReclaimer?
    ensures Apart(s, Next(s, t, op, e), t)
  {
    hide ContainsAt;
    if s.threads[t].pc.FindLoad? {
      LoadApart(s, t, s.threads[t]);
    } else if AboutToCas(s.threads[t].pc) {
      hide Apart;
      CasApart(s, t, op, e);
    }
  }

  lemma LoadApart(s: State, t: Tid, th: Thread)
    requires t in s.threads && t in s.rec.ctl && th.curr in s.heap.nodes
    ensures Apart(s, FindLoadStep(s, t, th), t)
  {
    hide Found, AtOrPast;
    FoundApart(s, t, th.(currAt := s.heap.clock));
  }

  lemma FindUnlinkApart(s: State, t: Tid, th: Thread)
    requires t in s.threads && t in s.rec.ctl && th.curr in s.heap.nodes
    ensures Apart(s, FindUnlinkStep(s, t, th), t) && Apart(s, RemoveUnlinkStep(s, t, th), t)
  {
    hide Unlink;
  }

  lemma LinkApart(s: State, t: Tid, th: Thread)
    requires t in s.threads && t in s.rec.ctl
    ensures th.node in s.heap.nodes ==> Apart(s, LinkCasStep(s, t, th), t)
    ensures Apart(s, RemoveMarkStep(s, t, th), t)
  {
    hide Publish, MarkNode;
  }

  lemma CasApart(s: State, t: Tid, op: Op, e: Elem)
    requires t in s.threads && t in s.rec.ctl && Ready(s, t) && AboutToCas(s.threads[t].pc)
    ensures Apart(s, Next(s, t, op, e), t)
  {
    hide Apart, FindUnlinkStep, RemoveUnlinkStep, LinkCasStep, RemoveMarkStep;
    if s.threads[t].pc.LinkCas? || s.threads[t].pc.RemoveMark? {
      LinkApart(s, t, s.threads[t]);
    } else {
      FindUnlinkApart(s, t, s.threads[t]);
    }
  }

  lemma BucketApart(s: State, t: Tid, op: Op, e: Elem)
    requires t in s.threads && t in s.rec.ctl && Ready(s, t)
    requires s.threads[t].pc.LoadCapacity? || s.threads[t].pc.LoadBucket? || s.threads[t].pc.BucketCas?
    ensures Apart(s, Next(s, t, op, e), t)
  {
    hide NextBucket;
  }

  lemma OtherApart(s: State, t: Tid, op: Op, e: Elem)
    requires t in s.threads && t in s.rec.ctl && Ready(s, t) && !InList(s.threads[t].pc)
    requires !s.threads[t].pc.InReclaimer?
    ensures Apart(s, Next(s, t, op, e), t)
  {
    if s.threads[t].pc.LoadCapacity? || s.threads[t].pc.LoadBucket? || s.threads[t].pc.BucketCas? {
      hide Apart, Next;
      BucketApart(s, t, op, e);
    }
  }

  lemma ReclaimerApart(s: State, t: Tid, k: Cont)
    requires t in s.threads && t in s.rec.ctl && s.threads[t].pc == InReclaimer(k) && Ready(s, t)
    ensures Apart(s, ReclaimerStep(s, t, s.threads[t], k), t)
  {
    hide E.InternalStep, E.InternalEnabled;
    InternalOnlyCtl(s.rec, t);
  }

  lemma StepApart(s: State, t: Tid, op: Op, e: Elem)
    requires t in s.threads && t in s.rec.ctl && Ready(s, t)
    ensures Apart(s, Next(s, t, op, e), t)
  {
    if s.threads[t].pc.InReclaimer? {
      hide Apart, ReclaimerStep;
      ReclaimerApart(s, t, s.threads[t].pc.k);
    } else {
      hide Next, Ready, Apart, InList;
      if InList(s.threads[t].pc) {
        ListApart(s, t, op, e);
      } else {
        OtherApart(s, t, op, e);
      }
    }
  }

  lemma OthersCredit(s: State, s': State, t: Tid, u: Tid)
    requires Apart(s, s', t) && u in s.threads && u != t
    ensures u in s'.threads && Credit(s', u) == Credit(s, u)
  {
    hide Took, Sentinels;
  }

  lemma SameFurther(h: Heap, k: Heap, c: NodeId)
    requires SameNodes(h, k) && Pub(h, c)
    ensures Further(k, c) == Further(h, c)
  {
  }

  lemma SameSets(h: Heap, k: Heap)
    requires SameNodes(h, k)
    ensures Marked(k) == Marked(h) && Published(k) == Published(h)
  {
  }

  lemma SameMark(h: Heap, k: Heap, c: NodeId)
    requires SameNodes(h, k) && Pub(h, c)
    ensures c in h.nodes && c in k.nodes && k.nodes[c].mark == h.nodes[c].mark
  {
  }

  lemma ThreadFacts(h: Heap, th: Thread, t: Tid, max: nat)
    requires ThreadOk(h, th, t, max) && InList(th.pc)
    ensures !th.pc.FindStart? ==> Pub(h, th.curr)
    ensures th.pc == InReclaimer(KFind) || th.pc.FindLoad? || th.pc.FindUnlink? || th.pc.LinkCas? ==> Pub(h, th.pred)
  {
    hide OrdinaryKey, SentinelKey, HeadOk, PredFresh, Passed, Clear, Gap, Ahead, StackOk, TargetOk;
  }

  lemma SameSearch(h: Heap, k: Heap, th: Thread, t: Tid, max: nat, w: nat)
    requires SameNodes(h, k) && ThreadOk(h, th, t, max) && InList(th.pc)
    ensures Search(k, th, w) == Search(h, th, w)
    ensures th.pc.ContainsLoad? ==> Further(k, th.curr) == Further(h, th.curr)
  {
    hide ThreadOk, SameNodes, Further, CanSwing;
    ThreadFacts(h, th, t, max);
    if !th.pc.FindStart? {
      SameFurther(h, k, th.curr);
      SameMark(h, k, th.curr);
      SameSwing(h, k, th.curr, th.succ);
    }
    if th.pc == InReclaimer(KFind) || th.pc.FindLoad? || th.pc.FindUnlink? || th.pc.LinkCas? {
      SameSwing(h, k, th.pred, th.curr);
    }
  }

  /** Nobody else has more left to do after a step that does not show. */
  lemma OthersWork(s: State, s': State, t: Tid, u: Tid, w: nat)
    requires Apart(s, s', t) && u in s.threads && u != t && ThreadOk(s.heap, s.threads[u], u, s.maxCapacity)
    requires SameNodes(s.heap, s'.heap) && |s'.rec.joined| == |s.rec.joined|
    ensures u in s'.threads && Work(s', u, w) == Work(s, u, w)
  {
    hide ThreadOk, SameNodes, Search, Further, Lap, Whole, Rank;
    if InList(s.threads[u].pc) {
      SameSearch(s.heap, s'.heap, s.threads[u], u, s.maxCapacity, w);
    }
  }

  // ----- how much it can be -----

  /** A lap for each of `n` sentinels, and one more. */
  function Laps(w: nat, n: nat): nat { (n + 1) * (Lap(w) + 1) }

  /** More than any call has left to do: a list of `w` nodes, `q` participants, `b` sentinels. */
  function Most(w: nat, q: nat, b: nat): nat { Laps(w, b) + 4 * w + 2 * q + 15 }

  lemma RankBound(r: E.State, t: Tid, q: nat)
    requires E.OwnInv(r) && |r.joined| <= q
    ensures RankOf(r, t) <= 2 * q + 7
  {
    if t in r.ctl {
      assert t in r.parts && E.CtlOk(r, t) by { CtlHere(r, t); }
    }
  }

  lemma CtlHere(r: E.State, t: Tid)
    requires E.OwnInv(r) && t in r.ctl
    ensures t in r.parts && E.CtlOk(r, t)
  {
    hide E.BagsOwn, E.FreedOnce, E.PlacesOk, E.CtlOk;
  }

  lemma SearchBound(h: Heap, th: Thread, w: nat)
    requires |Published(h)| <= w
    ensures Search(h, th, w) <= 4 * w + 8 && |Further(h, th.curr)| <= w
  {
    hide Published, Further, CanSwing;
    FewerFurther(h, w, th.curr);
  }

  lemma LapsCover(w: nat, n: nat, b: nat)
    requires n <= b
    ensures Laps(w, n) <= Laps(w, b)
    ensures n * Lap(w) + n + Lap(w) < Laps(w, n)
    ensures Whole(w, n) == Laps(w, n) + 2 && (n + 1) * Lap(w) <= Laps(w, n)
  {
    hide Lap;
    MoreTimes(n + 1, b + 1, Lap(w) + 1);
    OneMoreTimes(n, Lap(w) + 1);
    OneMoreTimes(n, Lap(w));
    assert n * (Lap(w) + 1) == n * Lap(w) + n;
    assert (n + 1) * (Lap(w) + 1) == (n + 1) * Lap(w) + n + 1;
  }

  lemma EnteringBound(s: State, t: Tid, w: nat)
    requires t in s.threads
    requires var pc := s.threads[t].pc; pc.Idle? || pc == InReclaimer(KEnter) || pc.LoadCapacity?
    ensures Work(s, t, w) <= Laps(w, Sentinels(s.maxCapacity, s.threads[t])) + RankOf(s.rec, t) + 8
  {
    hide Laps, Whole, RankOf;
    LapsCover(w, s.maxCapacity, s.maxCapacity);
  }

  lemma BucketBound(s: State, t: Tid, w: nat)
    requires t in s.threads && (s.threads[t].pc.LoadBucket? || s.threads[t].pc.BucketCas?)
    ensures Work(s, t, w) <= Laps(w, Sentinels(s.maxCapacity, s.threads[t])) + 2
  {
    hide Laps, Lap;
    var n := Sentinels(s.maxCapacity, s.threads[t]);
    LapsCover(w, n, n);
    if s.threads[t].pc.BucketCas? && s.threads[t].stack == [] {
      assert |s.threads[t].stack| * Lap(w) == 0;
    }
  }

  lemma ListBound(s: State, t: Tid, w: nat)
    requires t in s.threads && InList(s.threads[t].pc) && |Published(s.heap)| <= w
    ensures Work(s, t, w) <= Laps(w, Sentinels(s.maxCapacity, s.threads[t])) + RankOf(s.rec, t) + 4 * w + 8
  {
    hide Laps, Lap, RankOf, Search, Published, Further;
    var n := Sentinels(s.maxCapacity, s.threads[t]);
    LapsCover(w, n, n);
    SearchBound(s.heap, s.threads[t], w);
    LapCovers(w);
  }

  lemma WorkBound(s: State, t: Tid, w: nat, q: nat, b: nat)
    requires t in s.threads && E.OwnInv(s.rec) && |Published(s.heap)| <= w && |s.rec.joined| <= q
    requires Sentinels(s.maxCapacity, s.threads[t]) <= b
    ensures Work(s, t, w) <= Most(w, q, b)
  {
    hide E.OwnInv, Published, RankOf, Laps, Sentinels;
    var n, pc := Sentinels(s.maxCapacity, s.threads[t]), s.threads[t].pc;
    RankBound(s.rec, t, q);
    LapsCover(w, n, b);
    if pc.Idle? || pc == InReclaimer(KEnter) || pc.LoadCapacity? {
      hide Work;
      EnteringBound(s, t, w);
    } else if pc.LoadBucket? || pc.BucketCas? {
      hide Work;
      BucketBound(s, t, w);
    } else if InList(pc) {
      hide Work;
      ListBound(s, t, w);
    }
  }

  // ----- counting down -----

  /** The bounds that the count is made with; none of them is ever exceeded while no call returns. */
  ghost predicate Within(s: State, w: nat, q: nat, b: nat) {
    |Published(s.heap)| + Budget(s) <= w && |s.rec.joined| + Budget(s) <= q && Budget(s) <= b
  }

  lemma CreditInBudget(s: State, t: Tid)
    requires t in s.threads
    ensures Credit(s, t) <= Budget(s)
  {
    hide Credit, Marked;
    SumChanged(Credits(s), t, 0);
  }

  /** All that is left of all calls is bounded. */
  lemma AllBound(s: State, w: nat, q: nat, b: nat)
    requires Inv(s) && Within(s, w, q, b)
    ensures Sum(Works(s, w)) <= |s.threads| * Most(w, q, b)
  {
    hide Inv, Work, Most, Budget, Published;
    forall t | t in s.threads
      ensures Work(s, t, w) <= Most(w, q, b)
    {
      CreditInBudget(s, t);
      Unfold(s, t) by { hide ThreadOk; }
      WorkBound(s, t, w, q, b);
    }
    var f := Works(s, w);
    assert f.Keys == s.threads.Keys && |f| == |f.Keys| && |s.threads| == |s.threads.Keys|;
    SumBound(f, Most(w, q, b));
  }

  /** What is left to be done in all: the budget, at the price of everything for each of it, and the work. */
  ghost function Left(s: State, w: nat, m: nat): nat { Price(Budget(s), |s.threads|, m) + Sum(Works(s, w)) }

  lemma CreditsChange(s: State, s': State, t: Tid)
    requires Apart(s, s', t)
    ensures Sum(Credits(s')) + Credit(s, t) == Sum(Credits(s)) + Credit(s', t)
  {
    hide Credit;
    forall u | u in s.threads && u != t
      ensures Credit(s', u) == Credit(s, u)
    {
      OthersCredit(s, s', t, u);
    }
    assert Credits(s') == Credits(s)[t := Credit(s', t)];
    SumChanged(Credits(s), t, Credit(s', t));
  }

  lemma WorksChange(s: State, s': State, t: Tid, w: nat)
    requires Inv(s) && Apart(s, s', t) && SameNodes(s.heap, s'.heap) && |s'.rec.joined| == |s.rec.joined|
    ensures Sum(Works(s', w)) + Work(s, t, w) == Sum(Works(s, w)) + Work(s', t, w)
  {
    hide Work, Inv, SameNodes, ThreadOk;
    forall u | u in s.threads && u != t
      ensures Work(s', u, w) == Work(s, u, w)
    {
      Unfold(s, u);
      OthersWork(s, s', t, u, w);
    }
    assert Works(s', w) == Works(s, w)[t := Work(s', t, w)];
    SumChanged(Works(s, w), t, Work(s', t, w));
  }

  lemma SameCount(s: State, s': State, t: Tid)
    requires Apart(s, s', t)
    ensures |s'.threads| == |s.threads|
  {
    assert s'.threads.Keys == s.threads.Keys;
    assert |s'.threads| == |s'.threads.Keys| && |s.threads| == |s.threads.Keys|;
  }

  /** Whoever steps, less is left than before. */
  lemma LeftFalls(s: State, s': State, t: Tid, w: nat, q: nat, b: nat)
    requires Inv(s) && Inv(s') && Apart(s, s', t) && Moves(s, s', t, w) && Within(s, w, q, b)
    ensures Within(s', w, q, b) && Left(s', w, Most(w, q, b)) < Left(s, w, Most(w, q, b))
  {
    hide Inv, Apart, Credit, Work, SameNodes, Published, Marked, Most, Works, Credits;
    var m := Most(w, q, b);
    CreditsChange(s, s', t);
    SameCount(s, s', t);
    if Spends(s, s', t) {
      AllBound(s', w, q, b);
      OneLess(Budget(s), Budget(s'), |s.threads| * m + 1);
    } else {
      SameSets(s.heap, s'.heap);
      WorksChange(s, s', t, w);
      MoreTimes(Budget(s'), Budget(s), |s.threads| * m + 1);
    }
  }

  // ----- lock-freedom -----

  /** Step `k` of the run is the return of a call. */
  ghost predicate Returns(r: Run, k: nat)
    requires IsRun(r) && k < |r.events|
  {
    r.events[k].t in r.states[k].threads && r.states[k].threads[r.events[k].t].pc.Leaving?
  }

  lemma {:induction false} CountedDown(r: Run, i: nat, j: nat, w: nat, q: nat, b: nat)
    requires IsRun(r) && i <= j < |r.states| && Within(r.states[i], w, q, b)
    requires forall k :: i <= k < j ==> !Returns(r, k)
    ensures Within(r.states[j], w, q, b)
    ensures Left(r.states[j], w, Most(w, q, b)) + (j - i) <= Left(r.states[i], w, Most(w, q, b))
  {
    hide Inv, Next, Ready, Init, Left, Most, Moves, Apart, RecTie;
    if i < j {
      CountedDown(r, i, j - 1, w, q, b);
      Always(r, j - 1);
      Always(r, j);
      var s, e := r.states[j - 1], r.events[j - 1];
      assert IsStep(s, e, r.states[j]) && !Returns(r, j - 1);
      StepMoves(s, e.t, e.op, e.elem, w);
      Unfold(s, e.t) by { hide ThreadOk; }
      TiedTo(s, e.t);
      StepApart(s, e.t, e.op, e.elem);
      LeftFalls(s, r.states[j], e.t, w, q, b);
    }
  }

  /**
    The number of steps from `s` within which some call returns. The budget is 3 for each thread, the
    sentinels it may have to make, and the marked nodes; it, the nodes and the participants bound the rest.
  */
  ghost function Bound(s: State): nat {
    var b := Budget(s);
    var m := Most(|Published(s.heap)| + b, |s.rec.joined| + b, b);
    Price(b, |s.threads|, m) + Times(|s.threads|, m)
  }

  /** Between two states of a run between which no call returns there are at most so many steps. */
  lemma StepsBetweenReturns(r: Run, i: nat, j: nat)
    requires IsRun(r) && i <= j < |r.states| && forall k :: i <= k < j ==> !Returns(r, k)
    ensures j - i <= Bound(r.states[i])
  {
    hide IsRun, Inv, Most, Budget, Published, Returns;
    var s, b := r.states[i], Budget(r.states[i]);
    var w, q := |Published(s.heap)| + b, |s.rec.joined| + b;
    CountedDown(r, i, j, w, q, b);
    Always(r, i);
    AllBound(s, w, q, b);
  }

  /**
    Lock-freedom: in every run, whatever the threads do and however they are scheduled, some call returns
    within a number of steps bounded by the state that they start from.
  */
  lemma SomeCallReturns(r: Run, i: nat, j: nat) returns (k: nat)
    requires IsRun(r) && i <= j < |r.states| && j - i > Bound(r.states[i])
    ensures i <= k < j && Returns(r, k)
  {
    hide IsRun, Bound, Returns;
    RunLength(r);
    if forall k :: i <= k < j ==> !Returns(r, k) {
      StepsBetweenReturns(r, i, j);
    }
    k :| i <= k < j && Returns(r, k);
  }
}
