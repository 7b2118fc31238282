/** What holds in every reachable state of the lock-free set, thread by thread. */
module LockFreeInv {
  import opened Common
  import opened SplitOrder
  import opened ListHeap
  import opened Traversal
  import opened LockFreeSet

  // ----- what a thread knows, by where it is -----

  ghost predicate SentinelAt(h: Heap, n: NodeId, key: nat) {
    Lk(h, n) && h.nodes[n].key == key && SentinelKeyForm(key)
  }

  /** Each bucket on the stack is the parent of the one below it; the bottom one is the target. */
  ghost predicate StackOk(th: Thread, max: nat) {
    && th.bucket < max && SentinelKey(th.bucket) < OrdinaryKey(th.elem.code)
    && (forall j :: 0 <= j < |th.stack| ==> 0 < th.stack[j] < max)
    && (forall j :: 0 <= j < |th.stack| - 1 ==> th.stack[j + 1] == ParentIndex(th.stack[j]))
    && (th.stack != [] ==> th.stack[0] == th.bucket)
  }

  /** The key looked for is that of the sentinel on top of the stack, or of the element. */
  ghost predicate TargetOk(th: Thread) {
    if th.stack == [] then th.key == OrdinaryKey(th.elem.code) && th.want == Some(th.elem)
    else th.key == SentinelKey(Top(th.stack)) && th.want == None
  }

  /** The list is entered at a linked sentinel that lies before the key. */
  ghost predicate HeadOk(h: Heap, th: Thread) {
    Lk(h, th.head) && SentinelKeyForm(h.nodes[th.head].key) && h.nodes[th.head].key < th.key
  }

  /** The word of `n` is still what was read at time `at`, or another thread has written it since. */
  ghost predicate Charged(h: Heap, n: NodeId, at: nat, t: Tid) {
    n in h.nodes && h.nodes[n].writer != t && at <= h.nodes[n].wroteAt
  }

  ghost predicate PredFresh(h: Heap, th: Thread, t: Tid) {
    th.predAt <= h.clock && (CanSwing(h, th.pred, th.curr) || Charged(h, th.pred, th.predAt, t))
  }

  /** Find, between two accesses. */
  ghost predicate Searching(h: Heap, th: Thread, t: Tid) {
    && HeadOk(h, th) && Held(h, th.pred, th.since) && Held(h, th.curr, th.since)
    && Passed(h, th.pred, th.key, th.want) && Clear(h, th.curr, th.key, th.want)
    && Gap(h, th.curr, th.since, th.key, th.want) && PredFresh(h, th, t)
  }

  /** Remove, once Find has found the element. */
  ghost predicate Removing(h: Heap, th: Thread, t: Tid) {
    && HeadOk(h, th) && th.op.OpRemove? && th.stack == []
    && Held(h, th.pred, th.since) && Held(h, th.curr, th.since)
    && Passed(h, th.pred, th.key, th.want) && Matches(h.nodes[th.curr], th.key, th.want)
    && PredFresh(h, th, t) && th.currAt <= h.clock
  }

  /**
    Remove has read the word of `curr` again: it was marked already, or is as it was then, or has been written
    since.
  */
  ghost predicate Reread(h: Heap, th: Thread, t: Tid) {
    && th.curr in h.nodes && th.againAt <= h.clock
    && (th.sawMark ==> h.nodes[th.curr].mark && Charged(h, th.curr, th.currAt, t))
    && (!th.sawMark ==> CanSwing(h, th.curr, th.succ) || Charged(h, th.curr, th.againAt, t))
  }

  /** The node to be linked in is still private, and is the one wanted. */
  ghost predicate NodeOk(h: Heap, th: Thread, t: Tid) {
    th.node == NULL ||
    (Mine(h, th.node, t) && h.nodes[th.node].key == th.key && h.nodes[th.node].elem == Payload(th.want))
  }

  /** Contains, at `curr`. */
  ghost predicate Walking(h: Heap, th: Thread) {
    && th.op.OpContains? && th.stack == [] && HeadOk(h, th)
    && Held(h, th.curr, th.since) && Ahead(h, th.curr, th.since, th.elem)
  }

  /** A result that is not witnessed by a write of the thread's own is witnessed by a past state. */
  ghost predicate Justified(h: Heap, th: Thread, res: bool) {
    match th.op
    case OpAdd => !res ==> SawIn(h, th.since, th.elem)
    case OpRemove => !res ==> SawOut(h, th.since, th.elem)
    case OpContains => if res then SawIn(h, th.since, th.elem) else SawOut(h, th.since, th.elem)
  }

  ghost predicate InFind(pc: PC) {
    pc.FindStart? || pc.FindLoad? || pc.FindUnlink? || pc == InReclaimer(KFind) || pc.LinkCas?
  }

  ghost predicate InList(pc: PC) {
    InFind(pc) || pc.RemoveLoad? || pc.RemoveMark? || pc.RemoveUnlink? || pc.ContainsLoad? || pc.ContainsMark?
  }

  /** The Guard of a thread in one of these places is open, and its announcement made. */
  ghost predicate Guarded(pc: PC) { pc != Idle && pc != InReclaimer(KEnter) }

  ghost predicate PcOk(h: Heap, th: Thread, t: Tid, max: nat) {
    match th.pc
    case Idle => true
    case InReclaimer(k) =>
      (k.KFind? ==> Searching(h, th, t)) && (k.KRemove? ==> th.op.OpRemove?)
    case LoadCapacity => true
    case LoadBucket(i) =>
      StackOk(th, max) && i < max && (if th.stack == [] then i == th.bucket else i == ParentIndex(Top(th.stack)))
    case FindStart => HeadOk(h, th)
    case FindLoad => Searching(h, th, t)
    case FindUnlink => Searching(h, th, t) && h.nodes[th.curr].mark && h.nodes[th.curr].next == th.succ
    case LinkCas =>
      && Searching(h, th, t) && th.key < h.nodes[th.curr].key && th.node != NULL && Mine(h, th.node, t)
      && h.nodes[th.node].next == th.curr && (th.stack == [] ==> th.op.OpAdd?)
    case RemoveLoad => Removing(h, th, t) && (h.nodes[th.curr].mark ==> Charged(h, th.curr, th.currAt, t))
    case RemoveMark => Removing(h, th, t) && Held(h, th.succ, th.since) && Reread(h, th, t)
    case RemoveUnlink => Removing(h, th, t) && h.nodes[th.curr].mark && h.nodes[th.curr].next == th.succ
    case ContainsLoad => Walking(h, th) && !AtOrPast(h.nodes[th.curr], th.key, th.want)
    case ContainsMark => Walking(h, th) && Matches(h.nodes[th.curr], th.key, th.want)
    case BucketCas(n) =>
      StackOk(th, max) && th.stack != [] && SentinelAt(h, n, SentinelKey(Top(th.stack)))
    case CountAdd => th.op.OpAdd?
    case CountRemove => th.op.OpRemove?
    case GrowLoad => th.op.OpAdd?
    case GrowSize(_) => th.op.OpAdd?
    case GrowCas(cap) => th.op.OpAdd? && cap < max
    case Leaving(res) => Justified(h, th, res)
  }

  ghost predicate ThreadOk(h: Heap, th: Thread, t: Tid, max: nat) {
    && (Guarded(th.pc) ==> th.since <= h.clock)
    && (InList(th.pc) ==> StackOk(th, max) && TargetOk(th))
    && (InFind(th.pc) ==> (th.stack == [] ==> !th.op.OpContains?))
    && (if InFind(th.pc) then NodeOk(h, th, t) else th.node == NULL)
    && (th.op.OpRemove? && th.stack == [] ==> th.node == NULL)
    && PcOk(h, th, t, max)
  }

  // ----- stability -----

  lemma SentinelStable(h: Heap, k: Heap, u: Tid, n: NodeId)
    requires Evolves(h, k, u) && Kinds(k) && Lk(h, n) && SentinelKeyForm(h.nodes[n].key)
    ensures Lk(k, n) && k.nodes[n].key == h.nodes[n].key
  {
    assert KeyOk(n, k.nodes[n]);
  }

  /** The word of `n` is the same in both. */
  ghost predicate SameWord(h: Heap, k: Heap, n: NodeId) {
    n in h.nodes && n in k.nodes && k.nodes[n].next == h.nodes[n].next && k.nodes[n].mark == h.nodes[n].mark &&
    k.nodes[n].writer == h.nodes[n].writer && k.nodes[n].wroteAt == h.nodes[n].wroteAt
  }

  lemma ChargedStable(h: Heap, k: Heap, u: Tid, t: Tid, n: NodeId, c: NodeId, at: nat)
    requires Evolves(h, k, u) && (u != t || SameWord(h, k, n)) && at <= h.clock && Pub(h, n)
    requires CanSwing(h, n, c) || Charged(h, n, at, t)
    ensures CanSwing(k, n, c) || Charged(k, n, at, t)
  {
    assert NodeEvolves(h.nodes[n], k.nodes[n], h.clock, u);
  }

  lemma SearchingStable(h: Heap, k: Heap, u: Tid, th: Thread, t: Tid)
    requires Evolves(h, k, u) && (u != t || SameWord(h, k, th.pred)) && Births(h) && Kinds(k) && th.since <= h.clock
    requires Searching(h, th, t)
    ensures Searching(k, th, t)
  {
    SentinelStable(h, k, u, th.head);
    HeldStable(h, k, u, th.pred, th.since);
    HeldStable(h, k, u, th.curr, th.since);
    PassedStable(h, k, u, th.pred, th.key, th.want);
    ClearStable(h, k, u, th.curr, th.key, th.want);
    if th.want.Some? && th.key < h.nodes[th.curr].key {
      SawOutStable(h, k, u, th.since, th.want.value);
    }
    ChargedStable(h, k, u, t, th.pred, th.curr, th.predAt);
  }

  lemma RemovingStable(h: Heap, k: Heap, u: Tid, th: Thread, t: Tid)
    requires Evolves(h, k, u) && (u != t || SameWord(h, k, th.pred)) && Births(h) && Kinds(k) && th.since <= h.clock
    requires Removing(h, th, t)
    ensures Removing(k, th, t)
  {
    SentinelStable(h, k, u, th.head);
    HeldStable(h, k, u, th.pred, th.since);
    HeldStable(h, k, u, th.curr, th.since);
    PassedStable(h, k, u, th.pred, th.key, th.want);
    ChargedStable(h, k, u, t, th.pred, th.curr, th.predAt);
  }

  lemma WalkingStable(h: Heap, k: Heap, u: Tid, th: Thread)
    requires Evolves(h, k, u) && Kinds(k) && th.since <= h.clock && Walking(h, th)
    ensures Walking(k, th)
  {
    SentinelStable(h, k, u, th.head);
    HeldStable(h, k, u, th.curr, th.since);
    AheadStable(h, k, u, th.curr, th.since, th.elem);
  }

  lemma JustifiedStable(h: Heap, k: Heap, u: Tid, th: Thread, res: bool)
    requires Evolves(h, k, u) && th.since <= h.clock && Justified(h, th, res)
    ensures Justified(k, th, res)
  {
    if SawIn(h, th.since, th.elem) {
      SawInStable(h, k, u, th.since, th.elem);
    }
    if SawOut(h, th.since, th.elem) {
      SawOutStable(h, k, u, th.since, th.elem);
    }
  }

  lemma PcStable(h: Heap, k: Heap, u: Tid, th: Thread, t: Tid, max: nat)
    requires Evolves(h, k, u) && u != t && Births(h) && Kinds(k)
    requires Guarded(th.pc) ==> th.since <= h.clock
    requires PcOk(h, th, t, max)
    ensures PcOk(k, th, t, max)
  {
    hide StackOk, TargetOk, Births, Kinds;
    match th.pc
    case InReclaimer(KFind) => SearchingStable(h, k, u, th, t);
    case FindStart => SentinelStable(h, k, u, th.head);
    case FindLoad => SearchingStable(h, k, u, th, t);
    case FindUnlink => SearchingStable(h, k, u, th, t); HeldStable(h, k, u, th.curr, th.since);
    case LinkCas => SearchingStable(h, k, u, th, t); HeldStable(h, k, u, th.curr, th.since);
    case RemoveLoad => RemoveStable(h, k, u, th, t);
    case RemoveMark => RemoveStable(h, k, u, th, t); HeldStable(h, k, u, th.succ, th.since);
    case RemoveUnlink => RemovingStable(h, k, u, th, t); HeldStable(h, k, u, th.curr, th.since);
    case ContainsLoad => WalkingStable(h, k, u, th); HeldStable(h, k, u, th.curr, th.since);
    case ContainsMark => WalkingStable(h, k, u, th); HeldStable(h, k, u, th.curr, th.since);
    case BucketCas(n) => SentinelStable(h, k, u, n);
    case Leaving(res) => JustifiedStable(h, k, u, th, res);
    case _ =>
  }

  lemma RemoveStable(h: Heap, k: Heap, u: Tid, th: Thread, t: Tid)
    requires Evolves(h, k, u) && u != t && Births(h) && Kinds(k) && th.since <= h.clock
    requires Removing(h, th, t)
    ensures Removing(k, th, t)
    ensures (h.nodes[th.curr].mark ==> Charged(h, th.curr, th.currAt, t)) ==>
            (k.nodes[th.curr].mark ==> Charged(k, th.curr, th.currAt, t))
    ensures Reread(h, th, t) ==> Reread(k, th, t)
  {
    RemovingStable(h, k, u, th, t);
    assert NodeEvolves(h.nodes[th.curr], k.nodes[th.curr], h.clock, u);
  }

  /** What a thread knows survives every step of every other thread. */
  lemma ThreadStable(h: Heap, k: Heap, u: Tid, th: Thread, t: Tid, max: nat)
    requires Evolves(h, k, u) && u != t && Births(h) && Kinds(k)
    requires ThreadOk(h, th, t, max)
    ensures ThreadOk(k, th, t, max)
  {
    hide StackOk, TargetOk, Births, Kinds;
    PcStable(h, k, u, th, t, max) by { hide *; }
    assert h.clock <= k.clock;
    if InFind(th.pc) && th.node != NULL {
      assert NodeEvolves(h.nodes[th.node], k.nodes[th.node], h.clock, u);
    }
  }
}
