/**
  HashSetLockFree as a state machine: the split-ordered list, the bucket table, the capacity and size
  counters, and the reclaimer, run by any number of threads (src/HashSetLockFree.h, src/BucketList.h,
  src/EpochReclaimer.h).

  One step is one load, store or CAS of a shared word, with the thread-local work that follows it up to
  the next one. A thread's `pc` names the access it is about to make.
*/
module LockFreeSet {
  import opened Common
  import opened Bits
  import opened SplitOrder
  import opened ListHeap
  import opened Traversal
  import E = Epochs

  const WORD: nat := 0x1_0000_0000_0000_0000

  /** What the caller of the reclaimer goes on with. */
  datatype Cont = KEnter | KFind | KRemove

  datatype PC =
    | Idle                          // between operations
    | InReclaimer(k: Cont)          // in the code of the Guard or of Retire
    | LoadCapacity
    | LoadBucket(i: nat)            // GetBucketList: buckets_[i]
    | FindStart                     // Find: head_->next
    | FindLoad                      // Find: curr->next
    | FindUnlink                    // Find: CAS pred->next past the marked curr
    | LinkCas                       // Add and SentinelFor: CAS pred->next to the new node
    | RemoveLoad                    // Remove: curr->next
    | RemoveMark                    // Remove: AttemptMark
    | RemoveUnlink                  // Remove: the one attempt to unlink
    | ContainsLoad                  // Contains: curr->next
    | ContainsMark                  // Contains: IsMarked
    | BucketCas(sentinel: NodeId)   // InitializeBucket: CAS buckets_[index]
    | CountAdd                      // set_size_.fetch_add
    | CountRemove                   // set_size_.fetch_sub
    | GrowLoad                      // ResizeIfNecessary: capacity_
    | GrowSize(cap: nat)            // ResizeIfNecessary: set_size_
    | GrowCas(cap: nat)             // ResizeIfNecessary: CAS capacity_
    | Leaving(res: bool)            // the result is known, the Guard about to close

  /**
    The locals of a thread. `stack` holds the buckets whose sentinels are still to be made, the target
    bucket first; `key` and `want` are the arguments of the Find, Contains or SentinelFor at hand. The
    others are history: when the Guard opened, when Find read `pred`'s and `curr`'s words, and when Remove
    read `curr`'s word again, and whether it found it marked.
  */
  datatype Thread = Thread(pc: PC, op: Op, elem: Elem, bucket: nat, stack: seq<nat>,
                           key: nat, want: Option<Elem>,
                           head: NodeId, pred: NodeId, curr: NodeId, succ: NodeId, node: NodeId,
                           since: nat, predAt: nat, currAt: nat, againAt: nat, sawMark: bool)

  datatype State = State(heap: Heap, rec: E.State, threads: map<Tid, Thread>, buckets: map<nat, NodeId>,
                         capacity: nat, maxCapacity: nat, size: nat, deleted: multiset<NodeId>)

  // ----- local work -----

  function Top(stack: seq<nat>): nat
    requires stack != []
  {
    stack[|stack| - 1]
  }

  function Payload(want: Option<Elem>): Elem { if want.Some? then want.value else NO_ELEM }

  /** Contains, once `curr` is known: walk on, look at the mark, or give up. */
  ghost function ContainsAt(h: Heap, th: Thread, c: NodeId): Thread
    requires c in h.nodes
  {
    var d := h.nodes[c];
    th.(curr := c,
        pc := if !AtOrPast(d, th.key, th.want) then ContainsLoad
              else if Matches(d, th.key, th.want) then ContainsMark
              else Leaving(false))
  }

  /** The bucket `th.head` is ready: make the next sentinel that is needed, or start the operation. */
  ghost function NextBucket(h: Heap, th: Thread): Thread
    requires th.head in h.nodes
  {
    if th.stack == [] then
      var start := th.(key := OrdinaryKey(th.elem.code), want := Some(th.elem));
      if th.op.OpContains? then ContainsAt(h, start, th.head) else start.(pc := FindStart)
    else
      var start := th.(key := SentinelKey(Top(th.stack)), want := None);
      if h.nodes[th.head].key == start.key then start.(pc := BucketCas(th.head)) else start.(pc := FindStart)
  }

  ghost function Put(s: State, t: Tid, th: Thread): State { s.(threads := s.threads[t := th]) }

  /** The node made for an earlier attempt is not needed after all. */
  ghost function DeleteNode(s: State, th: Thread): multiset<NodeId> {
    if th.node == NULL then s.deleted else s.deleted + multiset{th.node}
  }

  /** The node to link in is made, or pointed at the successor it now has to have. */
  ghost function Prepare(s: State, t: Tid, th: Thread): State {
    if th.node == NULL then
      Put(s, t, th.(node := s.heap.nextId, pc := LinkCas)).(heap := Alloc(s.heap, th.key, Payload(th.want), th.curr, t))
    else if th.node in s.heap.nodes then
      Put(s, t, th.(pc := LinkCas)).(heap := StoreNext(s.heap, th.node, th.curr))
    else s
  }

  /** Find has returned `(pred, curr)`. */
  ghost function Found(s: State, t: Tid, th: Thread): State
    requires th.curr in s.heap.nodes
  {
    var found := Matches(s.heap.nodes[th.curr], th.key, th.want);
    if th.want.Some? && th.op.OpRemove? then
      Put(s, t, th.(pc := if found then RemoveLoad else Leaving(false)))
    else if !found then Prepare(s, t, th)
    else Put(s, t, th.(node := NULL, pc := if th.want == None then BucketCas(th.curr) else Leaving(false))).
           (deleted := DeleteNode(s, th))
  }

  // ----- one step of thread `t` for each kind of access -----

  ghost function CallStep(s: State, t: Tid, th: Thread, op: Op, e: Elem): State {
    Put(s, t, th.(pc := InReclaimer(KEnter), op := op, elem := e, stack := [], node := NULL)).
      (rec := E.BeginStep(s.rec, t))
  }

  ghost function Resume(k: Cont): PC {
    match k
    case KEnter => LoadCapacity
    case KFind => FindLoad
    case KRemove => CountRemove
  }

  ghost function ReclaimerStep(s: State, t: Tid, th: Thread, k: Cont): State
    requires E.Enabled(s.rec, t, E.Internal)
  {
    var rec := E.InternalStep(s.rec, t);
    var back := E.Typed(rec, t) && rec.ctl[t].Inside?;
    Put(s, t, if !back then th
              else if k.KEnter? then th.(pc := Resume(k), since := s.heap.clock)
              else th.(pc := Resume(k))).(rec := rec)
  }

  ghost function LoadCapacityStep(s: State, t: Tid, th: Thread): State
    requires s.capacity > 0
  {
    var b := th.elem.code % s.capacity;
    Put(s, t, th.(bucket := b, stack := [], pc := LoadBucket(b)))
  }

  ghost function LoadBucketStep(s: State, t: Tid, th: Thread, i: nat): State
    requires if i in s.buckets then s.buckets[i] in s.heap.nodes else i > 0
  {
    Put(s, t, if i in s.buckets then NextBucket(s.heap, th.(head := s.buckets[i]))
              else th.(stack := th.stack + [i], pc := LoadBucket(ParentIndex(i))))
  }

  ghost function FindStartStep(s: State, t: Tid, th: Thread): State
    requires th.head in s.heap.nodes
  {
    Put(s, t, th.(pred := th.head, curr := s.heap.nodes[th.head].next, predAt := s.heap.clock, pc := FindLoad))
  }

  ghost function FindLoadStep(s: State, t: Tid, th: Thread): State
    requires th.curr in s.heap.nodes
  {
    var d := s.heap.nodes[th.curr];
    if d.mark then Put(s, t, th.(succ := d.next, pc := FindUnlink))
    else if AtOrPast(d, th.key, th.want) then Found(s, t, th.(currAt := s.heap.clock))
    else Put(s, t, th.(pred := th.curr, curr := d.next, predAt := s.heap.clock, pc := FindLoad))
  }

  ghost function FindUnlinkStep(s: State, t: Tid, th: Thread): State
    requires th.curr in s.heap.nodes
  {
    if CanSwing(s.heap, th.pred, th.curr) then
      Put(s, t, th.(curr := th.succ, predAt := s.heap.clock + 1, pc := InReclaimer(KFind))).
        (heap := Unlink(s.heap, th.pred, th.curr, th.succ, t), rec := E.UnlinkStep(s.rec, t, th.curr))
    else Put(s, t, th.(pc := FindStart))
  }

  ghost function LinkCasStep(s: State, t: Tid, th: Thread): State
    requires th.node in s.heap.nodes
  {
    if CanSwing(s.heap, th.pred, th.curr) then
      Put(s, t, th.(node := NULL, pc := if th.want == None then BucketCas(th.node) else CountAdd)).
        (heap := Publish(s.heap, th.pred, th.node, t))
    else Put(s, t, th.(pc := FindStart))
  }

  ghost function RemoveLoadStep(s: State, t: Tid, th: Thread): State
    requires th.curr in s.heap.nodes
  {
    var d := s.heap.nodes[th.curr];
    Put(s, t, th.(succ := d.next, againAt := s.heap.clock, sawMark := d.mark, pc := RemoveMark))
  }

  ghost function RemoveMarkStep(s: State, t: Tid, th: Thread): State
  {
    if CanSwing(s.heap, th.curr, th.succ) then
      Put(s, t, th.(pc := RemoveUnlink)).(heap := MarkNode(s.heap, th.curr, t))
    else Put(s, t, th.(pc := FindStart))
  }

  ghost function RemoveUnlinkStep(s: State, t: Tid, th: Thread): State
    requires th.curr in s.heap.nodes
  {
    if CanSwing(s.heap, th.pred, th.curr) then
      Put(s, t, th.(pc := InReclaimer(KRemove))).
        (heap := Unlink(s.heap, th.pred, th.curr, th.succ, t), rec := E.UnlinkStep(s.rec, t, th.curr))
    else Put(s, t, th.(pc := CountRemove))
  }

  ghost function ContainsLoadStep(s: State, t: Tid, th: Thread): State
    requires th.curr in s.heap.nodes && s.heap.nodes[th.curr].next in s.heap.nodes
  {
    Put(s, t, ContainsAt(s.heap, th, s.heap.nodes[th.curr].next))
  }

  ghost function ContainsMarkStep(s: State, t: Tid, th: Thread): State
    requires th.curr in s.heap.nodes
  {
    Put(s, t, th.(pc := Leaving(!s.heap.nodes[th.curr].mark)))
  }

  ghost function BucketCasStep(s: State, t: Tid, th: Thread, n: NodeId): State
    requires n in s.heap.nodes && th.stack != []
  {
    var i := Top(th.stack);
    Put(s, t, NextBucket(s.heap, th.(head := n, stack := th.stack[..|th.stack| - 1]))).
      (buckets := if i in s.buckets then s.buckets else s.buckets[i := n])
  }

  ghost function CountAddStep(s: State, t: Tid, th: Thread): State {
    Put(s, t, th.(pc := GrowLoad)).(size := (s.size + 1) % WORD)
  }

  ghost function CountRemoveStep(s: State, t: Tid, th: Thread): State {
    Put(s, t, th.(pc := Leaving(true))).(size := (s.size + WORD - 1) % WORD)
  }

  ghost function GrowLoadStep(s: State, t: Tid, th: Thread): State {
    Put(s, t, th.(pc := GrowSize(s.capacity)))
  }

  ghost function GrowSizeStep(s: State, t: Tid, th: Thread, cap: nat): State {
    Put(s, t, th.(pc := if cap < s.maxCapacity && cap * 3 / 4 < s.size then GrowCas(cap) else Leaving(true)))
  }

  ghost function GrowCasStep(s: State, t: Tid, th: Thread, cap: nat): State {
    Put(s, t, th.(pc := Leaving(true))).(capacity := if s.capacity == cap then cap * 2 else s.capacity)
  }

  ghost function LeaveStep(s: State, t: Tid, th: Thread): State
    requires E.Enabled(s.rec, t, E.Leave)
  {
    Put(s, t, th.(pc := Idle)).(rec := E.LeaveStep(s.rec, t))
  }

  /** What a step reads must be there; `Ready` is shown to hold in every reachable state. */
  ghost predicate Ready(s: State, t: Tid) {
    && t in s.threads
    && var th, h := s.threads[t], s.heap;
       match th.pc
       case Idle => true
       case InReclaimer(k) => E.Enabled(s.rec, t, E.Internal)
       case LoadCapacity => s.capacity > 0
       case LoadBucket(i) => if i in s.buckets then s.buckets[i] in h.nodes else i > 0
       case FindStart => th.head in h.nodes
       case FindLoad => th.curr in h.nodes
       case FindUnlink => th.curr in h.nodes
       case LinkCas => th.node in h.nodes
       case RemoveLoad => th.curr in h.nodes
       case RemoveMark => th.curr in h.nodes
       case RemoveUnlink => th.curr in h.nodes
       case ContainsLoad => th.curr in h.nodes && h.nodes[th.curr].next in h.nodes
       case ContainsMark => th.curr in h.nodes
       case BucketCas(n) => n in h.nodes && th.stack != []
       case Leaving(res) => E.Enabled(s.rec, t, E.Leave)
       case _ => true
  }

  /** One step of thread `t`; `op` and `e` are what it calls when it is idle. */
  ghost function Next(s: State, t: Tid, op: Op, e: Elem): State
    requires Ready(s, t)
  {
    var th := s.threads[t];
    match th.pc
    case Idle => CallStep(s, t, th, op, e)
    case InReclaimer(k) => ReclaimerStep(s, t, th, k)
    case LoadCapacity => LoadCapacityStep(s, t, th)
    case LoadBucket(i) => LoadBucketStep(s, t, th, i)
    case FindStart => FindStartStep(s, t, th)
    case FindLoad => FindLoadStep(s, t, th)
    case FindUnlink => FindUnlinkStep(s, t, th)
    case LinkCas => LinkCasStep(s, t, th)
    case RemoveLoad => RemoveLoadStep(s, t, th)
    case RemoveMark => RemoveMarkStep(s, t, th)
    case RemoveUnlink => RemoveUnlinkStep(s, t, th)
    case ContainsLoad => ContainsLoadStep(s, t, th)
    case ContainsMark => ContainsMarkStep(s, t, th)
    case BucketCas(n) => BucketCasStep(s, t, th, n)
    case CountAdd => CountAddStep(s, t, th)
    case CountRemove => CountRemoveStep(s, t, th)
    case GrowLoad => GrowLoadStep(s, t, th)
    case GrowSize(cap) => GrowSizeStep(s, t, th, cap)
    case GrowCas(cap) => GrowCasStep(s, t, th, cap)
    case Leaving(res) => LeaveStep(s, t, th)
  }

  // ----- the initial state -----

  ghost predicate PowerOfTwo(c: nat) { exists k: nat :: c == Pow2(k) }

  const ROOT_NODE: Node := Node(0, NO_ELEM, TAIL, false, Linked, 0, 0, 0, 0)
  const TAIL_NODE: Node := Node(TAIL_KEY, NO_ELEM, NULL, false, Linked, 1, 0, 0, 0)

  /** The constructor: a root, a tail, bucket 0, and validated capacities. */
  ghost predicate Init(s: State) {
    && s.heap == Heap(map[ROOT := ROOT_NODE, TAIL := TAIL_NODE], 2, 3)
    && E.Init(s.rec) && s.rec.parts.Keys == s.threads.Keys
    && (forall t :: t in s.threads ==> s.threads[t].pc == Idle && s.threads[t].node == NULL)
    && s.buckets == map[0 := ROOT] && s.size == 0 && s.deleted == multiset{}
    && PowerOfTwo(s.capacity) && PowerOfTwo(s.maxCapacity)
    && 2 <= s.capacity <= s.maxCapacity <= Pow2(CODE_BITS)
  }
}
