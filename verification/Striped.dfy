/**
  HashSetStriped as a state machine (src/HashSetStriped.h): a fixed number of mutexes, one per stripe of
  hash codes, over a table that grows. One step is one access to shared memory, or one operation on a
  mutex; a thread that finds a mutex taken stays where it is.
*/
module Striped {
  import opened Common
  import opened Bits
  import opened Tables
  import opened SetHistory

  datatype PC =
    | Idle
    | LockStripe                                    // scoped_lock on the element's stripe
    | LoadCapacity                                  // GetBucket: capacity_
    | ReadBucket(capacity: nat)                     // find in the bucket
    | WriteBucket(index: nat, bucket: Bucket)       // push_back or erase
    | Count                                         // set_size_
    | Unlock(res: bool)
    | PolicyCapacity                                // Policy: capacity_
    | PolicySize(capacity: nat)                     // Policy: set_size_
    | LockAll(i: nat)                               // ScopedVectorLock, ascending
    | CheckCapacity                                 // Policy again, under all the locks
    | CheckSize(capacity: nat)
    | ResizeCapacity
    | Rebuild(newCapacity: nat)                     // the elements are moved out of the table ...
    | StoreTable(newTable: Table)                   // ... and the new table put in its place
    | StoreCapacity(newCapacity: nat)
    | UnlockAll(i: nat)                             // ~ScopedVectorLock
    | Returning(res: bool)

  datatype Thread = Thread(pc: PC, op: Op, elem: Elem)

  /** `log` is history: each operation, with its answer, in the order in which they take effect. */
  datatype State = State(stripes: nat, table: Table, capacity: nat, size: int, owner: map<nat, Tid>,
                         threads: map<Tid, Thread>, log: seq<Entry>)

  function Stripe(s: State, e: Elem): nat
    requires s.stripes > 0
  {
    e.code % s.stripes
  }

  function Put(s: State, t: Tid, th: Thread): State { s.(threads := s.threads[t := th]) }

  function Log(s: State, t: Tid, th: Thread, res: bool): seq<Entry> { s.log + [Entry(t, th.op, th.elem, res)] }

  // ----- one step of thread `t` -----

  /** The operations that do not change the bucket are done; the others go on to write it. */
  function ReadBucketStep(s: State, t: Tid, th: Thread, capacity: nat): State
    requires 0 < capacity && th.elem.code % capacity < |s.table|
  {
    var h := th.elem.code % capacity;
    var bucket := s.table[h];
    var found := IndexOf(bucket, th.elem) < |bucket|;
    if th.op.OpContains? || found == th.op.OpAdd? then
      var res := th.op.OpContains? && found;
      Put(s, t, th.(pc := Unlock(res))).(log := Log(s, t, th, res))
    else Put(s, t, th.(pc := WriteBucket(h, bucket)))
  }

  function WriteBucketStep(s: State, t: Tid, th: Thread, h: nat, bucket: Bucket): State
    requires h < |s.table| && (th.op.OpRemove? ==> th.elem in bucket)
  {
    var to := if th.op.OpRemove? then Erased(bucket, IndexOf(bucket, th.elem)) else bucket + [th.elem];
    Put(s, t, th.(pc := Count)).(table := s.table[h := to], log := Log(s, t, th, true))
  }

  function CountStep(s: State, t: Tid, th: Thread): State {
    Put(s, t, th.(pc := Unlock(true))).(size := if th.op.OpRemove? then s.size - 1 else s.size + 1)
  }

  function LockStripeStep(s: State, t: Tid, th: Thread): State
    requires s.stripes > 0
  {
    var w := Stripe(s, th.elem);
    if w in s.owner then s else Put(s, t, th.(pc := LoadCapacity)).(owner := s.owner[w := t])
  }

  function UnlockStep(s: State, t: Tid, th: Thread, res: bool): State
    requires s.stripes > 0
  {
    Put(s, t, th.(pc := if th.op.OpAdd? && res then PolicyCapacity else Returning(res))).
      (owner := s.owner - {Stripe(s, th.elem)})
  }

  function LockAllStep(s: State, t: Tid, th: Thread, i: nat): State {
    if i in s.owner then s
    else Put(s, t, th.(pc := if i + 1 == s.stripes then CheckCapacity else LockAll(i + 1))).(owner := s.owner[i := t])
  }

  function UnlockAllStep(s: State, t: Tid, th: Thread, i: nat): State {
    Put(s, t, th.(pc := if i + 1 == s.stripes then Returning(true) else UnlockAll(i + 1))).(owner := s.owner - {i})
  }

  /** Moving the elements out leaves buckets that hold none. */
  function RebuildStep(s: State, t: Tid, th: Thread, newCapacity: nat): State
    requires newCapacity > 0
  {
    Put(s, t, th.(pc := StoreTable(Rehash(s.table, newCapacity)))).(table := seq(|s.table|, _ => []))
  }

  /** What a step uses must be there; shown to hold in every reachable state. */
  predicate Ready(s: State, t: Tid) {
    && t in s.threads && s.stripes > 0
    && var th := s.threads[t];
       match th.pc
       case ReadBucket(c) => 0 < c && th.elem.code % c < |s.table|
       case WriteBucket(h, b) => h < |s.table| && (th.op.OpRemove? ==> th.elem in b)
       case Rebuild(n) => n > 0
       case _ => true
  }

  /** One step of `t`; `op` and `e` are what it calls when it is idle. */
  function Next(s: State, t: Tid, op: Op, e: Elem): State
    requires Ready(s, t)
  {
    var th := s.threads[t];
    match th.pc
    case Idle => Put(s, t, Thread(LockStripe, op, e))
    case LockStripe => LockStripeStep(s, t, th)
    case LoadCapacity => Put(s, t, th.(pc := ReadBucket(s.capacity)))
    case ReadBucket(c) => ReadBucketStep(s, t, th, c)
    case WriteBucket(h, b) => WriteBucketStep(s, t, th, h, b)
    case Count => CountStep(s, t, th)
    case Unlock(res) => UnlockStep(s, t, th, res)
    case PolicyCapacity => Put(s, t, th.(pc := PolicySize(s.capacity)))
    case PolicySize(c) => Put(s, t, th.(pc := if s.size > Limit(c) then LockAll(0) else Returning(true)))
    case LockAll(i) => LockAllStep(s, t, th, i)
    case CheckCapacity => Put(s, t, th.(pc := CheckSize(s.capacity)))
    case CheckSize(c) => Put(s, t, th.(pc := if s.size > Limit(c) then ResizeCapacity else UnlockAll(0)))
    case ResizeCapacity => Put(s, t, th.(pc := Rebuild(2 * s.capacity)))
    case Rebuild(n) => RebuildStep(s, t, th, n)
    case StoreTable(table) => Put(s, t, th.(pc := StoreCapacity(|table|))).(table := table)
    case StoreCapacity(n) => Put(s, t, th.(pc := UnlockAll(0))).(capacity := n)
    case UnlockAll(i) => UnlockAllStep(s, t, th, i)
    case Returning(res) => Put(s, t, th.(pc := Idle))
  }

  ghost predicate Init(s: State) {
    && s.stripes > 0 && s.capacity == s.stripes && s.table == seq(s.capacity, _ => []) && s.size == 0
    && s.owner == map[] && s.log == [] && forall t :: t in s.threads ==> s.threads[t].pc.Idle?
  }

  // ----- the invariant -----

  /** Between locking its stripe and unlocking it. */
  predicate InBucket(pc: PC) { pc.LoadCapacity? || pc.ReadBucket? || pc.WriteBucket? || pc.Count? || pc.Unlock? }

  /** Holding every stripe. */
  predicate Exclusive(pc: PC) {
    pc.CheckCapacity? || pc.CheckSize? || pc.ResizeCapacity? || pc.Rebuild? || pc.StoreTable? || pc.StoreCapacity?
  }

  predicate Holds(th: Thread, stripes: nat, w: nat)
    requires stripes > 0
  {
    if InBucket(th.pc) then w == th.elem.code % stripes
    else if th.pc.LockAll? then w < th.pc.i
    else if th.pc.UnlockAll? then th.pc.i <= w < stripes
    else Exclusive(th.pc) && w < stripes
  }

  /** The mutexes are taken by exactly the threads that are where they hold them. */
  ghost predicate OwnersOk(s: State) {
    && s.stripes > 0
    && (forall w :: w in s.owner ==> s.owner[w] in s.threads && Holds(s.threads[s.owner[w]], s.stripes, w))
    && forall t, w: nat {:trigger Holds(s.threads[t], s.stripes, w)} ::
         t in s.threads && Holds(s.threads[t], s.stripes, w) ==> w in s.owner && s.owner[w] == t
  }

  /** The new table is there and the old one gone, or the capacity still that of the old one. */
  predicate Moving(pc: PC) { pc.StoreTable? || pc.StoreCapacity? }

  ghost predicate TableIs(table: Table, capacity: nat, log: seq<Entry>) {
    Placed(table) && |table| == capacity && Elements(table) == Played(log)
  }

  ghost predicate DataOk(s: State) {
    && Legal(s.log)
    && ((forall t :: t in s.threads ==> !Moving(s.threads[t].pc)) ==> TableIs(s.table, s.capacity, s.log))
  }

  /** The capacity is the number of stripes, doubled some number of times. */
  ghost predicate CapacityOk(s: State) { exists k: nat :: s.capacity == s.stripes * Pow2(k) }

  /** An Add that has counted its element and has not seen, or made, enough room for it. */
  predicate Pending(th: Thread) {
    th.op.OpAdd? &&
    (th.pc == Unlock(true) || th.pc.PolicyCapacity? || th.pc.PolicySize? || th.pc.LockAll? || Exclusive(th.pc))
  }

  ghost predicate ThreadOk(s: State, th: Thread) {
    && (th.pc.PolicyCapacity? || th.pc.PolicySize? || th.pc.LockAll? || Exclusive(th.pc) || th.pc.UnlockAll? ==>
       th.op.OpAdd?)
    && match th.pc
       case ReadBucket(c) => c == s.capacity
       case WriteBucket(h, b) =>
         && s.capacity > 0 && h == th.elem.code % s.capacity && h < |s.table| && s.table[h] == b
         && !th.op.OpContains? && (th.elem in b <==> th.op.OpRemove?)
       case Count => !th.op.OpContains? && (th.op.OpAdd? ==> th.elem in Played(s.log))
       case PolicySize(c) => c <= s.capacity
       case LockAll(i) => i < s.stripes
       case CheckSize(c) => c == s.capacity
       case Rebuild(n) => n == 2 * s.capacity
       case StoreTable(table) => TableIs(table, 2 * s.capacity, s.log)
       case StoreCapacity(n) => n == 2 * s.capacity && TableIs(s.table, n, s.log)
       case UnlockAll(i) => i < s.stripes
       case _ => true
  }

  ghost predicate ThreadsOk(s: State) { forall t :: t in s.threads ==> ThreadOk(s, s.threads[t]) }

  ghost predicate Inv(s: State) { OwnersOk(s) && CapacityOk(s) && DataOk(s) && ThreadsOk(s) }
}
