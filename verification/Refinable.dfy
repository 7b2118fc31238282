/**
  HashSetRefinable as a state machine (src/HashSetRefinable.h): one mutex per bucket, taken, then
  validated against the capacity and the `resizing_` flag; and a resize that raises the flag, waits for
  everyone to leave by taking and dropping every mutex, and only then touches the table.

  One step is one access to shared memory, or one operation on a mutex; a thread that finds a mutex
  taken, or the flag raised, stays where it is.
*/
module Refinable {
  import opened Common
  import opened Bits
  import opened Tables
  import opened SetHistory
  import opened MutexArena

  datatype PC =
    | Idle
    | Spin                                          // RefinableScopedLock: resizing_
    | LoadCapacity                                  // capacity_
    | LockBucket                                    // lock the bucket's mutex
    | CheckResizing                                 // validate: resizing_ ...
    | CheckCapacity                                 // ... and capacity_
    | UnlockRetry                                   // not valid: unlock and start over
    | ReadBucket                                    // find in the bucket
    | WriteBucket(bucket: Bucket)                   // push_back or erase
    | Count                                         // set_size_
    | Unlock(res: bool)
    | PolicyCapacity                                // Policy: capacity_
    | PolicySize(capacity: nat)                     // Policy: set_size_
    | Exchange                                      // Resize: resizing_.exchange
    | CheckPolicyCapacity                           // Policy again
    | CheckPolicySize(capacity: nat)
    | ResizeCapacity                                // capacity_
    | QuiesceLock(i: nat, capacity: nat)            // Quiesce: lock mutex i ...
    | QuiesceUnlock(i: nat, capacity: nat)          // ... and unlock it
    | Enlarge(capacity: nat)                        // EnlargeMutexArena
    | Rebuild(capacity: nat)                        // the elements are moved out of the table
    | StoreCapacity(newTable: Table)
    | StoreTable(newTable: Table)
    | ClearResizing(quiet: bool)                    // `quiet`, as history: whether Quiesce has been run
    | Returning(res: bool)

  /** `capacity` and `hash` are the locals of RefinableScopedLock. */
  datatype Thread = Thread(pc: PC, op: Op, elem: Elem, capacity: nat, hash: nat)

  /** A mutex, by where it is in the arena. */
  datatype Slot = Slot(block: nat, offset: nat)

  /**
    `blocks` counts the allocated blocks of the arena. `log` is history: each operation, with its answer,
    in the order in which they take effect.
  */
  datatype State = State(shift: nat, blocks: nat, table: Table, capacity: nat, resizing: bool, size: int,
                         owner: map<Slot, Tid>, threads: map<Tid, Thread>, log: seq<Entry>)

  function MutexOf(shift: nat, index: nat): Slot { Slot(BlockIndex(shift, index), BlockOffset(shift, index)) }

  function Put(s: State, t: Tid, th: Thread): State { s.(threads := s.threads[t := th]) }

  function Log(s: State, t: Tid, th: Thread, res: bool): seq<Entry> { s.log + [Entry(t, th.op, th.elem, res)] }

  // ----- one step of thread `t` -----

  function LoadCapacityStep(s: State, t: Tid, th: Thread): State
    requires s.capacity > 0
  {
    Put(s, t, th.(capacity := s.capacity, hash := th.elem.code % s.capacity, pc := LockBucket))
  }

  function LockStep(s: State, t: Tid, th: Thread, index: nat, pc: PC): State {
    var m := MutexOf(s.shift, index);
    if m in s.owner then s else Put(s, t, th.(pc := pc)).(owner := s.owner[m := t])
  }

  function UnlockStep(s: State, t: Tid, th: Thread, index: nat, pc: PC): State {
    Put(s, t, th.(pc := pc)).(owner := s.owner - {MutexOf(s.shift, index)})
  }

  /** The operations that do not change the bucket are done; the others go on to write it. */
  function ReadBucketStep(s: State, t: Tid, th: Thread): State
    requires th.hash < |s.table|
  {
    var bucket := s.table[th.hash];
    var found := IndexOf(bucket, th.elem) < |bucket|;
    if th.op.OpContains? || found == th.op.OpAdd? then
      var res := th.op.OpContains? && found;
      Put(s, t, th.(pc := Unlock(res))).(log := Log(s, t, th, res))
    else Put(s, t, th.(pc := WriteBucket(bucket)))
  }

  function WriteBucketStep(s: State, t: Tid, th: Thread, bucket: Bucket): State
    requires th.hash < |s.table| && (th.op.OpRemove? ==> th.elem in bucket)
  {
    var to := if th.op.OpRemove? then Erased(bucket, IndexOf(bucket, th.elem)) else bucket + [th.elem];
    Put(s, t, th.(pc := Count)).(table := s.table[th.hash := to], log := Log(s, t, th, true))
  }

  function CountStep(s: State, t: Tid, th: Thread): State {
    Put(s, t, th.(pc := Unlock(true))).(size := if th.op.OpRemove? then s.size - 1 else s.size + 1)
  }

  function QuiesceLockStep(s: State, t: Tid, th: Thread, i: nat, capacity: nat): State {
    if i < capacity then LockStep(s, t, th, i, QuiesceUnlock(i, capacity)) else Put(s, t, th.(pc := Enlarge(capacity)))
  }

  /** Moving the elements out leaves buckets that hold none. */
  function RebuildStep(s: State, t: Tid, th: Thread, capacity: nat): State
    requires capacity > 0
  {
    Put(s, t, th.(pc := StoreCapacity(Rehash(s.table, 2 * capacity)))).(table := seq(|s.table|, _ => []))
  }

  /** The mutex for `index` is in an allocated block, and inside it. */
  predicate HasMutex(s: State, index: nat) {
    BlockIndex(s.shift, index) < s.blocks &&
      BlockOffset(s.shift, index) < BlockSize(s.shift, BlockIndex(s.shift, index))
  }

  /** What a step uses must be there; shown to hold in every reachable state. */
  predicate Ready(s: State, t: Tid) {
    && t in s.threads
    && var th := s.threads[t];
       match th.pc
       case LoadCapacity => s.capacity > 0
       case LockBucket => HasMutex(s, th.hash)
       case UnlockRetry => HasMutex(s, th.hash)
       case ReadBucket => th.hash < |s.table|
       case WriteBucket(b) => th.hash < |s.table| && (th.op.OpRemove? ==> th.elem in b)
       case Unlock(_) => HasMutex(s, th.hash)
       case QuiesceLock(i, c) => i < c ==> HasMutex(s, i)
       case QuiesceUnlock(i, _) => HasMutex(s, i)
       case Enlarge(c) => BlockIndex(s.shift, c) == s.blocks    // "a block is only allocated once"
       case Rebuild(c) => c > 0
       case _ => true
  }

  /** One step of `t`; `op` and `e` are what it calls when it is idle. */
  function Next(s: State, t: Tid, op: Op, e: Elem): State
    requires Ready(s, t)
  {
    var th := s.threads[t];
    match th.pc
    case Idle => Put(s, t, Thread(Spin, op, e, 0, 0))
    case Spin => if s.resizing then s else Put(s, t, th.(pc := LoadCapacity))
    case LoadCapacity => LoadCapacityStep(s, t, th)
    case LockBucket => LockStep(s, t, th, th.hash, CheckResizing)
    case CheckResizing => Put(s, t, th.(pc := if s.resizing then UnlockRetry else CheckCapacity))
    case CheckCapacity => Put(s, t, th.(pc := if s.capacity == th.capacity then ReadBucket else UnlockRetry))
    case UnlockRetry => UnlockStep(s, t, th, th.hash, Spin)
    case ReadBucket => ReadBucketStep(s, t, th)
    case WriteBucket(b) => WriteBucketStep(s, t, th, b)
    case Count => CountStep(s, t, th)
    case Unlock(res) => UnlockStep(s, t, th, th.hash, if th.op.OpAdd? && res then PolicyCapacity else Returning(res))
    case PolicyCapacity => Put(s, t, th.(pc := PolicySize(s.capacity)))
    case PolicySize(c) => Put(s, t, th.(pc := if s.size > Limit(c) then Exchange else Returning(true)))
    case Exchange =>
      Put(s, t, th.(pc := if s.resizing then Returning(true) else CheckPolicyCapacity)).(resizing := true)
    case CheckPolicyCapacity => Put(s, t, th.(pc := CheckPolicySize(s.capacity)))
    case CheckPolicySize(c) => Put(s, t, th.(pc := if s.size > Limit(c) then ResizeCapacity else ClearResizing(false)))
    case ResizeCapacity => Put(s, t, th.(pc := QuiesceLock(0, s.capacity)))
    case QuiesceLock(i, c) => QuiesceLockStep(s, t, th, i, c)
    case QuiesceUnlock(i, c) => UnlockStep(s, t, th, i, QuiesceLock(i + 1, c))
    case Enlarge(c) => Put(s, t, th.(pc := Rebuild(c))).(blocks := s.blocks + 1)
    case Rebuild(c) => RebuildStep(s, t, th, c)
    case StoreCapacity(table) => Put(s, t, th.(pc := StoreTable(table))).(capacity := |table|)
    case StoreTable(table) => Put(s, t, th.(pc := ClearResizing(true))).(table := table)
    case ClearResizing(_) => Put(s, t, th.(pc := Returning(true))).(resizing := false)
    case Returning(res) => Put(s, t, th.(pc := Idle))
  }

  /** The constructor accepts powers of two from 2 on, and allocates the first block. */
  ghost predicate Init(s: State) {
    && ValidatedShift(s.capacity) == Some(s.shift) && s.blocks == 1 && s.table == seq(s.capacity, _ => [])
    && !s.resizing && s.size == 0 && s.owner == map[] && s.log == []
    && forall t :: t in s.threads ==> s.threads[t].pc.Idle?
  }

  // ----- the invariant -----

  /** The bucket's mutex is held. */
  predicate Locked(pc: PC) {
    pc.CheckResizing? || pc.CheckCapacity? || pc.UnlockRetry? || InBucket(pc)
  }

  /** The critical section: the lock has been taken and found valid. */
  predicate InBucket(pc: PC) { pc.ReadBucket? || pc.WriteBucket? || pc.Count? || pc.Unlock? }

  /** The lock has been taken, and no resize seen since. */
  predicate Admitted(pc: PC) { pc.CheckCapacity? || InBucket(pc) }

  predicate Resizer(pc: PC) {
    pc.CheckPolicyCapacity? || pc.CheckPolicySize? || pc.ResizeCapacity? || pc.QuiesceLock? || pc.QuiesceUnlock? ||
    pc.Enlarge? || pc.Rebuild? || Moving(pc) || pc.ClearResizing?
  }

  /** The elements are in the new table, and the old one is gone. */
  predicate Moving(pc: PC) { pc.StoreCapacity? || pc.StoreTable? }

  /** From the end of Quiesce until the flag is cleared. */
  predicate Quiet(pc: PC) { pc.Enlarge? || pc.Rebuild? || Moving(pc) || pc == ClearResizing(true) }

  predicate Holds(shift: nat, th: Thread, m: Slot) {
    if Locked(th.pc) then m == MutexOf(shift, th.hash)
    else th.pc.QuiesceUnlock? && m == MutexOf(shift, th.pc.i)
  }

  /** The mutexes are taken by exactly the threads that are where they hold them. */
  ghost predicate OwnersOk(s: State) {
    && (forall m :: m in s.owner ==> s.owner[m] in s.threads && Holds(s.shift, s.threads[s.owner[m]], m))
    && forall t, m {:trigger Holds(s.shift, s.threads[t], m)} ::
         t in s.threads && Holds(s.shift, s.threads[t], m) ==> m in s.owner && s.owner[m] == t
  }

  ghost predicate IsResizer(s: State, t: Tid) { t in s.threads && Resizer(s.threads[t].pc) }

  /** The flag is raised exactly while somebody resizes, and only one does. */
  ghost predicate ResizersOk(s: State) {
    && (forall t, u {:trigger IsResizer(s, t), IsResizer(s, u)} :: IsResizer(s, t) && IsResizer(s, u) ==> t == u)
    && (s.resizing <==> exists t :: IsResizer(s, t))
  }

  /** `t`'s Quiesce has let nobody stay behind in the buckets below `i`. */
  ghost predicate NobodyBelow(s: State, i: nat) {
    forall u :: u in s.threads && Admitted(s.threads[u].pc) ==> i <= s.threads[u].hash
  }

  ghost predicate NobodyIn(s: State) { forall u :: u in s.threads ==> !Admitted(s.threads[u].pc) }

  ghost predicate QuietOk(s: State, pc: PC) {
    && (pc.QuiesceLock? ==> NobodyBelow(s, pc.i))
    && (pc.QuiesceUnlock? ==> NobodyBelow(s, pc.i + 1))
    && (Quiet(pc) ==> NobodyIn(s))
  }

  ghost predicate QuietsOk(s: State) { forall t :: t in s.threads ==> QuietOk(s, s.threads[t].pc) }

  /** The next block has been allocated, and the capacity not yet raised. */
  ghost predicate Enlarged(s: State) {
    exists t :: t in s.threads && (s.threads[t].pc.Rebuild? || s.threads[t].pc.StoreCapacity?)
  }

  ghost predicate ArenaIs(s: State, k: nat) {
    s.capacity == Pow2(s.shift + k) && s.blocks == (if Enlarged(s) then k + 2 else k + 1)
  }

  /** The capacity has doubled some number of times, and the arena grown as often. */
  ghost predicate ArenaOk(s: State) { exists k :: ArenaIs(s, k) }

  ghost predicate TableIs(table: Table, capacity: nat, log: seq<Entry>) {
    Placed(table) && |table| == capacity && Elements(table) == Played(log)
  }

  ghost predicate DataOk(s: State) {
    && Legal(s.log)
    && ((forall t :: t in s.threads ==> !Moving(s.threads[t].pc)) ==> TableIs(s.table, s.capacity, s.log))
  }

  ghost predicate ThreadOk(s: State, th: Thread) {
    && (th.pc.LockBucket? || Locked(th.pc) ==> 0 < th.capacity <= s.capacity && th.hash == th.elem.code % th.capacity)
    && (InBucket(th.pc) ==> th.capacity == s.capacity)
    && match th.pc
       case WriteBucket(b) =>
         && th.hash < |s.table| && s.table[th.hash] == b
         && !th.op.OpContains? && (th.elem in b <==> th.op.OpRemove?)
       case Count => !th.op.OpContains? && (th.op.OpAdd? ==> th.elem in Played(s.log))
       case QuiesceLock(i, c) => i <= c == s.capacity
       case QuiesceUnlock(i, c) => i < c == s.capacity
       case Enlarge(c) => c == s.capacity
       case Rebuild(c) => c == s.capacity
       case StoreCapacity(table) => TableIs(table, 2 * s.capacity, s.log)
       case StoreTable(table) => TableIs(table, s.capacity, s.log)
       case _ => true
  }

  ghost predicate ThreadsOk(s: State) { forall t :: t in s.threads ==> ThreadOk(s, s.threads[t]) }

  ghost predicate Inv(s: State) {
    OwnersOk(s) && ResizersOk(s) && QuietsOk(s) && ArenaOk(s) && DataOk(s) && ThreadsOk(s)
  }
}
