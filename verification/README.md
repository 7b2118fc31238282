# Concurrent hash sets: models and proofs

This project models the hash sets of the repository and proves what they promise. The main subject is
the lock-free set: a split-ordered list with mark-then-unlink removal, a lazily filled bucket table, and
epoch-based reclamation. It is a state machine in which one step is one atomic load, store or CAS of
shared memory (with the thread-local work up to the next one), run by any number of threads in any
interleaving, on a list of any length. The two lock-based sets that resize concurrently are modelled the
same way, one step per shared access or mutex operation. The sequential set, the owner's side of the
reclaimer, the mutex arena and the destructors, which nobody interleaves with, are classes and methods
with loops over the heap.

## How it is laid out

- `Common`, `Bits`: shared names, the plain set that every set is compared with, and bit arithmetic.
- `Numerals`, `WordReversal`, `SplitOrder`: `ReverseBits` on 64-bit words is exact reversal, and what that
  makes of sentinel keys, ordinary keys and parent buckets.
- `ListHeap`, `Traversal`: the nodes, the writes to them, the shape invariant, what other threads may do
  (`Evolves`), and the hindsight lemma `AheadNext`. The order of the list is by key and then by the moment
  of insertion, because different elements may share a key.
- `Epochs`, `EpochRuns`, `EpochProgress`: the reclaimer as a machine of its own; ownership, the grace period, the
  epoch lag; when the epoch advances, and what is kept meanwhile.
- `LockFreeSet` is the composed machine, `LockFreeInv` its invariant thread by thread, `LockFreeSteps`,
  `LockFreeFind`, `LockFreeRuns` and `LockFreeTheorems` the proof that every step keeps it.
- `LockFreeSafety`, `LockFreeReclaimer`, `LockFreeShape`, `LockFreeBuckets`, `LockFreeLinear`, `Linearizability`,
  `LockFreeHistory`, `LockFreeProgress`, `LockFreeUnlinks`, `LockFreedom`, `LockFreeContains`, `LockFreeSize`,
  `LockFreeLoad`, `LockFreeGrowth`: what follows for every run.
- `LockFreeBuild` puts runs of the lock-free set together, operation by operation; `LockFreeUnsafe`,
  `LongWalks` and `MarkRaces` use it for the runs that show where a promise ends.
- `Participants`, `Teardown`: the owner's side of a participant, and the destructors.
- `Tables`, `SetHistory`, `SequentialSet`: chained tables and the shared rehash, sequential histories, and
  the sequential set.
- `MutexArena`, `Refinable`, `RefinableProof`, `RefinableTheorems`, `RefinableLoad`, `RefinableGrowth`,
  `RefinableBound`: the growing arena of mutexes, the lock, validate and quiesce protocol over it, when its load
  factor is kept, when the table grows, and how much work a call is.
- `Striped`, `StripedProof`, `StripedTheorems`, `StripedGrowth`, `StripedBound`: fixed stripes over a growing
  table, and the same questions.

## Tags in time

The Guard loads `epoch_` and then stores what it loaded as its announcement, without looking again
(src/EpochReclaimer.h:57-61, 164-171). In between the participant is inactive and holds nothing back, so
the epoch may move on any number of times. What a Guard unlinks is tagged one past its own announcement
(src/EpochReclaimer.h:106), so a Guard that announces late may tag a node with an epoch that has passed.
The documentation at src/BucketList.h:40-44 and src/EpochReclaimer.h:108-110 says that a node is deleted
only once nobody can still be holding it; the code guarantees it for the runs in which every node, at the
moment it is unlinked, gets a tag that is not behind the epoch: `epoch <= announced + 1` at each unlink.
That condition is named `TagsWithin(r, 0)` for the composed machine and `TagLagAtMost(r, 0)` for the
reclaimer, and is used for the grace period and memory safety, and for nothing else: ownership, the epoch
lag, linearizability, the list shape, progress and the counters hold in every run. A Guard that unlinks
nothing may announce as late as it likes, and runs in which every announcement is still current when it is
stored meet the condition (`FreshRunsTagInTime`).

The condition is exact, for the reclaimer and for the whole set. `LockFreeUnsafe.UseAfterDelete` builds a
run of the lock-free set in which one tag is one epoch behind and a thread is left standing on a node that
has been deleted under its open Guard, and `LockFreeUnsafe.SafeExactly` says that memory is safe in all runs
whose tags are at most `d` epochs behind if and only if `d` is 0. `EpochRuns.OneEpochLate` and
`EpochRuns.GracePeriodExactly` say the same of the grace period.

Reclamation also goes forward. `advancing_` is raised exactly while one thread is between taking it and giving it
back, and never by two (`FlagHeld`, and `LockFreeReclaimer.FlagHeldInSet` for the set, whose reclaimer takes
nothing but the steps of that machine: `ReclaimerRuns`). A TryAdvance that is left alone advances the epoch if and
only if nobody holds the flag and every open Guard has announced the current epoch (`TryAdvanceAlone`). So from
any state with no other Guard open a thread at the current epoch advances it with its next retire that is due, the
1024th since the last (`DueRetireAdvances`); and a Guard that is opened with nobody in the way is at the current
epoch (`OpensAtCurrent`).

## Lock-freedom, and what falls short of wait-freedom

`LockFreedom.SomeCallReturns` is about the whole set and every schedule: from any state of any run, some
call returns within a number of steps bounded by that state. The proof counts. Each thread has a budget (the
effect its call may still have, the sentinels it may still have to make, its joining of the reclaimer) and
the list has one (its marked nodes). Every successful CAS on the list spends some of it and nothing adds to
it while no call returns; every other step takes its thread forward through its call, a search that is bound
to fail included.

For single calls, src/BucketList.h:125 says that `Contains` is wait-free. Every hop of it leads strictly
forward and none waits for anybody (`HopsForward`), but other threads may keep inserting ahead of it:
`LongWalks.ChaseGoesOn` continues every one of a family of runs, by one Add of another thread and one hop,
to another of them, and in none of them has the walk ended, although nothing but the sentinel of its bucket
was in its way when it set out (`NotWaitFree`). What does hold, in every run, is `LockFreeContains.WalkBound`:
there are no more hops than nodes linked, from the sentinel of its bucket to its key, when it set out, and
nodes linked in there by others since; and only nodes of its own bucket are among them (`OnlyItsBucket`).
`LongWalks.HopsExactly` says that this is exact: `n` hops are enough for all walks that set out with at most
`m` such nodes and are joined by at most `p` if and only if `m + p <= n`.

Whose step makes a CAS fail is the subject of `LockFreeProgress`. The mark of a Remove is a CAS on a word
that has been re-read just before without a look at its mark (src/BucketList.h:111). `MarkFailsExactly` says
that another thread has written the word since that re-read if and only if the re-read did not find it
marked; `MarkRaces.OnlyTheMark` is a run in which it did, and `MarkFoundMeansProgress` charges that failure to
a write between Find's read and the re-read.

## Progress of the lock-based sets

A call of `HashSetStriped` has no loop but the locking of all stripes, so in every run it takes at most
2 * stripes + 15 steps that change anything (`StripedBound.CallBound`), and some call returns within that many
steps for each thread (`SomeCallReturns`). A call of `HashSetRefinable` may find its lock not to be valid, drop it
and start over, any number of times; but each time the flag or the capacity has changed meanwhile, and a call takes
at most 2 * capacity + 27 steps for each such change, and as many more (`RefinableBound.CallBound`). Each call makes
three changes at most, which bounds the steps of all threads between two returns by the threads and the capacity
(`SomeCallReturns`). A step that changes nothing is that of a thread that waits, and waits for a thread with an
element of the same stripe or bucket, or for one that resizes (`WaitsOnlyForStripe`, `WaitsOnlyForBucket`); and
whenever a call is under way some thread does not wait (`NoDeadlock`). With no other call under way a call waits
for nothing and returns within a stated number of steps (`AloneReturns`).

## The load factor

A thread of `HashSetRefinable` that finds the table too full but loses the exchange of `resizing_` returns
without growing it (src/HashSetRefinable.h:155), and the thread that won may find, a moment too early, that
there is room (src/HashSetRefinable.h:156-161). In every run the size exceeds three quarters of the capacity
by no more than the Adds still under way and the exchanges lost so far (`RefinableLoad.LoadBound`), and at
rest by no more than the latter (`LoadAtRest`). `RefinableLoad.Overloaded` builds, for any two threads and any
capacity that the constructor accepts, a run that loses one exchange and ends with no call under way and one
element too many. So, whatever the capacity at first, the load factor is kept in all runs with at most `d`
lost exchanges if and only if `d` is 0 (`LoadKeptUntilLost`, for two threads or more), and in all runs of a
set if and only if at most one thread uses the set (`LoadKeptExactly`).

`HashSetLockFree` gives up growing when its one CAS of the capacity fails, and has the corresponding bound
below its maximal capacity (`LockFreeLoad.LoadBound`). `HashSetStriped`, where the losers wait for the locks
and look again, has the bound with nothing added.

None of the sets grows without need. Whoever changes the capacity doubles it, is in an Add that has added its
element, and has found more than three quarters of that very capacity within its call; in `HashSetStriped`, which
looks again under all the locks, the size is more than three quarters at that moment (`GrowsOnlyWhenFull`, for each
of the three; `SequentialSet.HashSetSequential.Add` says exactly when). All bounds are stated as
`4 * size > 3 * capacity` and its opposite.

## Model

| member | source | states |
|---|---|---|
| `WordReversal.ReverseBitsIsExact` | src/BucketList.h:19-27 | For every 64-bit word, the mask-and-shift steps and the byte swap put bit i at position 63 - i, as numbers compute the recursive reversal of the model, and undo themselves |
| `WordReversal.KeysAreSplitOrderKeys` | src/BucketList.h:192-199 | The two key functions, computed on words as the code does, are the numeric keys that all other proofs use |
| `SplitOrder.SplitOrderTheorem` | src/BucketList.h:188-199 | For every power-of-two capacity up to 2^62: sentinel < element < tail, and the keys of exactly the elements and buckets congruent to b fill b's interval |
| `SplitOrder.OnlyBucketBetween` | src/BucketList.h:188-195 | Between a bucket's sentinel and one of its elements lie only keys of the same bucket, so a stale capacity leads to the right place |
| `SplitOrder.SentinelKeyInjective` | src/BucketList.h:197-199 | Different buckets have different sentinel keys |
| `SplitOrder.ParentComesFirst` | src/HashSetLockFree.h:110-112 | The parent is the index without its top bit, and its sentinel lies strictly before the bucket's own |
| `Traversal.AheadNext` | src/BucketList.h:125-136 | Hindsight: following `next` through marked and unlinked nodes never overtakes a node that has held the element since before the walk began |
| `Traversal.HeldNext` | src/BucketList.h:125-136 | The nodes that were linked at some moment since a Guard opened are closed under `next`, which leads strictly forward |
| `Traversal.NoneLinked` | src/BucketList.h:205-238 | When Find stops past the key, no linked node at all matches, however long the run of equal keys |
| `ListHeap.PublishKeeps` | src/BucketList.h:98 | Linking a node in behind a linked, unmarked predecessor keeps order, uniqueness and everything recorded of unlinked nodes |
| `ListHeap.MarkKeeps` | src/BucketList.h:112 | Marking keeps the shape |
| `ListHeap.UnlinkKeeps` | src/BucketList.h:117 | Unlinking a marked node keeps the shape, and freezes what it led to |
| `LockFreeTheorems.StepInv` | src/HashSetLockFree.h:57-142 | In every reachable state every thread has a next step, with everything it dereferences there, and the step keeps the whole invariant |
| `LockFreeTheorems.StepEvolves` | src/BucketList.h:111-117 | What a step may do to memory: keys are fixed, a marked word never changes, an unlinked node is never linked again, new nodes come last in their run of equal keys |
| `LockFreeShape.ListShape` | src/BucketList.h:30-43 | In every reachable state, following `next` from the root meets exactly the linked nodes, strictly ascending by key and insertion, and ends at the tail; every published unmarked node is among them |
| `LockFreeShape.MarkedStays` | src/BucketList.h:113-117 | From its mark on, a node's word, key and element never change, and an unlinked node stays unlinked |
| `LockFreeShape.BucketsAreSentinels` | src/HashSetLockFree.h:133-142 | Every bucket that is set is the linked, never marked sentinel of its own index, and no other linked node has that key |
| `LockFreeShape.BucketsStay` | src/HashSetLockFree.h:137-141 | A bucket that is set stays set to the same sentinel, however many threads race to set it |
| `LockFreeBuckets.EntersThroughBucket` | src/HashSetLockFree.h:124-142 | In every run, whoever is in the list, or about to set a bucket, came through a bucket that is set and has its sentinel for its head: the bucket of its element, or the parent of the bucket whose sentinel it is making; so InitializeBucket has stored its sentinel before its caller goes on |
| `LockFreeBuckets.BucketsHaveParents` | src/HashSetLockFree.h:133-142 | In every state the parent of every bucket that is set is set, and so are all buckets above it |
| `LockFreeBuckets.InitializesOnlyUnset` | src/HashSetLockFree.h:124-131 | A thread goes on to initialize a bucket only where it finds it not set |
| `LockFreeShape.StackDescends` | src/HashSetLockFree.h:133-136 | The recursion through parents goes to strictly smaller indices and strictly smaller sentinel keys |
| `LockFreeSafety.MemorySafety` | src/BucketList.h:40-44 | In every run in which each node is unlinked under a tag that is not behind the epoch, no node that any thread's next step touches, that it keeps a pointer to within its Guard, or that it is about to compare a word with, has been deleted |
| `LockFreeUnsafe.UseAfterDelete` | src/EpochReclaimer.h:57-61 | A run of the lock-free set in which one node is unlinked under a tag one epoch behind, and a thread is left standing on it when it has been deleted |
| `LockFreeUnsafe.SafeExactly` | src/EpochReclaimer.h:102-120 | Memory is safe in all runs of the lock-free set with tags at most d epochs behind if and only if d is 0 |
| `LockFreeSafety.NodesConserved` | src/BucketList.h:113-119 | In every run, every node ever allocated is in exactly one place: with its maker, linked, about to be retired by one thread, once in one bag, or deleted once |
| `LockFreeLinear.OneNodePerElement` | src/BucketList.h:84-102 | At most one linked node, marked or not, carries a given element, although distinct elements may share keys |
| `LockFreeLinear.StepRefinesSet` | src/BucketList.h:84-123 | A step changes the set only as the publishing CAS of an Add, which inserts exactly its element, or the successful mark of a Remove, which deletes exactly its element |
| `Linearizability.Linearizable` | src/HashSetLockFree.h:57-89 | Every call that is about to return had a moment inside it at which a plain set gives the same answer; if it changes the set, that moment is its one effect, and otherwise it has had none |
| `LockFreeHistory.OneHistory` | src/HashSetLockFree.h:57-89 | For every run there is one sequential history, legal for a plain set and leaving exactly the elements of the list, with at most one entry per call, one with its answer for every call that is about to return or has returned, and in the order of any two calls of which one returned before the other was made |
| `Linearizability.SeenPresent` | src/BucketList.h:131-135 | What a walk saw, even on a node unlinked meanwhile, was in the set at some moment of the call |
| `Linearizability.SeenAbsent` | src/BucketList.h:131-135 | What a walk missed was not in the set at some moment of the call |
| `Linearizability.OnlyEffectsChange` | src/BucketList.h:84-123 | Whatever changes the set is the effect of a call of the thread that takes the step |
| `LockFreeProgress.FailureMeansProgress` | src/BucketList.h:98-122 | If a CAS of a thread fails, then since the thread read that word another thread has taken a step that was a successful CAS on the same word; for a failed mark the read is the re-read just before it, unless that re-read itself found a mark |
| `LockFreeProgress.MarkFailsExactly` | src/BucketList.h:111-112 | When a mark fails, another thread's CAS on the word has succeeded since the re-read just before it if and only if that re-read did not find the word marked |
| `LockFreeProgress.MarkFoundMeansProgress` | src/BucketList.h:111-112 | If the re-read before a mark finds a mark, the CAS is bound to fail, and another thread's successful CAS on the word lies between Find's read and the re-read |
| `LockFreeUnlinks.WordsChangeExactly` | src/BucketList.h:98-117 | In every run a step changes the word of a published node if and only if it is a CAS on that word that succeeds |
| `LockFreeUnlinks.RemoveTriesToUnlink` | src/BucketList.h:111-121 | Every Remove that is about to answer true has marked its node and then tried to unlink it, and it took the node out of the list or another thread has changed the predecessor's word since Find read it |
| `LockFreeUnlinks.RestartsOnlyAfterFailure` | src/BucketList.h:205-238 | A search starts over only where a CAS of its thread has failed |
| `MarkRaces.OnlyTheMark` | src/BucketList.h:111-112 | A run in which a mark fails although no other thread has taken a step since the re-read |
| `LockFreedom.SomeCallReturns` | src/BucketList.h:84-123 | Lock-freedom: in every run, whatever the threads do and however they are scheduled, some call returns within a number of steps bounded by a function of the state they start from: its threads, marked nodes, nodes, participants and maximal capacity |
| `LockFreeProgress.HopsForward` | src/BucketList.h:216-238 | Every hop of Find and Contains leads strictly forward in the order of keys and insertions |
| `LockFreeContains.WalkBound` | src/BucketList.h:125-136 | In every run a walk of Contains takes at most as many hops as nodes have been linked, from the sentinel of its bucket to its key, at some moment since its Guard opened, and at most as many as were linked there when it set out plus those that others have linked in there since |
| `LockFreeBuckets.OnlyItsBucket` | src/HashSetLockFree.h:57-89 | For Add, Remove and Contains: in the list for its own element a call has entered at the sentinel of the bucket `code % capacity`, for the capacity at a moment inside the call, and every key from there to its own belongs to that bucket |
| `LockFreeBuckets.StaysInItsBucket` | src/BucketList.h:205-238 | Every node that a call comes to in that list has such a key: Find, and what follows it, never goes back behind the sentinel |
| `LockFreeContains.ContainsBound` | src/HashSetLockFree.h:82-89 | For a whole call: its hops are at most the nodes of the element's bucket, for the capacity at a moment inside the call, up to its key, that are linked at a state inside the call, plus those that others link in there during the call |
| `LongWalks.HopsExactly` | src/BucketList.h:125-136 | n hops are enough for all walks that set out with at most m nodes between the sentinel of their bucket and their key, and are joined there by at most p, if and only if m + p <= n |
| `LongWalks.NotWaitFree` | src/BucketList.h:125 | For every n, a run in which a Contains that set out with nothing but the sentinel of its bucket in its way has taken n hops and is still walking |
| `LongWalks.ChaseGoesOn` | src/BucketList.h:125 | Every run in which the walk has been kept going for n hops goes on, by one Add of another thread and one hop, to one in which it has been kept going for n + 1 |
| `LockFreeSize.SizeConserved` | src/HashSetLockFree.h:57-80 | Modulo 2^64, the counter is the size of the set, less the Adds and plus the Removes that have taken effect and not been counted |
| `LockFreeSize.SizeExact` | src/HashSetLockFree.h:91 | Whenever nobody is between an effect and its count, the counter is the number of elements |
| `LockFreeSize.CapacityDoubles` | src/HashSetLockFree.h:114-122 | The capacity stays a power of two at most the maximum and only ever doubles, even where the counter has wrapped |
| `LockFreeLoad.LoadBound` | src/HashSetLockFree.h:114-122 | In every run, below the maximal capacity, what has been counted, less the Adds that have counted their element and not found or made room and the attempts that have given up without room (a lost CAS of the capacity, or a counter that has wrapped around), is at most three quarters of the capacity |
| `LockFreeLoad.LoadAtRest` | src/HashSetLockFree.h:114-122 | With no call under way and below the maximal capacity, the number of elements, less the attempts that have given up, is at most three quarters of the capacity |
| `LockFreeGrowth.GrowsOnlyWhenFull` | src/HashSetLockFree.h:114-122 | Whoever changes the capacity doubles it, within the maximum, in an Add that has had its effect, and at a moment of the call since which the capacity is the same the counter was more than three quarters of it |
| `EpochRuns.OwnershipConserved` | src/EpochReclaimer.h:102-120 | In every run of the reclaimer each unlinked node is with the one thread that retires it, once in one bag, or deleted once |
| `EpochRuns.GracePeriod` | src/EpochReclaimer.h:102-120 | In every run in which each node is unlinked under a tag that is not behind the epoch, a deleted node was unlinked before every Guard that is now open was entered |
| `EpochRuns.EpochLag` | src/EpochReclaimer.h:259-295 | In every run, the epoch is at most one past what it was when an open Guard stored its announcement, and that is at least what was announced, in spite of scans that are not atomic, participants that join during them and several threads advancing |
| `EpochRuns.OneAdvancePerGuard` | src/EpochReclaimer.h:259-295 | In every run, while a Guard stays open the epoch advances at most once |
| `EpochProgress.FlagHeld` | src/EpochReclaimer.h:281-290 | In every run `advancing_` is raised if and only if some thread is between taking it and giving it back, and no two threads ever are, whether the scans succeed or fail |
| `LockFreeReclaimer.ReclaimerRuns` | src/HashSetLockFree.h:57-89 | What any run of the lock-free set does to its reclaimer is a run of the reclaimer |
| `LockFreeReclaimer.FlagHeldInSet` | src/EpochReclaimer.h:281-290 | So `advancing_` is raised exactly while one thread is advancing, in every run of the set too |
| `EpochProgress.TryAdvanceAlone` | src/EpochReclaimer.h:259-295 | From any reachable state a TryAdvance that is left alone ends within two steps for each participant and six more, and has then moved the epoch on by one if nobody held `advancing_` and every open Guard had announced the current epoch, has not moved it otherwise, and has changed nothing else |
| `EpochProgress.DueRetireAdvances` | src/EpochReclaimer.h:102-120 | From any reachable state with no other Guard open, a thread whose own is at the current epoch, left alone, advances the epoch with a retire if it is the 1024th since the last that was due, and only then |
| `EpochProgress.AdvancesTried` | src/EpochReclaimer.h:116-119 | In every run a thread tries to advance the epoch at every 1024th of its retires and at no other |
| `EpochProgress.RetiresCounted` | src/EpochReclaimer.h:116-118 | In every run the counter of a participant is the number of its retires modulo 1024 |
| `EpochProgress.OpensAtCurrent` | src/EpochReclaimer.h:57-61 | A Guard whose opening is left alone is open within four steps, at the epoch that was current when it was begun |
| `EpochRuns.FreshRunsTagInTime` | src/EpochReclaimer.h:57-61 | If every announcement is still the current epoch when it is stored, no node is ever unlinked under a tag behind the epoch |
| `EpochRuns.KeepsOnlyRecent` | src/EpochReclaimer.h:152-162 | In every run no bag of a participant is tagged with an epoch before the one preceding its last announcement, so a thread that enters again has let go of what is older |
| `EpochProgress.KeepsOnlyRecentNodes` | src/EpochReclaimer.h:102-120 | In every run whatever is still in a bag was unlinked no more than one epoch before the bag's tag, and no more than two epochs before the last announcement of its participant |
| `EpochRuns.OneEpochLate` | src/EpochReclaimer.h:57-61 | A run of the reclaimer in which one announcement and one tag are one epoch late and a node is deleted that an open Guard may hold |
| `EpochRuns.GracePeriodExactly` | src/EpochReclaimer.h:57-61 | The grace period holds in all runs with tags at most d epochs behind if and only if d is 0; and likewise for announcements at most d epochs late |
| `Participants.Participant.constructor` | src/EpochReclaimer.h:177-189 | A new participant, inactive, with three empty untagged bags |
| `Participants.Participant.CollectGarbage` | src/EpochReclaimer.h:154-162 | Frees exactly the contents of the bags the epoch has moved two past, and leaves the others and the announcement alone |
| `Participants.Participant.Enter` | src/EpochReclaimer.h:164-173 | Is the loading step and the announcing step of the machine, one after the other, and frees what the first frees |
| `Participants.Participant.Leave` | src/EpochReclaimer.h:177 | Drops the announcement and nothing else |
| `Participants.Participant.Retire` | src/EpochReclaimer.h:102-120 | Is the retiring step of the machine: empties the current bag first if its tag is older, and asks for an advance every 1024th time |
| `Teardown.DestroyList` | src/BucketList.h:71-78 | Deletes the chain from the root to the tail, in order |
| `Teardown.DestroyParticipants` | src/EpochReclaimer.h:92-99 | Deletes what the bags of all participants in the list hold |
| `Teardown.Destroy` | src/HashSetLockFree.h:53-55 | Run at the end of any run in which every thread has left, it makes every node ever allocated deleted exactly once over the life of the set |
| `Tables.RehashKeeps` | src/HashSetSequential.h:58-68 | Rehashing to any capacity keeps exactly the old elements, once each, in the buckets the new capacity gives them |
| `Tables.LimitIsThreeQuarters` | src/HashSetSequential.h:54-56 | What Policy compares the size with, rounded down, is exceeded exactly by the sizes above three quarters of the capacity |
| `SequentialSet.HashSetSequential.constructor` | src/HashSetSequential.h:13-14 | An empty set with at least one bucket |
| `SequentialSet.HashSetSequential.Add` | src/HashSetSequential.h:16-27 | True exactly if the element was not there; adds it and nothing else; the table doubles if and only if there are then more elements than three quarters of its size, which afterwards there never are |
| `SequentialSet.HashSetSequential.Remove` | src/HashSetSequential.h:29-38 | True exactly if the element was there; removes it and nothing else |
| `SequentialSet.HashSetSequential.Contains` | src/HashSetSequential.h:40-43 | Membership |
| `SequentialSet.HashSetSequential.Size` | src/HashSetSequential.h:45 | The number of elements |
| `SequentialSet.HashSetSequential.Resize` | src/HashSetSequential.h:58-68 | The nested loops leave the rehash of the old table to twice its size, with the same elements |
| `SequentialSet.Find` | src/HashSetSequential.h:18 | The index of the first occurrence, or the length |
| `MutexArena.ShiftIsExponent` | src/HashSetRefinable.h:123-131 | Exactly the powers of two from 2 on are accepted, and the shift is their exponent |
| `MutexArena.ArenaBijection` | src/HashSetRefinable.h:199-211 | For every initial shift and any number of doublings, block and offset map the indices below the capacity one-to-one onto the slots of the allocated blocks |
| `MutexArena.NextBlock` | src/HashSetRefinable.h:166-167 | The block a resize allocates is the next one, and holds exactly as many mutexes as there were buckets |
| `MutexArena.Arena.constructor` | src/HashSetRefinable.h:24-28 | An arena with its first block |
| `MutexArena.Arena.EnlargeMutexArena` | src/HashSetRefinable.h:194-197 | Allocates one fresh block and moves no mutex that was there |
| `MutexArena.Arena.GetMutex` | src/HashSetRefinable.h:213-219 | The mutex of the index |
| `MutexArena.Arena.MutexesDiffer` | src/HashSetRefinable.h:213-219 | Different buckets have different mutexes |
| `RefinableProof.StepInv` | src/HashSetRefinable.h:30-66 | In every reachable state every thread has a next step with everything it indexes there, and the step keeps the invariant |
| `RefinableTheorems.ResizeIsExclusive` | src/HashSetRefinable.h:152-192 | From the end of Quiesce until `resizing_` is cleared, no other thread is in its critical section or resizes |
| `RefinableTheorems.OneThreadPerBucket` | src/HashSetRefinable.h:86-112 | No two threads are ever in the same bucket, and whoever is in one is in the one that the current capacity names |
| `RefinableTheorems.MutexesAllocated` | src/HashSetRefinable.h:194-219 | The mutex for any capacity a thread may have read has been allocated, and a block is allocated once, with the size of the old capacity |
| `RefinableTheorems.NoDeadlock` | src/HashSetRefinable.h:86-111 | Whenever a thread is in a call, some thread can take a step that moves it on; how far such steps go is the subject of the four rows below |
| `RefinableBound.SomeCallReturns` | src/HashSetRefinable.h:30-192 | In every run some call returns within a number of steps that change something, bounded by the number of threads and the capacity at first |
| `RefinableBound.CallBound` | src/HashSetRefinable.h:86-111 | Until its call returns a thread takes at most 2 * capacity + 27 steps that change something, and as many more for every change of `resizing_` or of the capacity meanwhile: a retry is charged to a resize |
| `RefinableBound.WaitsOnlyForBucket` | src/HashSetRefinable.h:90-100 | A step that changes nothing is that of a thread that waits for another: at the flag for one that resizes, at a mutex for one that holds the mutex of that very bucket |
| `RefinableBound.AloneReturns` | src/HashSetRefinable.h:30-66 | While no other thread is in a call, a thread waits for nothing and returns within four times 2 * capacity + 27 steps |
| `RefinableTheorems.Linearizable` | src/HashSetRefinable.h:30-66 | There is one sequential history, legal for a set, with exactly one entry for each call, made during it, with its answer |
| `RefinableTheorems.TableIsHistory` | src/HashSetRefinable.h:168-182 | Whenever no table is being moved, the table holds exactly the elements that the history leaves, at the indices of the current capacity |
| `RefinableTheorems.SizeConserved` | src/HashSetRefinable.h:30-68 | The counter is the number of elements but for writes not yet counted, and never negative |
| `RefinableLoad.LoadBound` | src/HashSetRefinable.h:146-184 | In every run the size, less the Adds that have counted their element and not found or made room and the exchanges lost so far, is at most three quarters of the capacity |
| `RefinableLoad.LoadAtRest` | src/HashSetRefinable.h:146-184 | In every run, with no call under way, the size, less the exchanges lost so far, is at most three quarters of the capacity |
| `RefinableGrowth.GrowsOnlyWhenFull` | src/HashSetRefinable.h:152-184 | Whoever changes the capacity doubles it, in an Add that has added its element, and at a moment of the call since which the capacity is the same the size was more than three quarters of it |
| `RefinableGrowth.ExchangesOnlyWhenFull` | src/HashSetRefinable.h:42-44 | A thread goes for the exchange, and so stops others, only once it has read, within its call, a capacity and then a size of more than three quarters of it |
| `RefinableLoad.Overloaded` | src/HashSetRefinable.h:155-161 | For any two threads and any capacity the constructor accepts, a run that loses exactly one exchange and ends with no call under way and one element more than the load factor allows |
| `RefinableLoad.LoadKeptUntilLost` | src/HashSetRefinable.h:155 | With two threads or more and any accepted capacity, the load factor holds at rest in all runs with at most d lost exchanges if and only if d is 0 |
| `RefinableLoad.LoadKeptExactly` | src/HashSetRefinable.h:146-184 | For every capacity the constructor accepts, the load factor holds with no call under way, in all runs of a set of threads, if and only if there is at most one of them |
| `StripedProof.SameBucketSameStripe` | src/HashSetStriped.h:127-135 | For any initial capacity and any number of doublings, elements that share a bucket share a stripe |
| `StripedProof.StepInv` | src/HashSetStriped.h:45-123 | In every reachable state every thread has a next step with everything it indexes there, and the step keeps the invariant |
| `StripedTheorems.OneThreadPerBucket` | src/HashSetStriped.h:45-78 | A thread in a bucket keeps every other thread out of it, and keeps out the one that resizes |
| `StripedTheorems.NoDeadlock` | src/HashSetStriped.h:17-28 | Whenever a thread is in a call, some thread can take a step that moves it on; how far such steps go is the subject of the four rows below |
| `StripedBound.SomeCallReturns` | src/HashSetStriped.h:45-123 | In every run some call returns within 2 * stripes + 15 steps that change something for each thread |
| `StripedBound.CallBound` | src/HashSetStriped.h:45-123 | Until its call returns a thread takes at most 2 * stripes + 15 steps that change something |
| `StripedBound.WaitsOnlyForStripe` | src/HashSetStriped.h:132-135 | A step that changes nothing is that of a thread at a mutex, which another thread holds that has an element of the same stripe, or resizes |
| `StripedBound.AloneReturns` | src/HashSetStriped.h:45-78 | While no other thread is in a call, a thread waits for nothing and returns within 2 * stripes + 15 steps |
| `StripedTheorems.Linearizable` | src/HashSetStriped.h:45-78 | There is one sequential history, legal for a set, with exactly one entry for each call, made during it, with its answer |
| `StripedTheorems.TableIsHistory` | src/HashSetStriped.h:103-123 | Whenever no table is being moved, the table holds exactly the elements that the history leaves, at the indices of the current capacity |
| `StripedTheorems.LoadBound` | src/HashSetStriped.h:97-123 | The size, less the Adds that have counted their element and not found or made room, is at most three quarters of the capacity; with no call under way the number of elements is, and the size is exact |
| `StripedGrowth.GrowsOnlyWhenFull` | src/HashSetStriped.h:103-123 | Whoever changes the capacity doubles it, at a moment at which the size is more than three quarters of it, in an Add that has added its element |
| `StripedGrowth.LocksAllOnlyWhenFull` | src/HashSetStriped.h:56-58 | A thread takes all the locks only once it has read, within its call, a capacity and then a size of more than three quarters of it |
| `StripedTheorems.SizeNeverNegative` | src/HashSetStriped.h:54-68 | The counter never goes below zero |

## Left out

- Memory orderings weaker than sequential consistency, `membarrier` and its failure: every access is one step of one interleaving, and the fences succeed.
- The retry and traversal loops of `Add`, `Remove`, `SentinelFor`, `Find`, `Contains`, `TryAdvance`, `Quiesce` and the scoped locks are steps of a machine and not `while` loops, because other threads act between any two of their accesses; the machines are values, so aliasing between C++ objects other than nodes is not modelled.
- Node addresses are never reused in the model. With tags in time this loses nothing, because `MemorySafety` shows that no deleted node is still pointed to, or compared with, from inside a Guard; otherwise the model does not show what reading a recycled node would do.
- LockFreeSafety.MemorySafety: needs tags in time, as SafeExactly says it must.
- EpochRuns.GracePeriod: needs tags in time, as GracePeriodExactly says it must.
- Epochs are unbounded, so the wrap-around of `epoch_` and its collision with `kInactive` are not modelled; neither are capacities beyond 2^64 in the lock-based sets.
- The pointer packing of `MarkableReference`: its word is an atomic pair of reference and mark.
- The `thread_local` cache of participants: a thread finds its own participant, or joins the list, and threads do not end.
- The Guard that the constructor of the lock-free set takes while nobody else can see the set; its argument checks appear as the conditions on the initial state.
- Failing allocations, and hash or equality functions that throw or are not lawful: an element has an identity and a hash code.
- Moving elements out of an old table leaves empty buckets; what a moved-from C++ element looks like is not modelled.
- Fairness: that some call returns is promised with a bound, of any steps for the lock-free set and of steps that do not wait for the lock-based ones; no single call is promised to return while others run, and a thread that waits may do so for ever. How far a call may be kept from returning is bounded for `Contains` of the lock-free set, and for the lock-based sets by the changes of the flag and the capacity.
- LockFreeLoad.LoadBound: an upper bound; no run that reaches it is given.
- `HashSetCoarseGrained`: one mutex around the sequential set, which would repeat the striped proofs with one stripe.
- `HashSetTbb` and `HashSetLibcds` (the code behind them is not part of this model), the benchmarks, padding and alignment.
