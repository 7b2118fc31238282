/**
  The load factor of the refinable set. A thread that loses the exchange of `resizing_` returns without
  growing the table (src/HashSetRefinable.h:155), so the load factor may be exceeded with no call under
  way: by one element for every exchange lost so far, and by no more. It is kept in all runs of a set
  exactly if no exchange may be lost, or at most one thread uses the set.
*/
module RefinableLoad {
  import opened Common
  import opened Tables
  import opened SetHistory
  import opened MutexArena
  import opened Refinable
  import opened RefinableProof
  import opened RefinableTheorems

  // ----- what holds in every run -----

  /** An Add that has counted its element and has not seen, or made, enough room for it. */
  predicate Pending(th: Thread) {
    && th.op.OpAdd?
    && (|| th.pc == Unlock(true) || th.pc.PolicyCapacity? || th.pc.PolicySize? || th.pc.Exchange?
        || th.pc.CheckPolicyCapacity? || th.pc.CheckPolicySize? || th.pc.ResizeCapacity?
        || th.pc.QuiesceLock? || th.pc.QuiesceUnlock? || th.pc.Enlarge? || th.pc.Rebuild? || th.pc.StoreCapacity?)
  }

  function Pendings(s: State): set<Tid> { set t | t in s.threads && Pending(s.threads[t]) }

  predicate Reading(pc: PC) { pc.PolicySize? || pc.CheckPolicySize? }

  /** The size exceeds the load factor by no more than the pending Adds, and the `lost` exchanges so far. */
  ghost predicate LoadOk(s: State, lost: nat) {
    && s.size <= Limit(s.capacity) + |Pendings(s)| + lost
    && forall t :: t in s.threads && Reading(s.threads[t].pc) ==> s.threads[t].pc.capacity <= s.capacity
  }

  /** The next step of `t` finds the flag raised by somebody else. */
  predicate Loses(s: State, t: Tid) { t in s.threads && s.threads[t].pc.Exchange? && s.resizing }

  /** What a step makes of whether its thread is pending. */
  ghost predicate Pends(s: State, th: Thread, th': Thread) {
    Pending(th') <==>
      || (th.pc.Count? && th.op.OpAdd?)
      || (Pending(th) && !th.pc.StoreCapacity? && !(th.pc.Exchange? && s.resizing) &&
          !(Reading(th.pc) && s.size <= Limit(th.pc.capacity)))
  }

  lemma EarlyPends(s: State, t: Tid, op: Op, e: Elem)
    requires t in s.threads && Ready(s, t) && Early(s.threads[t].pc)
    ensures var s' := Next(s, t, op, e); t in s'.threads && Pends(s, s.threads[t], s'.threads[t])
  {
    hide Erased, Log, IndexOf, MutexOf, Limit, Pends, Pending;
    var th, th' := s.threads[t], Next(s, t, op, e).threads[t];
    assert Early(th'.pc) || th'.pc.Count? || (th'.pc.Unlock? && (th'.pc.res ==> !th'.op.OpAdd?));
    NotPending(s, th, th');
  }

  lemma NotPending(s: State, th: Thread, th': Thread)
    requires Early(th.pc) && (Early(th'.pc) || th'.pc.Count? || (th'.pc.Unlock? && (th'.pc.res ==> !th'.op.OpAdd?)))
    ensures Pends(s, th, th')
  {
  }

  /** Policy without the flag, and the exchange. */
  predicate Asking(pc: PC) { pc.PolicyCapacity? || pc.PolicySize? || pc.Exchange? }

  lemma AskingPends(s: State, t: Tid, op: Op, e: Elem)
    requires t in s.threads && Ready(s, t) && Asking(s.threads[t].pc)
    ensures var s' := Next(s, t, op, e); t in s'.threads && Pends(s, s.threads[t], s'.threads[t])
  {
    hide Limit, MutexOf;
  }

  lemma LatePends(s: State, t: Tid, op: Op, e: Elem)
    requires t in s.threads && Ready(s, t) && !Early(s.threads[t].pc) && !Resizer(s.threads[t].pc)
    requires !Asking(s.threads[t].pc)
    ensures var s' := Next(s, t, op, e); t in s'.threads && Pends(s, s.threads[t], s'.threads[t])
  {
    hide Limit, MutexOf;
  }

  lemma ResizerPends(s: State, t: Tid, op: Op, e: Elem)
    requires t in s.threads && Ready(s, t) && Resizer(s.threads[t].pc) && !Quiet(s.threads[t].pc)
    ensures var s' := Next(s, t, op, e); t in s'.threads && Pends(s, s.threads[t], s'.threads[t])
  {
    hide Limit, MutexOf;
  }

  lemma QuietPends(s: State, t: Tid, op: Op, e: Elem)
    requires t in s.threads && Ready(s, t) && Quiet(s.threads[t].pc)
    ensures var s' := Next(s, t, op, e); t in s'.threads && Pends(s, s.threads[t], s'.threads[t])
  {
    hide Rehash, Limit, MutexOf;
  }

  lemma StepPends(s: State, t: Tid, op: Op, e: Elem)
    requires t in s.threads && Ready(s, t)
    ensures var s' := Next(s, t, op, e); t in s'.threads && Pends(s, s.threads[t], s'.threads[t])
  {
    hide Next, Ready, Pends, Early, Resizer, Quiet, Asking;
    if Early(s.threads[t].pc) {
      EarlyPends(s, t, op, e);
    } else if Asking(s.threads[t].pc) {
      AskingPends(s, t, op, e);
    } else if Quiet(s.threads[t].pc) {
      QuietPends(s, t, op, e);
    } else if Resizer(s.threads[t].pc) {
      ResizerPends(s, t, op, e);
    } else {
      LatePends(s, t, op, e);
    }
  }

  /** Only StoreCapacity changes the capacity, and a thread about to read the size has just read the capacity. */
  ghost predicate Grows(s: State, s': State, t: Tid)
    requires t in s.threads
  {
    var pc := s.threads[t].pc;
    && t in s'.threads
    && s'.capacity == (if pc.StoreCapacity? then |pc.newTable| else s.capacity)
    && (Reading(s'.threads[t].pc) ==> s'.threads[t].pc.capacity == s.capacity && !pc.StoreCapacity?)
  }

  lemma EarlyGrows(s: State, t: Tid, op: Op, e: Elem)
    requires t in s.threads && Ready(s, t) && Early(s.threads[t].pc)
    ensures Grows(s, Next(s, t, op, e), t)
  {
    hide Erased, Log, IndexOf, MutexOf;
  }

  lemma LateGrows(s: State, t: Tid, op: Op, e: Elem)
    requires t in s.threads && Ready(s, t) && !Early(s.threads[t].pc) && !Resizer(s.threads[t].pc)
    ensures Grows(s, Next(s, t, op, e), t)
  {
    hide Limit, MutexOf;
  }

  lemma ResizerGrows(s: State, t: Tid, op: Op, e: Elem)
    requires t in s.threads && Ready(s, t) && Resizer(s.threads[t].pc)
    ensures Grows(s, Next(s, t, op, e), t)
  {
    hide Rehash, Limit, MutexOf;
  }

  lemma StepGrows(s: State, t: Tid, op: Op, e: Elem)
    requires t in s.threads && Ready(s, t)
    ensures Grows(s, Next(s, t, op, e), t)
  {
    hide Next, Ready, Grows, Early, Resizer;
    if Early(s.threads[t].pc) {
      EarlyGrows(s, t, op, e);
    } else if Resizer(s.threads[t].pc) {
      ResizerGrows(s, t, op, e);
    } else {
      LateGrows(s, t, op, e);
    }
  }

  lemma StepLoad(s: State, t: Tid, op: Op, e: Elem, lost: nat)
    requires Inv(s) && LoadOk(s, lost) && t in s.threads && Ready(s, t)
    ensures LoadOk(Next(s, t, op, e), lost + One(Loses(s, t)))
  {
    hide Next, Ready, Pendings, Pending, OwnersOk, ArenaOk, DataOk, Limit, ResizersOk, QuietsOk, Placed, Elements,
      Played, Reading;
    var s', th := Next(s, t, op, e), s.threads[t];
    assert ThreadOk(s, th);
    StepOwes(s, t, op, e);
    StepPends(s, t, op, e);
    StepGrows(s, t, op, e);
    CountingPends(th);
    PendingsMove(s, s', t);
    OneMoreOrLess(Pendings(s), Pendings(s'), t);
    CapacityPositive(s);
    if th.pc.StoreCapacity? {
      RoomForOneMore(s.capacity, s.capacity);
    } else if Reading(th.pc) {
      RoomForOneMore(th.pc.capacity, s.capacity);
    }
  }

  lemma CountingPends(th: Thread)
    ensures th.pc.Count? ==> !Pending(th)
    ensures Reading(th.pc) <==> th.pc.PolicySize? || th.pc.CheckPolicySize?
  {
  }

  lemma PendingsMove(s: State, s': State, t: Tid)
    requires t in s.threads && t in s'.threads && s'.threads == s.threads[t := s'.threads[t]]
    ensures forall u :: u != t ==> (u in Pendings(s) <==> u in Pendings(s'))
    ensures (t in Pendings(s) <==> Pending(s.threads[t])) && (t in Pendings(s') <==> Pending(s'.threads[t]))
  {
    hide Pending;
  }

  /** How many of the first `i` steps lost the exchange. */
  ghost function Losses(r: Run, i: nat): nat
    requires IsRun(r) && i < |r.states|
  {
    if i == 0 then 0 else Losses(r, i - 1) + One(Loses(r.states[i - 1], r.events[i - 1].t))
  }

  lemma {:induction false} AlwaysLoaded(r: Run, i: nat)
    requires IsRun(r) && i < |r.states|
    ensures LoadOk(r.states[i], Losses(r, i))
  {
    hide Inv, Next, Ready, LoadOk, Loses;
    if i == 0 {
      LoadedAtFirst(r.states[0]);
    } else {
      AlwaysLoaded(r, i - 1);
      Always(r, i - 1);
      var e := r.events[i - 1];
      assert IsStep(r.states[i - 1], e, r.states[i]);
      StepLoad(r.states[i - 1], e.t, e.op, e.elem, Losses(r, i - 1));
    }
  }

  lemma LoadedAtFirst(s: State)
    requires Init(s)
    ensures LoadOk(s, 0)
  {
    hide ValidatedShift;
    assert Pendings(s) == {};
  }

  /**
    In every run the size stays within the load factor, three quarters, but for pending Adds and the exchanges
    lost so far.
  */
  lemma LoadBound(r: Run, i: nat)
    requires IsRun(r) && i < |r.states|
    ensures 4 * (r.states[i].size - |Pendings(r.states[i])| - Losses(r, i)) <= 3 * r.states[i].capacity
  {
    hide IsRun, Limit, Losses, Pendings;
    AlwaysLoaded(r, i);
    LimitIsThreeQuarters(r.states[i].size - |Pendings(r.states[i])| - Losses(r, i), r.states[i].capacity);
  }

  ghost predicate Quiescent(s: State) { forall t :: t in s.threads ==> s.threads[t].pc.Idle? }

  /** With no call under way the size exceeds the load factor by no more than one for every exchange lost so far. */
  lemma LoadAtRest(r: Run, i: nat)
    requires IsRun(r) && i < |r.states| && Quiescent(r.states[i])
    ensures 4 * (r.states[i].size - Losses(r, i)) <= 3 * r.states[i].capacity
  {
    hide IsRun, Losses;
    LoadBound(r, i);
    assert Pendings(r.states[i]) == {};
  }

  ghost predicate NobodyLoses(r: Run)
    requires IsRun(r)
  {
    forall i {:trigger r.events[i]} :: 0 <= i < |r.events| ==> !Loses(r.states[i], r.events[i].t)
  }

  lemma {:induction false} NothingLost(r: Run, i: nat)
    requires IsRun(r) && NobodyLoses(r) && i < |r.states|
    ensures Losses(r, i) == 0
  {
    hide Next, Ready, Init, Loses;
    if i > 0 {
      NothingLost(r, i - 1);
      assert !Loses(r.states[i - 1], r.events[i - 1].t);
    }
  }

  /** So as long as nobody loses the exchange, only pending Adds may exceed the load factor. */
  lemma LoadKeptUnlost(r: Run, i: nat)
    requires IsRun(r) && NobodyLoses(r) && i < |r.states|
    ensures 4 * (r.states[i].size - |Pendings(r.states[i])|) <= 3 * r.states[i].capacity
  {
    hide IsRun, Pendings, Losses, NobodyLoses;
    NothingLost(r, i);
    LoadBound(r, i);
  }

  // ----- runs, step by step -----

  ghost function Last(r: Run): State
    requires IsRun(r)
  {
    r.states[|r.states| - 1]
  }

  ghost function Lost(r: Run): nat
    requires IsRun(r)
  {
    Losses(r, |r.states| - 1)
  }

  lemma {:induction false} SameLosses(r: Run, q: Run, i: nat)
    requires IsRun(r) && IsRun(q) && r.states <= q.states && r.events <= q.events && i < |r.states|
    ensures Losses(q, i) == Losses(r, i)
  {
    hide Next, Ready, Init, Loses;
    if i > 0 {
      SameLosses(r, q, i - 1);
      assert r.states[i - 1] == q.states[i - 1] && r.events[i - 1] == q.events[i - 1];
    }
  }

  lemma Do(r: Run, t: Tid, op: Op, e: Elem) returns (q: Run)
    requires IsRun(r) && t in Last(r).threads
    ensures Inv(Last(r)) && Ready(Last(r), t)
    ensures IsRun(q) && Last(q) == Next(Last(r), t, op, e) && q.states[0] == r.states[0]
    ensures Lost(q) == Lost(r) + One(Loses(Last(r), t))
  {
    hide Inv, Init, Next, Ready, Loses;
    Always(r, |r.states| - 1);
    StepInv(Last(r), t, op, e);
    q := Run(r.states + [Next(Last(r), t, op, e)], r.events + [Event(t, op, e)]);
    forall i | 0 <= i < |q.events|
      ensures IsStep(q.states[i], q.events[i], q.states[i + 1])
    {
      if i < |r.events| {
        assert q.events[i] == r.events[i] && IsStep(r.states[i], r.events[i], r.states[i + 1]);
      }
    }
    SameLosses(r, q, |r.states| - 1);
  }

  /** The next step of `t`, which is in a call. */
  lemma Go(r: Run, t: Tid) returns (q: Run)
    requires IsRun(r) && t in Last(r).threads
    ensures Inv(Last(r)) && Ready(Last(r), t)
    ensures IsRun(q) && Last(q) == Next(Last(r), t, OpAdd, Elem(0, 0)) && q.states[0] == r.states[0]
    ensures Lost(q) == Lost(r) + One(Loses(Last(r), t))
  {
    q := Do(r, t, OpAdd, Elem(0, 0));
  }

  /** What `t` has done since `s`, seen from everybody else. */
  ghost predicate Since(s: State, s': State, t: Tid, th: Thread) {
    s'.threads == s.threads[t := th] && s'.capacity == s.capacity && s'.resizing == s.resizing && s'.shift == s.shift
  }

  /** `t` calls and gets as far as its bucket. */
  lemma Approach(r: Run, t: Tid, op: Op, e: Elem) returns (q: Run)
    requires IsRun(r) && t in Last(r).threads && Last(r).threads[t].pc.Idle? && !Last(r).resizing
    requires Last(r).owner == map[]
    ensures Last(r).capacity > 0
    ensures IsRun(q) && q.states[0] == r.states[0] && Lost(q) == Lost(r)
    ensures var s, s', h := Last(r), Last(q), e.code % Last(r).capacity;
            && Since(s, s', t, Thread(ReadBucket, op, e, s.capacity, h))
            && s'.owner == map[MutexOf(s.shift, h) := t] && s'.log == s.log && s'.size == s.size
  {
    hide IsRun, Inv, Last, BlockIndex, BlockOffset, BlockSize;
    var q1 := Do(r, t, op, e);
    var q2 := Go(q1, t);
    var q3 := Go(q2, t);
    var q4 := Go(q3, t);
    var q5 := Go(q4, t);
    q := Go(q5, t);
  }

  /** What the bucket of a thread that has got to it holds. */
  lemma BucketNow(s: State, t: Tid)
    requires Inv(s) && t in s.threads && s.threads[t].pc.ReadBucket?
    ensures var th := s.threads[t]; th.hash < |s.table| && (th.elem in s.table[th.hash] <==> th.elem in Played(s.log))
  {
    hide OwnersOk, ResizersOk, ArenaOk, TableIs, DataOk, Played, QuietsOk;
    assert ThreadOk(s, s.threads[t]);
    NobodyMoves(s, t);
    TableHas(s, s.threads[t].elem);
  }

  lemma TableHas(s: State, e: Elem)
    requires TableIs(s.table, s.capacity, s.log)
    ensures s.capacity > 0 && e.code % s.capacity < |s.table|
    ensures e in s.table[e.code % s.capacity] <==> e in Played(s.log)
  {
    InBucketOrNot(s, e);
  }

  /** `t` changes the set, counts, and unlocks. */
  lemma Change(r: Run, t: Tid) returns (q: Run)
    requires IsRun(r) && t in Last(r).threads && Last(r).threads[t].pc.ReadBucket? && !Last(r).threads[t].op.OpContains?
    requires Answer(Last(r).threads[t].op, Last(r).threads[t].elem, Played(Last(r).log))
    requires Last(r).owner == map[MutexOf(Last(r).shift, Last(r).threads[t].hash) := t]
    ensures IsRun(q) && q.states[0] == r.states[0] && Lost(q) == Lost(r)
    ensures var s, s', th := Last(r), Last(q), Last(r).threads[t];
            && Since(s, s', t, th.(pc := if th.op.OpAdd? then PolicyCapacity else Returning(true)))
            && s'.owner == map[] && s'.size == s.size + (if th.op.OpAdd? then 1 else -1)
            && Played(s'.log) == After(th.op, th.elem, Played(s.log))
  {
    hide IsRun, Inv, Last, BlockIndex, BlockOffset, BlockSize, Played, Erased, IndexOf;
    var th := Last(r).threads[t];
    var q1 := Go(r, t);
    BucketNow(Last(r), t);
    assert Last(q1).threads[t] == th.(pc := WriteBucket(Last(r).table[th.hash])) by {
      FindsRight(Last(r).table[th.hash], th.elem);
    }
    var q2 := Go(q1, t);
    OneMore(Last(q1).log, Entry(t, th.op, th.elem, true));
    var q3 := Go(q2, t);
    q := Go(q3, t);
  }

  lemma FindsRight(b: Bucket, e: Elem)
    ensures IndexOf(b, e) < |b| <==> e in b
  {
  }

  lemma OneMore(log: seq<Entry>, entry: Entry)
    ensures Played(log + [entry]) == After(entry.op, entry.elem, Played(log))
  {
    assert (log + [entry])[..|log|] == log;
  }

  /** `t`, having counted, looks at the size: it returns if there is room, and otherwise goes for the exchange. */
  lemma Look(r: Run, t: Tid) returns (q: Run)
    requires IsRun(r) && t in Last(r).threads && Last(r).threads[t].pc.PolicyCapacity?
    ensures IsRun(q) && q.states[0] == r.states[0] && Lost(q) == Lost(r)
    ensures var s, s', th := Last(r), Last(q), Last(r).threads[t];
            && Since(s, s', t, th.(pc := if s.size > Limit(s.capacity) then Exchange else Returning(true)))
            && s'.owner == s.owner && s'.size == s.size && s'.log == s.log
  {
    hide IsRun, Inv, Last, Limit;
    var q1 := Go(r, t);
    q := Go(q1, t);
  }

  lemma Return(r: Run, t: Tid) returns (q: Run)
    requires IsRun(r) && t in Last(r).threads && Last(r).threads[t].pc.Returning?
    ensures IsRun(q) && q.states[0] == r.states[0] && Lost(q) == Lost(r)
    ensures var s, s' := Last(r), Last(q);
            Since(s, s', t, s.threads[t].(pc := Idle)) && s'.owner == s.owner && s'.size == s.size && s'.log == s.log
  {
    hide IsRun, Inv, Last;
    q := Go(r, t);
  }

  // ----- a run in which the load factor ends up exceeded -----

  /** Elements that all belong in bucket 0, whatever the capacity. */
  function Nth(n: nat): Elem { Elem(n, 0) }

  ghost function FirstOnes(n: nat): set<Elem> { set i | 0 <= i < n :: Nth(i) }

  /** Nobody is in a call, no mutex is taken, and the flag is down. */
  ghost predicate Resting(s: State, c: nat) { Quiescent(s) && s.owner == map[] && !s.resizing && s.capacity == c }

  lemma Start(T: set<Tid>, c: nat) returns (r: Run)
    requires ValidatedShift(c).Some?
    ensures IsRun(r) && r.states[0] == Last(r) && r.states[0].threads.Keys == T && r.states[0].capacity == c
    ensures Resting(Last(r), c) && Last(r).size == 0 && Played(Last(r).log) == {} && Lost(r) == 0
  {
    hide ValidatedShift;
    var threads := map t | t in T :: Thread(Idle, OpAdd, Nth(0), 0, 0);
    r := Run([State(ValidatedShift(c).value, 1, seq(c, _ => []), c, false, 0, map[], threads, [])], []);
  }

  /** Thread `a` calls with a new element and counts it: it has to grow the table exactly if that makes one too many. */
  lemma AddsOne(r: Run, a: Tid, c: nat, n: nat) returns (q: Run)
    requires IsRun(r) && a in Last(r).threads && Resting(Last(r), c) && Last(r).size == n
    requires Played(Last(r).log) == FirstOnes(n)
    ensures IsRun(q) && q.states[0] == r.states[0] && Lost(q) == Lost(r)
    ensures var s, s' := Last(r), Last(q);
            && a in s'.threads && s'.threads == s.threads[a := s'.threads[a]]
            && s'.threads[a].pc == (if n + 1 > Limit(c) then Exchange else Returning(true))
            && s'.owner == map[] && !s'.resizing && s'.capacity == c
            && s'.size == n + 1 && Played(s'.log) == FirstOnes(n + 1)
  {
    hide IsRun, Last, Played, Limit;
    assert Nth(n) !in FirstOnes(n);
    var r1 := Approach(r, a, OpAdd, Nth(n));
    var r2 := Change(r1, a);
    q := Look(r2, a);
    assert FirstOnes(n + 1) == FirstOnes(n) + {Nth(n)};
  }

  /** Thread `a` fills the table, as far as it goes without growing. */
  lemma {:induction false} Fill(T: set<Tid>, a: Tid, c: nat, n: nat) returns (r: Run)
    requires a in T && ValidatedShift(c).Some? && n <= Limit(c)
    ensures IsRun(r) && r.states[0].threads.Keys == T && r.states[0].capacity == c && Lost(r) == 0
    ensures var s := Last(r);
            s.threads.Keys == T && Resting(s, c) && s.size == n && Played(s.log) == FirstOnes(n)
  {
    hide IsRun, Last, Played, Limit, ValidatedShift;
    if n == 0 {
      r := Start(T, c);
      assert FirstOnes(0) == {};
    } else {
      var r0 := Fill(T, a, c, n - 1);
      var r1 := AddsOne(r0, a, c, n - 1);
      r := Return(r1, a);
    }
  }

  /** Thread `a` has filled the table, added one element more, and is about to grow it. */
  lemma AboutToGrow(T: set<Tid>, a: Tid, c: nat) returns (r: Run)
    requires a in T && ValidatedShift(c).Some?
    ensures IsRun(r) && r.states[0].threads.Keys == T && r.states[0].capacity == c && Lost(r) == 0
    ensures var s, n := Last(r), Limit(c) + 1;
            && s.threads.Keys == T && s.threads[a].pc.Exchange?
            && (forall t :: t in T && t != a ==> s.threads[t].pc.Idle?)
            && s.owner == map[] && !s.resizing && s.capacity == c && s.size == n && Played(s.log) == FirstOnes(n)
  {
    hide IsRun, Last, Played, Limit, ValidatedShift;
    var r0 := Fill(T, a, c, Limit(c));
    r := AddsOne(r0, a, c, Limit(c));
  }

  /** Meanwhile `b` removes the first element, and gets as far as its bucket with another. */
  lemma MakesRoom(r: Run, a: Tid, b: Tid, n: nat) returns (q: Run)
    requires IsRun(r) && a in Last(r).threads && b in Last(r).threads && a != b
    requires Last(r).threads[a].pc.Exchange? && Last(r).threads[b].pc.Idle?
    requires Last(r).owner == map[] && !Last(r).resizing && Last(r).size == n > 0
    requires Played(Last(r).log) == FirstOnes(n)
    ensures IsRun(q) && q.states[0] == r.states[0] && Lost(q) == Lost(r) && Last(r).capacity > 0
    ensures var s, s' := Last(r), Last(q);
            && s'.threads == s.threads[b := Thread(ReadBucket, OpAdd, Nth(n), s.capacity, 0)]
            && s'.owner == map[MutexOf(s'.shift, 0) := b]
            && !s'.resizing && s'.capacity == s.capacity && s'.size == n - 1 && Nth(n) !in Played(s'.log)
  {
    hide IsRun, Last, Played;
    assert Nth(0) in FirstOnes(n) && Nth(n) !in FirstOnes(n);
    var r1 := Approach(r, b, OpRemove, Nth(0));
    var r2 := Change(r1, b);
    var r3 := Return(r2, b);
    q := Approach(r3, b, OpAdd, Nth(n));
  }

  /** `a` raises the flag, finds that there is room after all, and is about to take it down again. */
  lemma GivesUp(r: Run, a: Tid) returns (q: Run)
    requires IsRun(r) && a in Last(r).threads && Last(r).threads[a].pc.Exchange? && !Last(r).resizing
    requires Last(r).size <= Limit(Last(r).capacity)
    ensures IsRun(q) && q.states[0] == r.states[0] && Lost(q) == Lost(r)
    ensures var s, s' := Last(r), Last(q);
            s' == s.(resizing := true, threads := s.threads[a := s.threads[a].(pc := ClearResizing(false))])
  {
    hide IsRun, Inv, Last, Limit;
    var q1 := Go(r, a);
    var q2 := Go(q1, a);
    q := Go(q2, a);
  }

  /** `b` adds its element, finds no room, and loses the exchange; `a` takes the flag down. */
  lemma LosesOut(r: Run, a: Tid, b: Tid, e: Elem) returns (q: Run)
    requires IsRun(r) && a in Last(r).threads && b in Last(r).threads && a != b
    requires Last(r).threads[a].pc == ClearResizing(false)
    requires Last(r).threads[b] == Thread(ReadBucket, OpAdd, e, Last(r).capacity, 0) && e !in Played(Last(r).log)
    requires Last(r).owner == map[MutexOf(Last(r).shift, 0) := b] && Last(r).resizing
    requires Last(r).size == Limit(Last(r).capacity)
    ensures IsRun(q) && q.states[0] == r.states[0] && Lost(q) == Lost(r) + 1
    ensures var s, s' := Last(r), Last(q);
            && s'.threads.Keys == s.threads.Keys && s'.threads[a].pc.Idle? && s'.threads[b].pc.Idle?
            && (forall t :: t in s.threads && t != a && t != b ==> s'.threads[t] == s.threads[t])
            && s'.capacity == s.capacity && s'.size == s.size + 1
  {
    hide IsRun, Inv, Last, Played, Limit;
    var r1 := Change(r, b);
    var r2 := Look(r1, b);
    var r3 := Go(r2, b);
    var r4 := Return(r3, b);
    var r5 := Go(r4, a);
    q := Return(r5, a);
  }

  /**
    Whatever capacity the set starts with, with two threads or more there is a run that loses the exchange
    once, and ends at rest with one element more than the load factor allows.
  */
  lemma Overloaded(T: set<Tid>, a: Tid, b: Tid, c: nat) returns (r: Run)
    requires a in T && b in T && a != b && ValidatedShift(c).Some?
    ensures IsRun(r) && r.states[0].threads.Keys == T && r.states[0].capacity == c
    ensures Quiescent(Last(r)) && Last(r).capacity == c && Lost(r) == 1
    ensures 4 * (Last(r).size - 1) <= 3 * c < 4 * Last(r).size
  {
    hide IsRun, Last, Played, Limit, ValidatedShift;
    var r1 := AboutToGrow(T, a, c);
    var r2 := MakesRoom(r1, a, b, Limit(c) + 1);
    var r3 := GivesUp(r2, a);
    r := LosesOut(r3, a, b, Nth(Limit(c) + 1));
    LimitIsThreeQuarters(Limit(c), c);
    LimitIsThreeQuarters(Limit(c) + 1, c);
  }

  // ----- exactly when the load factor is kept -----

  ghost predicate IsRunOf(r: Run, T: set<Tid>, c: nat) {
    IsRun(r) && r.states[0].threads.Keys == T && r.states[0].capacity == c
  }

  /**
    In every run of the threads `T` with a set that is constructed with capacity `c`, whatever they do, the
    load factor holds whenever no call is under way.
  */
  ghost predicate LoadKept(T: set<Tid>, c: nat) {
    forall r, i: nat {:trigger r.states[i]} ::
      IsRunOf(r, T, c) && i < |r.states| && Quiescent(r.states[i]) ==>
        4 * r.states[i].size <= 3 * r.states[i].capacity
  }

  lemma {:induction false} SameThreads(r: Run, i: nat)
    requires IsRun(r) && i < |r.states|
    ensures r.states[i].threads.Keys == r.states[0].threads.Keys
  {
    hide Next, Ready, Init;
    if i > 0 {
      SameThreads(r, i - 1);
      var e := r.events[i - 1];
      assert IsStep(r.states[i - 1], e, r.states[i]);
      StepOwes(r.states[i - 1], e.t, e.op, e.elem);
    }
  }

  /** A thread on its own does not lose the exchange. */
  lemma AloneNeverLoses(r: Run)
    requires IsRun(r) && |r.states[0].threads.Keys| <= 1
    ensures NobodyLoses(r)
  {
    hide Next, Ready, Init;
    forall i | 0 <= i < |r.events|
      ensures !Loses(r.states[i], r.events[i].t)
    {
      var s, t := r.states[i], r.events[i].t;
      assert IsStep(s, r.events[i], r.states[i + 1]);
      Always(r, i);
      SameThreads(r, i);
      if Loses(s, t) {
        RaisedBy(s, t);
      }
    }
  }

  lemma RaisedBy(s: State, t: Tid)
    requires Inv(s) && |s.threads.Keys| <= 1 && t in s.threads && s.resizing
    ensures Resizer(s.threads[t].pc)
  {
    hide OwnersOk, ArenaOk, DataOk, ThreadsOk, QuietsOk, Resizer;
    var u :| IsResizer(s, u);
    if u != t {
      assert {t, u} <= s.threads.Keys;
      TwoIn(s.threads.Keys, t, u);
    }
  }

  lemma TwoIn(T: set<Tid>, a: Tid, b: Tid)
    requires a in T && b in T && a != b
    ensures |T| >= 2
  {
    assert T == (T - {a} - {b}) + {a} + {b};
  }

  lemma KeptAlone(T: set<Tid>, c: nat)
    requires |T| <= 1
    ensures LoadKept(T, c)
  {
    hide IsRun;
    forall r, i: nat | IsRunOf(r, T, c) && i < |r.states| && Quiescent(r.states[i])
      ensures 4 * r.states[i].size <= 3 * r.states[i].capacity
    {
      AloneNeverLoses(r);
      NothingLost(r, i);
      LoadAtRest(r, i);
    }
  }

  /**
    For every capacity that the constructor accepts, the load factor is kept in all runs of the threads `T`
    if and only if there is at most one of them.
  */
  lemma LoadKeptExactly(T: set<Tid>, c: nat)
    requires ValidatedShift(c).Some?
    ensures LoadKept(T, c) <==> |T| <= 1
  {
    hide IsRun, Last, ValidatedShift, Limit;
    if |T| <= 1 {
      KeptAlone(T, c);
    } else {
      var a :| a in T;
      assert |T - {a}| == |T| - 1;
      var b :| b in T - {a};
      var r := Overloaded(T, a, b, c);
      EndsLast(r);
      assert Quiescent(r.states[|r.states| - 1]);
    }
  }

  /** The same, of the runs in which at most `d` exchanges have been lost. */
  ghost predicate LoadKeptWithin(T: set<Tid>, c: nat, d: nat) {
    forall r, i: nat {:trigger r.states[i]} ::
      IsRunOf(r, T, c) && i < |r.states| && Losses(r, i) <= d && Quiescent(r.states[i]) ==>
        4 * r.states[i].size <= 3 * r.states[i].capacity
  }

  /**
    With two threads or more, and for every capacity that the constructor accepts, the load factor is kept
    in all runs in which at most `d` exchanges are lost if and only if `d` is 0.
  */
  lemma LoadKeptUntilLost(T: set<Tid>, c: nat, d: nat)
    requires ValidatedShift(c).Some? && |T| >= 2
    ensures LoadKeptWithin(T, c, d) <==> d == 0
  {
    hide IsRun, Last, ValidatedShift, Limit, Losses;
    if d == 0 {
      forall r, i: nat | IsRunOf(r, T, c) && i < |r.states| && Losses(r, i) <= d && Quiescent(r.states[i])
        ensures 4 * r.states[i].size <= 3 * r.states[i].capacity
      {
        LoadAtRest(r, i);
      }
    } else {
      var a :| a in T;
      assert |T - {a}| == |T| - 1;
      var b :| b in T - {a};
      var r := Overloaded(T, a, b, c);
      EndsLast(r);
      assert Quiescent(r.states[|r.states| - 1]);
    }
  }

  lemma EndsLast(r: Run)
    requires IsRun(r)
    ensures |r.states| > 0 && Last(r) == r.states[|r.states| - 1]
  {
    hide Init, Next, Ready;
  }
}
