/** What the striped set guarantees in every run. */
module StripedTheorems {
  import opened Common
  import opened Tables
  import opened SetHistory
  import opened Striped
  import opened StripedProof

  /** Thread `t` takes a step; `op` and `elem` are what it calls if it is idle. */
  datatype Event = Event(t: Tid, op: Op, elem: Elem)

  datatype Run = Run(states: seq<State>, events: seq<Event>)

  ghost predicate IsStep(s: State, e: Event, s': State) {
    e.t in s.threads && Ready(s, e.t) && s' == Next(s, e.t, e.op, e.elem)
  }

  ghost predicate IsRun(r: Run) {
    && |r.states| == |r.events| + 1 && Init(r.states[0])
    && forall i {:trigger r.events[i]} :: 0 <= i < |r.events| ==> IsStep(r.states[i], r.events[i], r.states[i + 1])
  }

  lemma {:induction false} Always(r: Run, i: nat)
    requires IsRun(r) && i < |r.states|
    ensures Inv(r.states[i])
  {
    hide Inv, Init, Next, Ready;
    if i == 0 {
      InitInv(r.states[0]);
    } else {
      Always(r, i - 1);
      var e := r.events[i - 1];
      assert IsStep(r.states[i - 1], e, r.states[i]);
      StepInv(r.states[i - 1], e.t, e.op, e.elem);
    }
  }

  // ----- locking -----

  /** No two threads are ever in the same bucket, whatever the capacity has grown to. */
  lemma OneThreadPerBucket(r: Run, i: nat, t: Tid, u: Tid)
    requires IsRun(r) && i < |r.states| && t in r.states[i].threads && u in r.states[i].threads && t != u
    requires InBucket(r.states[i].threads[t].pc)
    ensures var s := r.states[i];
            && s.capacity > 0
            && (InBucket(s.threads[u].pc) ==>
               s.threads[u].elem.code % s.capacity != s.threads[t].elem.code % s.capacity)
            && !Exclusive(s.threads[u].pc)
  {
    hide Init, Next, Ready, OwnersOk, DataOk, ThreadsOk;
    Always(r, i);
    var s := r.states[i];
    assert s.stripes > 0 by { OwnersHave(s); }
    SameBucketSameStripe(s, s.threads[t].elem, s.threads[u].elem);
    if InBucket(s.threads[u].pc) && s.threads[u].elem.code % s.capacity == s.threads[t].elem.code % s.capacity {
      OnePerBucket(s, t, u);
    }
    if Exclusive(s.threads[u].pc) {
      Alone(s, u, t);
    }
  }

  /** The thread is waiting for a mutex that is taken. */
  ghost predicate Blocked(s: State, t: Tid) {
    && t in s.threads && s.stripes > 0
    && (|| (s.threads[t].pc.LockStripe? && Stripe(s, s.threads[t].elem) in s.owner)
        || (s.threads[t].pc.LockAll? && s.threads[t].pc.i in s.owner))
  }

  ghost predicate CanMove(s: State, t: Tid) { t in s.threads && !s.threads[t].pc.Idle? && !Blocked(s, t) }

  /** Behind every taken mutex there is a thread that can move: whoever waits while holding waits for a later one. */
  lemma {:induction false} BehindMutex(s: State, w: nat) returns (u: Tid)
    requires Inv(s) && w in s.owner
    ensures CanMove(s, u)
    decreases s.stripes - w
  {
    hide DataOk, CapacityOk;
    u := s.owner[w];
    assert ThreadOk(s, s.threads[u]);
    if Blocked(s, u) {
      u := BehindMutex(s, s.threads[u].pc.i);
    }
  }

  /** Whatever the thread's next step is, it takes the thread to another place in the code. */
  ghost predicate MovesOn(s: State, u: Tid) {
    && u in s.threads && Ready(s, u)
    && forall op, e :: u in Next(s, u, op, e).threads && Next(s, u, op, e).threads[u].pc != s.threads[u].pc
  }

  /**
    Deadlock freedom: in every reachable state in which some thread is in a call, some thread can take a step
    that moves it on.
  */
  lemma NoDeadlock(r: Run, i: nat, t: Tid) returns (u: Tid)
    requires IsRun(r) && i < |r.states| && t in r.states[i].threads && !r.states[i].threads[t].pc.Idle?
    ensures CanMove(r.states[i], u) && MovesOn(r.states[i], u)
  {
    hide Inv, Init, MovesOn;
    Always(r, i);
    var s := r.states[i];
    u := t;
    if Blocked(s, t) {
      u := BehindMutex(s, if s.threads[t].pc.LockStripe? then Stripe(s, s.threads[t].elem) else s.threads[t].pc.i);
    }
    StepInv(s, u, OpAdd, Elem(0, 0));
    UnblockedMovesOn(s, u);
  }

  lemma UnblockedMovesOn(s: State, u: Tid)
    requires CanMove(s, u) && Ready(s, u)
    ensures MovesOn(s, u)
  {
  }

  // ----- the sequential history -----

  ghost predicate InCall(r: Run, t: Tid, i: nat, j: nat)
    requires IsRun(r)
  {
    && i < j < |r.states| && r.events[i].t == t && t in r.states[i].threads && r.states[i].threads[t].pc.Idle?
    && forall k :: i < k <= j ==> t in r.states[k].threads && !r.states[k].threads[t].pc.Idle?
  }

  /** The operation has taken effect. */
  predicate Done(pc: PC) {
    !pc.Idle? && !pc.LockStripe? && !pc.LoadCapacity? && !pc.ReadBucket? && !pc.WriteBucket?
  }

  function Result(pc: PC): bool { if pc.Unlock? || pc.Returning? then pc.res else true }

  function EntryOf(t: Tid, th: Thread): Entry { Entry(t, th.op, th.elem, Result(th.pc)) }

  /** What a step within a call does to the log. */
  ghost predicate Logs(s: State, s': State, t: Tid) {
    && t in s.threads && t in s'.threads && s'.threads == s.threads[t := s'.threads[t]]
    && var th, th' := s.threads[t], s'.threads[t];
       && th'.op == th.op && th'.elem == th.elem
       && (Done(th.pc) ==> Done(th'.pc) && Result(th'.pc) == Result(th.pc) && s'.log == s.log)
       && (!Done(th.pc) ==> s'.log == if Done(th'.pc) then s.log + [EntryOf(t, th')] else s.log)
  }

  predicate AtTable(pc: PC) { pc.ReadBucket? || pc.WriteBucket? }

  lemma BucketLogs(s: State, t: Tid, op: Op, e: Elem)
    requires t in s.threads && Ready(s, t) && AtTable(s.threads[t].pc)
    ensures Logs(s, Next(s, t, op, e), t)
  {
    hide Erased;
  }

  lemma OtherLogs(s: State, t: Tid, op: Op, e: Elem)
    requires t in s.threads && Ready(s, t) && !s.threads[t].pc.Idle? && !s.threads[t].pc.Returning?
    requires !AtTable(s.threads[t].pc)
    ensures Logs(s, Next(s, t, op, e), t)
  {
    hide Erased, Rehash, Limit;
  }

  lemma StepLogs(s: State, t: Tid, op: Op, e: Elem)
    requires t in s.threads && Ready(s, t) && !s.threads[t].pc.Idle? && !s.threads[t].pc.Returning?
    ensures Logs(s, Next(s, t, op, e), t)
  {
    hide Next, Ready, Logs;
    if AtTable(s.threads[t].pc) {
      BucketLogs(s, t, op, e);
    } else {
      OtherLogs(s, t, op, e);
    }
  }

  lemma CallLogs(s: State, t: Tid, op: Op, e: Elem)
    requires t in s.threads && Ready(s, t) && (s.threads[t].pc.Idle? || s.threads[t].pc.Returning?)
    ensures var s' := Next(s, t, op, e);
            && t in s'.threads && s'.threads == s.threads[t := s'.threads[t]] && s'.log == s.log
            && (s.threads[t].pc.Idle? ==> s'.threads[t] == Thread(LockStripe, op, e))
            && (s.threads[t].pc.Returning? ==> s'.threads[t].pc.Idle?)
  {
  }

  /** Within a call its thread logs its operation once, when it takes effect, and nothing else. */
  lemma {:induction false} LoggedOnce(r: Run, t: Tid, i: nat, j: nat)
    requires IsRun(r) && InCall(r, t, i, j)
    ensures var th := r.states[j].threads[t];
            && th.op == r.events[i].op && th.elem == r.events[i].elem
            && By(r.states[j].log, t) == By(r.states[i].log, t) + (if Done(th.pc) then [EntryOf(t, th)] else [])
            && r.states[i].log <= r.states[j].log
  {
    hide Next, Ready, Init, By;
    var s, e := r.states[j - 1], r.events[j - 1];
    assert IsStep(s, e, r.states[j]);
    if j - 1 == i {
      CallLogs(s, t, e.op, e.elem);
    } else {
      assert InCall(r, t, i, j - 1);
      LoggedOnce(r, t, i, j - 1);
      if s.threads[e.t].pc.Idle? || s.threads[e.t].pc.Returning? {
        CallLogs(s, e.t, e.op, e.elem);
      } else {
        StepLogs(s, e.t, e.op, e.elem);
        var th' := r.states[j].threads[e.t];
        ByLogged(s.log, EntryOf(e.t, th'), t);
      }
    }
  }

  /**
    Linearizability: there is one sequential history of all operations, legal for a set and only ever
    extended, in which every call that is about to return has exactly one entry, made during the call,
    with the answer that it is about to give.
  */
  lemma Linearizable(r: Run, t: Tid, i: nat, j: nat, res: bool)
    requires IsRun(r) && InCall(r, t, i, j) && r.states[j].threads[t].pc == Returning(res)
    ensures Legal(r.states[j].log) && r.states[i].log <= r.states[j].log
    ensures By(r.states[j].log, t) == By(r.states[i].log, t) + [Entry(t, r.events[i].op, r.events[i].elem, res)]
  {
    hide Next, Ready, Init, By, Legal, OwnersOk, ThreadsOk;
    LoggedOnce(r, t, i, j);
    Always(r, j);
  }

  /** ... and whenever no table is being moved, the table holds exactly the set that the history leaves. */
  lemma TableIsHistory(r: Run, i: nat)
    requires IsRun(r) && i < |r.states|
    requires forall t :: t in r.states[i].threads ==> !Moving(r.states[i].threads[t].pc)
    ensures var s := r.states[i]; Placed(s.table) && |s.table| == s.capacity && Elements(s.table) == Played(s.log)
  {
    hide Next, Ready, Init, Legal, OwnersOk, ThreadsOk, Placed;
    Always(r, i);
  }

  // ----- the size and the load -----

  /** Added to the table, not yet to the size. */
  predicate OwesAdd(th: Thread) { th.pc.Count? && th.op.OpAdd? }

  predicate OwesRemove(th: Thread) { th.pc.Count? && th.op.OpRemove? }

  function Adding(s: State): set<Tid> { set t | t in s.threads && OwesAdd(s.threads[t]) }

  function Removing(s: State): set<Tid> { set t | t in s.threads && OwesRemove(s.threads[t]) }

  function Pendings(s: State): set<Tid> { set t | t in s.threads && Pending(s.threads[t]) }

  ghost predicate SizeOk(s: State) { s.size == |Played(s.log)| - |Adding(s)| + |Removing(s)| }

  ghost predicate LoadOk(s: State) { s.size <= Limit(s.capacity) + |Pendings(s)| }

  lemma CountsMove(s: State, s': State, t: Tid)
    requires t in s.threads && t in s'.threads && s'.threads == s.threads[t := s'.threads[t]]
    ensures |Adding(s')| == |Adding(s)| + One(OwesAdd(s'.threads[t])) - One(OwesAdd(s.threads[t]))
    ensures |Removing(s')| == |Removing(s)| + One(OwesRemove(s'.threads[t])) - One(OwesRemove(s.threads[t]))
    ensures |Pendings(s')| == |Pendings(s)| + One(Pending(s'.threads[t])) - One(Pending(s.threads[t]))
  {
    hide OwesAdd, OwesRemove, Pending;
    OneMoreOrLess(Adding(s), Adding(s'), t);
    OneMoreOrLess(Removing(s), Removing(s'), t);
    OneMoreOrLess(Pendings(s), Pendings(s'), t);
  }

  /** Only a Count changes the size, only the end of a resize the capacity; and who owes what after a step. */
  ghost predicate Shape(s: State, s': State, t: Tid) {
    && t in s.threads && t in s'.threads && s'.threads == s.threads[t := s'.threads[t]]
    && var th := s.threads[t];
       && s'.size == s.size + (if !th.pc.Count? then 0 else if th.op.OpRemove? then -1 else 1)
       && s'.capacity == (if th.pc.StoreCapacity? then th.pc.newCapacity else s.capacity)
  }

  lemma TableShape(s: State, t: Tid, op: Op, e: Elem)
    requires t in s.threads && Ready(s, t) && AtTable(s.threads[t].pc)
    ensures Shape(s, Next(s, t, op, e), t)
  {
    hide Erased, Log, IndexOf;
  }

  lemma OtherShape(s: State, t: Tid, op: Op, e: Elem)
    requires t in s.threads && Ready(s, t) && !AtTable(s.threads[t].pc)
    ensures Shape(s, Next(s, t, op, e), t)
  {
    hide Rehash, Limit;
  }

  lemma StepShape(s: State, t: Tid, op: Op, e: Elem)
    requires t in s.threads && Ready(s, t)
    ensures Shape(s, Next(s, t, op, e), t)
  {
    hide Next, Ready, Shape;
    if AtTable(s.threads[t].pc) {
      TableShape(s, t, op, e);
    } else {
      OtherShape(s, t, op, e);
    }
  }

  lemma StepOwes(s: State, t: Tid, op: Op, e: Elem)
    requires t in s.threads && Ready(s, t)
    ensures var s', th := Next(s, t, op, e), s.threads[t];
            && t in s'.threads
            && (OwesAdd(s'.threads[t]) <==> th.pc.WriteBucket? && th.op.OpAdd?)
            && (OwesRemove(s'.threads[t]) <==> th.pc.WriteBucket? && th.op.OpRemove?)
  {
    hide Erased, Rehash, Limit, Log, IndexOf;
  }

  /** What a step makes of whether its thread is pending. */
  ghost predicate Pends(s: State, th: Thread, th': Thread) {
    Pending(th') <==>
      || (th.pc.Count? && th.op.OpAdd?)
      || (Pending(th) && !th.pc.StoreCapacity? &&
          !((th.pc.PolicySize? || th.pc.CheckSize?) && s.size <= Limit(th.pc.capacity)))
  }

  lemma StepPendsEarly(s: State, t: Tid, op: Op, e: Elem)
    requires t in s.threads && Ready(s, t)
    requires s.threads[t].pc.Idle? || s.threads[t].pc.LockStripe? || InBucket(s.threads[t].pc)
    ensures var s' := Next(s, t, op, e); t in s'.threads && Pends(s, s.threads[t], s'.threads[t])
  {
    hide Erased, Rehash, Limit, Log, IndexOf;
  }

  lemma StepPendsLate(s: State, t: Tid, op: Op, e: Elem)
    requires t in s.threads && Ready(s, t)
    requires !(s.threads[t].pc.Idle? || s.threads[t].pc.LockStripe? || InBucket(s.threads[t].pc))
    ensures var s' := Next(s, t, op, e); t in s'.threads && Pends(s, s.threads[t], s'.threads[t])
  {
    hide Erased, Rehash, Limit, Log, IndexOf;
  }

  /** An Add stops being pending only where it finds room, or has made it. */
  lemma StepPends(s: State, t: Tid, op: Op, e: Elem)
    requires t in s.threads && Ready(s, t)
    ensures var s' := Next(s, t, op, e); t in s'.threads && Pends(s, s.threads[t], s'.threads[t])
  {
    hide Next, Ready, Pends;
    if s.threads[t].pc.Idle? || s.threads[t].pc.LockStripe? || InBucket(s.threads[t].pc) {
      StepPendsEarly(s, t, op, e);
    } else {
      StepPendsLate(s, t, op, e);
    }
  }

  /** The set changes with the write of a bucket, and only then. */
  lemma StepPlays(s: State, t: Tid, op: Op, e: Elem)
    requires Inv(s) && t in s.threads && Ready(s, t)
    ensures var A, B, th := Played(s.log), Played(Next(s, t, op, e).log), s.threads[t];
            if th.pc.WriteBucket? then !th.op.OpContains? && Answer(th.op, th.elem, A) && B == After(th.op, th.elem, A)
              else B == A
  {
    hide Played, Legal, OwnersOk, TableIs, Placed, Elements, Rehash, Erased, CapacityOk;
    var th := s.threads[t];
    assert ThreadOk(s, th);
    if th.pc.WriteBucket? {
      NobodyMoves(s, t);
      Written(s, th, th.pc.index, th.pc.bucket);
      Logged(s.log, Entry(t, th.op, th.elem, true));
    } else if th.pc.ReadBucket? {
      NobodyMoves(s, t);
      InBucketOrNot(s, th.elem);
      var pc := Next(s, t, op, e).threads[t].pc;
      if pc.Unlock? {
        LoggedRead(s.log, Entry(t, th.op, th.elem, pc.res));
      }
    }
  }

  lemma StepCounts(s: State, t: Tid, op: Op, e: Elem)
    requires Inv(s) && SizeOk(s) && t in s.threads && Ready(s, t)
    ensures SizeOk(Next(s, t, op, e))
  {
    hide Next, Ready, Played, Adding, Removing, OwnersOk, CapacityOk, DataOk;
    var s', th := Next(s, t, op, e), s.threads[t];
    assert ThreadOk(s, th);
    StepShape(s, t, op, e);
    StepOwes(s, t, op, e);
    StepPlays(s, t, op, e);
    CountsMove(s, s', t);
  }

  lemma StepLoad(s: State, t: Tid, op: Op, e: Elem)
    requires Inv(s) && LoadOk(s) && t in s.threads && Ready(s, t)
    ensures LoadOk(Next(s, t, op, e))
  {
    hide Next, Ready, Pendings, Pending, OwnersOk, CapacityOk, DataOk, Limit, TableIs;
    var s', th := Next(s, t, op, e), s.threads[t];
    assert ThreadOk(s, th);
    StepShape(s, t, op, e);
    StepPends(s, t, op, e);
    CountsMove(s, s', t);
    StoringPends(th);
    if th.pc.StoreCapacity? {
      assert s.stripes > 0 by { OwnersHave(s); }
      SameBucketSameStripe(s, th.elem, th.elem);
      RoomForOneMore(s.capacity, s.capacity);
    } else if th.pc.PolicySize? || th.pc.CheckSize? {
      RoomForOneMore(th.pc.capacity, s.capacity);
    }
  }

  lemma StoringPends(th: Thread)
    ensures th.pc.StoreCapacity? && th.op.OpAdd? ==> Pending(th)
    ensures th.pc.Count? ==> !Pending(th)
  {
  }

  lemma {:induction false} AlwaysSized(r: Run, i: nat)
    requires IsRun(r) && i < |r.states|
    ensures SizeOk(r.states[i]) && LoadOk(r.states[i])
  {
    hide Inv, Next, Ready, SizeOk, LoadOk;
    if i == 0 {
      SizedAtFirst(r.states[0]);
    } else {
      AlwaysSized(r, i - 1);
      Always(r, i - 1);
      var e := r.events[i - 1];
      assert IsStep(r.states[i - 1], e, r.states[i]);
      StepCounts(r.states[i - 1], e.t, e.op, e.elem);
      StepLoad(r.states[i - 1], e.t, e.op, e.elem);
    }
  }

  lemma SizedAtFirst(s: State)
    requires Init(s)
    ensures SizeOk(s) && LoadOk(s)
  {
    assert Adding(s) == {} && Removing(s) == {} && Pendings(s) == {};
  }

  /** The counter never goes below zero, however additions and removals overlap. */
  lemma SizeNeverNegative(r: Run, i: nat)
    requires IsRun(r) && i < |r.states|
    ensures r.states[i].size >= 0
  {
    hide Next, Ready, Init, Played, Legal, OwnersOk, DataOk, CapacityOk;
    var s := r.states[i];
    Always(r, i);
    AlwaysSized(r, i);
    forall t, u | t in Adding(s) && u in Adding(s) && s.threads[t].elem == s.threads[u].elem
      ensures t == u
    {
      if t != u {
        OneThreadPerBucket(r, i, t, u);
      }
    }
    assert forall t :: t in Adding(s) ==> ThreadOk(s, s.threads[t]);
    NoMoreThan(Adding(s), map t | t in s.threads :: s.threads[t].elem, Played(s.log));
  }

  /**
    The load bound: the size exceeds what the load factor allows by no more than the number of Adds that
    have counted their element and not yet found, or made, room for it. So with no call under way the
    load factor holds, and the size is exactly the number of elements.
  */
  lemma LoadBound(r: Run, i: nat)
    requires IsRun(r) && i < |r.states|
    ensures var s := r.states[i];
            && 4 * (s.size - |Pendings(s)|) <= 3 * s.capacity
            && ((forall t :: t in s.threads ==> s.threads[t].pc.Idle?) ==>
                  s.size == |Elements(s.table)| && 4 * |Elements(s.table)| <= 3 * s.capacity)
  {
    hide IsRun, Elements, Played, Limit;
    AlwaysSized(r, i);
    var s := r.states[i];
    LimitIsThreeQuarters(s.size - |Pendings(s)|, s.capacity);
    if forall t :: t in s.threads ==> s.threads[t].pc.Idle? {
      assert Adding(s) == {} && Removing(s) == {} && Pendings(s) == {};
      TableIsHistory(r, i);
    }
  }
}
