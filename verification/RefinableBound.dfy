/**
  How much work the refinable set does. A lock that turns out not to be valid is dropped and taken again
  (src/HashSetRefinable.h:86-111), but only because the flag or the capacity has changed: a call takes a bounded
  number of steps of its own thread, waiting aside, for every such change. Each call makes at most three of them,
  so whatever the schedule some call returns within a bounded number of steps of threads that do not wait.
*/
module RefinableBound {
  import opened Common
  import opened Bits
  import opened Tables
  import opened SetHistory
  import opened MutexArena
  import opened Refinable
  import opened RefinableProof
  import opened RefinableTheorems

  // ----- what a thread has left to do -----

  /** The changes to the flag and to the capacity that a thread may still make in its call, or the next. */
  function Credit(pc: PC): nat {
    match pc
    case Returning(_) => 0
    case ClearResizing(_) => 1
    case StoreTable(_) => 1
    case _ => if Resizer(pc) then 2 else 3
  }

  /** Steps to the return from a resize, of a table with at most `c` buckets. */
  function ResizeSteps(pc: PC, c: nat): nat {
    match pc
    case CheckPolicyCapacity => 2 * c + 9
    case CheckPolicySize(_) => 2 * c + 8
    case ResizeCapacity => 2 * c + 7
    case QuiesceLock(i, n) => if i <= n then 2 * (n - i) + 6 else 0
    case QuiesceUnlock(i, n) => if i <= n then 2 * (n - i) + 5 else 0
    case Enlarge(_) => 5
    case Rebuild(_) => 4
    case StoreCapacity(_) => 3
    case StoreTable(_) => 2
    case ClearResizing(_) => 1
    case _ => 0
  }

  /** Steps to the critical section: those that the lock will turn out not to be valid for are spent in vain. */
  function EntrySteps(th: Thread, resizing: bool, capacity: nat): nat {
    match th.pc
    case Idle => 6
    case Spin => 5
    case LoadCapacity => if resizing then 11 else 4
    case LockBucket => if resizing then 10 else if th.capacity != capacity then 11 else 3
    case CheckResizing => if resizing then 9 else if th.capacity != capacity then 10 else 2
    case CheckCapacity => if th.capacity != capacity then 9 else 1
    case UnlockRetry => 8
    case _ => 0
  }

  /** Steps to the return, if neither the flag nor the capacity changes. */
  function Work(th: Thread, resizing: bool, capacity: nat, c: nat): nat {
    match th.pc
    case ReadBucket => 2 * c + 16
    case WriteBucket(_) => 2 * c + 15
    case Count => 2 * c + 14
    case Unlock(_) => 2 * c + 13
    case PolicyCapacity => 2 * c + 12
    case PolicySize(_) => 2 * c + 11
    case Exchange => 2 * c + 10
    case Returning(_) => 0
    case _ => if Resizer(th.pc) then ResizeSteps(th.pc, c) else 2 * c + 16 + EntrySteps(th, resizing, capacity)
  }

  /** Enough for any thread, while there are at most `c` buckets. */
  function Most(c: nat): nat { 2 * c + 27 }

  ghost function WorkOf(s: State, t: Tid, c: nat): nat
    requires t in s.threads
  {
    Work(s.threads[t], s.resizing, s.capacity, c)
  }

  lemma WorkBound(s: State, t: Tid, c: nat)
    requires t in s.threads && ThreadOk(s, s.threads[t]) && s.capacity <= c
    ensures WorkOf(s, t, c) <= Most(c)
  {
    hide TableIs;
  }

  // ----- one step -----

  /** The step changes the flag or the capacity. */
  ghost predicate Changes(s: State, s': State) { s'.resizing != s.resizing || s'.capacity != s.capacity }

  /** `t` moves on: closer to its return, or by one of the changes that it has left to make. */
  ghost predicate Nearer(s: State, s': State, t: Tid, c: nat) {
    && t in s.threads && t in s'.threads && s'.threads == s.threads[t := s'.threads[t]]
    && WorkOf(s, t, c) > 0
    && if Changes(s, s') then
         Credit(s'.threads[t].pc) < Credit(s.threads[t].pc) && s.capacity <= s'.capacity <= 2 * s.capacity
       else
         WorkOf(s', t, c) < WorkOf(s, t, c) && Credit(s'.threads[t].pc) <= Credit(s.threads[t].pc)
  }

  lemma WaitingStays(s: State, t: Tid, op: Op, e: Elem)
    requires Ready(s, t) && Blocked(s, t)
    ensures Next(s, t, op, e) == s
  {
    hide MutexOf;
  }

  /** The code of the scoped lock. */
  predicate Entering(pc: PC) {
    pc.Idle? || pc.Spin? || pc.LoadCapacity? || pc.LockBucket? || pc.CheckResizing? || pc.CheckCapacity? ||
    pc.UnlockRetry?
  }

  lemma EntryWork(s: State, t: Tid, c: nat)
    requires t in s.threads && (Entering(s.threads[t].pc) || s.threads[t].pc.ReadBucket?)
    ensures WorkOf(s, t, c) == 2 * c + 16 + EntrySteps(s.threads[t], s.resizing, s.capacity)
    ensures Credit(s.threads[t].pc) == 3
  {
  }

  predicate Validating(pc: PC) { pc.CheckResizing? || pc.CheckCapacity? || pc.UnlockRetry? }

  lemma EntryNearer(s: State, t: Tid, op: Op, e: Elem, c: nat)
    requires t in s.threads && Ready(s, t) && Entering(s.threads[t].pc) && !Blocked(s, t)
    requires !Validating(s.threads[t].pc)
    ensures Nearer(s, Next(s, t, op, e), t, c)
  {
    hide MutexOf, WorkOf, Credit;
    EntryWork(s, t, c);
    EntryWork(Next(s, t, op, e), t, c);
  }

  lemma ValidNearer(s: State, t: Tid, op: Op, e: Elem, c: nat)
    requires t in s.threads && Ready(s, t) && Validating(s.threads[t].pc)
    ensures Nearer(s, Next(s, t, op, e), t, c)
  {
    hide MutexOf, WorkOf, Credit;
    EntryWork(s, t, c);
    EntryWork(Next(s, t, op, e), t, c);
  }

  predicate AtTable(pc: PC) { pc.ReadBucket? || pc.WriteBucket? }

  lemma TableNearer(s: State, t: Tid, op: Op, e: Elem, c: nat)
    requires t in s.threads && Ready(s, t) && AtTable(s.threads[t].pc)
    ensures Nearer(s, Next(s, t, op, e), t, c)
  {
    hide Erased, IndexOf, Log, EntrySteps, ResizeSteps;
  }

  lemma BucketNearer(s: State, t: Tid, op: Op, e: Elem, c: nat)
    requires t in s.threads && Ready(s, t) && InBucket(s.threads[t].pc) && !AtTable(s.threads[t].pc)
    ensures Nearer(s, Next(s, t, op, e), t, c)
  {
    hide MutexOf, EntrySteps, ResizeSteps;
  }

  lemma PolicyNearer(s: State, t: Tid, op: Op, e: Elem, c: nat)
    requires t in s.threads && Ready(s, t)
    requires s.threads[t].pc.PolicyCapacity? || s.threads[t].pc.PolicySize? || s.threads[t].pc.Exchange?
    ensures Nearer(s, Next(s, t, op, e), t, c)
  {
    hide Limit;
  }

  predicate Quiescing(pc: PC) { pc.QuiesceLock? || pc.QuiesceUnlock? }

  lemma QuiesceNearer(s: State, t: Tid, op: Op, e: Elem, c: nat)
    requires t in s.threads && Ready(s, t) && Quiescing(s.threads[t].pc) && !Blocked(s, t)
    requires ThreadOk(s, s.threads[t])
    ensures Nearer(s, Next(s, t, op, e), t, c)
  {
    hide MutexOf, EntrySteps, TableIs, HasMutex;
  }

  lemma ResizeNearer(s: State, t: Tid, op: Op, e: Elem, c: nat)
    requires t in s.threads && Ready(s, t) && Resizer(s.threads[t].pc) && !Quiet(s.threads[t].pc)
    requires !Quiescing(s.threads[t].pc) && s.capacity <= c && s.resizing
    ensures Nearer(s, Next(s, t, op, e), t, c)
  {
    hide Limit, EntrySteps;
  }

  lemma QuietNearer(s: State, t: Tid, op: Op, e: Elem, c: nat)
    requires t in s.threads && Ready(s, t) && Quiet(s.threads[t].pc) && !Moving(s.threads[t].pc) && s.resizing
    ensures Nearer(s, Next(s, t, op, e), t, c)
  {
    hide Rehash, EntrySteps, BlockIndex;
  }

  lemma MovingNearer(s: State, t: Tid, op: Op, e: Elem, c: nat)
    requires t in s.threads && Ready(s, t) && Moving(s.threads[t].pc) && ThreadOk(s, s.threads[t])
    ensures Nearer(s, Next(s, t, op, e), t, c)
  {
    hide Placed, Elements, Played, EntrySteps;
  }

  lemma StepNearer(s: State, t: Tid, op: Op, e: Elem, c: nat)
    requires Inv(s) && t in s.threads && Ready(s, t) && !s.threads[t].pc.Returning? && !Blocked(s, t)
    requires s.capacity <= c
    ensures Nearer(s, Next(s, t, op, e), t, c)
  {
    hide Next, Ready, Nearer, Blocked, OwnersOk, DataOk, ArenaOk, ResizersOk, QuietsOk, ThreadOk, Resizer, Quiet,
      Entering, Validating, AtTable, Quiescing, InBucket, Moving;
    assert ThreadOk(s, s.threads[t]);
    var pc := s.threads[t].pc;
    if Quiet(pc) || Resizer(pc) {
      QuietResizes(pc);
      ResizerRaised(s, t);
      if Moving(pc) {
        MovingNearer(s, t, op, e, c);
      } else if Quiet(pc) {
        QuietNearer(s, t, op, e, c);
      } else if Quiescing(pc) {
        QuiesceNearer(s, t, op, e, c);
      } else {
        ResizeNearer(s, t, op, e, c);
      }
    } else if Validating(pc) {
      ValidNearer(s, t, op, e, c);
    } else if Entering(pc) {
      EntryNearer(s, t, op, e, c);
    } else if AtTable(pc) {
      TableNearer(s, t, op, e, c);
    } else if InBucket(pc) {
      BucketNearer(s, t, op, e, c);
    } else {
      RestAsks(pc);
      PolicyNearer(s, t, op, e, c);
    }
  }

  lemma QuietResizes(pc: PC)
    ensures Quiet(pc) ==> Resizer(pc)
  {
  }

  lemma RestAsks(pc: PC)
    ensures || pc.Returning? || Resizer(pc) || Entering(pc) || InBucket(pc)
            || pc.PolicyCapacity? || pc.PolicySize? || pc.Exchange?
  {
  }

  // ----- one call -----

  /** Step `k` is the return of a call. */
  ghost predicate Returns(r: Run, k: nat)
    requires IsRun(r) && k < |r.events|
  {
    var t := r.events[k].t; t in r.states[k].threads && r.states[k].threads[t].pc.Returning?
  }

  /** Step `k` changes something: it is that of a thread that does not wait. */
  ghost predicate Works(r: Run, k: nat)
    requires IsRun(r) && k < |r.events|
  {
    r.states[k + 1] != r.states[k]
  }

  /** How many steps of `t` from `i` up to `j` are not spent waiting. */
  ghost function StepsOf(r: Run, t: Tid, i: nat, j: nat): nat
    requires IsRun(r) && i <= j < |r.states|
    decreases j
  {
    if i == j then 0 else StepsOf(r, t, i, j - 1) + One(r.events[j - 1].t == t && Works(r, j - 1))
  }

  /** How often the flag or the capacity changes from `i` up to `j`. */
  ghost function ChangesIn(r: Run, i: nat, j: nat): nat
    requires IsRun(r) && i <= j < |r.states|
    decreases j
  {
    if i == j then 0 else ChangesIn(r, i, j - 1) + One(Changes(r.states[j - 1], r.states[j]))
  }

  /** What any step does: one that waits does nothing, and a return nothing to what is shared. */
  ghost predicate Steps(s: State, s': State, t: Tid, c: nat) {
    && t in s.threads && t in s'.threads && s'.threads == s.threads[t := s'.threads[t]]
    && (Blocked(s, t) ==> s' == s)
    && (s.threads[t].pc.Returning? ==> !Changes(s, s'))
    && (!Blocked(s, t) && !s.threads[t].pc.Returning? ==> Nearer(s, s', t, c))
    && s.capacity <= s'.capacity
  }

  lemma ReturnSteps(s: State, t: Tid, op: Op, e: Elem)
    requires t in s.threads && Ready(s, t) && s.threads[t].pc.Returning?
    ensures Next(s, t, op, e) == s.(threads := s.threads[t := s.threads[t].(pc := Idle)]) && !Blocked(s, t)
  {
  }

  lemma AnyStep(s: State, t: Tid, op: Op, e: Elem, c: nat)
    requires Inv(s) && t in s.threads && Ready(s, t) && s.capacity <= c
    ensures Steps(s, Next(s, t, op, e), t, c)
  {
    hide Inv, Next, Ready, Blocked, WorkOf, Credit;
    if Blocked(s, t) {
      WaitingStays(s, t, op, e);
    } else if s.threads[t].pc.Returning? {
      ReturnSteps(s, t, op, e);
    } else {
      StepNearer(s, t, op, e, c);
    }
  }

  lemma StepOf(r: Run, k: nat, c: nat)
    requires IsRun(r) && k < |r.events| && r.states[k].capacity <= c
    ensures Steps(r.states[k], r.states[k + 1], r.events[k].t, c)
  {
    hide Init, Inv, Next, Ready, Steps;
    Always(r, k);
    assert IsStep(r.states[k], r.events[k], r.states[k + 1]);
    AnyStep(r.states[k], r.events[k].t, r.events[k].op, r.events[k].elem, c);
  }

  lemma {:induction false} CapacityGrows(r: Run, i: nat, j: nat)
    requires IsRun(r) && i <= j < |r.states|
    ensures r.states[i].capacity <= r.states[j].capacity
    decreases j
  {
    hide Init, Next, Ready, Blocked, Nearer;
    if i < j {
      CapacityGrows(r, i, j - 1);
      StepOf(r, j - 1, r.states[j - 1].capacity);
    }
  }

  lemma WorkNow(r: Run, t: Tid, i: nat, c: nat)
    requires IsRun(r) && i < |r.states| && t in r.states[i].threads && r.states[i].capacity <= c
    ensures WorkOf(r.states[i], t, c) <= Most(c)
  {
    hide IsRun, OwnersOk, DataOk, ArenaOk, ResizersOk, QuietsOk, ThreadOk, WorkOf, Most;
    Always(r, i);
    assert ThreadOk(r.states[i], r.states[i].threads[t]);
    WorkBound(r.states[i], t, c);
  }

  lemma {:induction false} CountedDown(r: Run, t: Tid, i: nat, j: nat, c: nat)
    requires IsRun(r) && i <= j < |r.states| && t in r.states[i].threads && r.states[j].capacity <= c
    requires forall k :: i <= k < j && r.events[k].t == t ==> !Returns(r, k)
    ensures t in r.states[j].threads
    ensures StepsOf(r, t, i, j) + WorkOf(r.states[j], t, c) <= Times(ChangesIn(r, i, j) + 1, Most(c))
    decreases j
  {
    hide Init, Inv, Next, Ready, Blocked, Work, Credit, Most, Times;
    if i == j {
      WorkNow(r, t, i, c);
      assert Times(1, Most(c)) == Most(c) by { OneTime(Most(c)); }
    } else {
      CapacityGrows(r, j - 1, j);
      CountedDown(r, t, i, j - 1, c);
      StepOf(r, j - 1, c);
      WorkNow(r, t, j, c);
      OneTimeMore(ChangesIn(r, i, j - 1) + 1, Most(c));
      var s, s', u := r.states[j - 1], r.states[j], r.events[j - 1].t;
      assert u == t ==> !Returns(r, j - 1);
    }
  }

  lemma OneTime(m: nat)
    ensures Times(1, m) == m
  {
  }

  lemma OneTimeMore(n: nat, m: nat)
    ensures Times(n + 1, m) == Times(n, m) + m
  {
    OneMoreTimes(n, m);
  }

  /**
    Bounded work: until a thread returns from the call it is in, or makes next, it takes no more than
    2 * capacity + 27 steps in which it does not wait, and as many more for every change of the flag or of the
    capacity meanwhile.
  */
  lemma CallBound(r: Run, t: Tid, i: nat, j: nat)
    requires IsRun(r) && i <= j < |r.states| && t in r.states[i].threads
    requires forall k :: i <= k < j && r.events[k].t == t ==> !Returns(r, k)
    ensures StepsOf(r, t, i, j) <= (ChangesIn(r, i, j) + 1) * (2 * r.states[j].capacity + 27)
  {
    hide IsRun, Returns;
    CountedDown(r, t, i, j, r.states[j].capacity);
  }

  // ----- all calls -----

  ghost function Credits(s: State): map<Tid, nat> { map t | t in s.threads :: Credit(s.threads[t].pc) }

  ghost function WorkLeft(s: State, c: nat): map<Tid, nat> { map t | t in s.threads :: WorkOf(s, t, c) }

  /** However often the capacity may still be doubled, it will not exceed `c`. */
  ghost predicate Fits(s: State, c: nat) { s.capacity * Pow2(Sum(Credits(s))) <= c }

  lemma FitsNow(s: State, c: nat)
    requires Fits(s, c)
    ensures s.capacity <= c
  {
    MoreTimes(1, Pow2(Sum(Credits(s))), s.capacity);
  }

  lemma Products(a: nat, b: nat, p: nat, q: nat)
    requires b <= a && p <= q
    ensures b * p <= a * q
  {
    MoreTimes(b, a, p);
    MoreTimes(p, q, a);
  }

  lemma TwiceTimes(a: nat, q: nat)
    ensures (2 * a) * q == a * (2 * q)
  {
  }

  lemma PowNext(n: nat)
    ensures Pow2(n + 1) == 2 * Pow2(n)
  {
  }

  lemma Doubling(a: nat, b: nat, m: nat, n: nat)
    requires (b <= a && m <= n) || (b <= 2 * a && m < n)
    ensures b * Pow2(m) <= a * Pow2(n)
  {
    hide Pow2;
    if b <= a {
      Pow2Monotone(m, n);
      Products(a, b, Pow2(m), Pow2(n));
    } else {
      Pow2Monotone(m, n - 1);
      Products(2 * a, b, Pow2(m), Pow2(n - 1));
      PowNext(n - 1);
      TwiceTimes(a, Pow2(n - 1));
    }
  }

  /** What is left to be done in all: the credits, at the price of everything for each of them, and the work. */
  ghost function Left(s: State, c: nat): nat {
    Price(Sum(Credits(s)), |s.threads|, Most(c)) + Sum(WorkLeft(s, c))
  }

  lemma CreditsChange(s: State, s': State, t: Tid)
    requires t in s.threads && t in s'.threads && s'.threads == s.threads[t := s'.threads[t]]
    ensures Sum(Credits(s')) + Credit(s.threads[t].pc) == Sum(Credits(s)) + Credit(s'.threads[t].pc)
  {
    hide Credit;
    assert Credits(s') == Credits(s)[t := Credit(s'.threads[t].pc)];
    SumChanged(Credits(s), t, Credit(s'.threads[t].pc));
  }

  lemma WorkChanges(s: State, s': State, t: Tid, c: nat)
    requires t in s.threads && t in s'.threads && s'.threads == s.threads[t := s'.threads[t]] && !Changes(s, s')
    ensures Sum(WorkLeft(s', c)) + WorkOf(s, t, c) == Sum(WorkLeft(s, c)) + WorkOf(s', t, c)
  {
    hide Work;
    assert WorkLeft(s', c) == WorkLeft(s, c)[t := WorkOf(s', t, c)];
    SumChanged(WorkLeft(s, c), t, WorkOf(s', t, c));
  }

  lemma AllWork(s: State, c: nat)
    requires ThreadsOk(s) && s.capacity <= c
    ensures Sum(WorkLeft(s, c)) <= Times(|s.threads|, Most(c))
  {
    hide ThreadOk, WorkOf, Most;
    forall t | t in s.threads
      ensures WorkLeft(s, c)[t] <= Most(c)
    {
      assert ThreadOk(s, s.threads[t]);
      WorkBound(s, t, c);
    }
    var f := WorkLeft(s, c);
    assert f.Keys == s.threads.Keys && |f| == |f.Keys| && |s.threads| == |s.threads.Keys|;
    SumBound(f, Most(c));
  }

  lemma SameCount(s: State, s': State, t: Tid)
    requires t in s.threads && t in s'.threads && s'.threads == s.threads[t := s'.threads[t]]
    ensures |s'.threads| == |s.threads|
  {
    assert s'.threads.Keys == s.threads.Keys;
    assert |s'.threads| == |s'.threads.Keys| && |s.threads| == |s.threads.Keys|;
  }

  /** Whoever moves on leaves less to be done than there was. */
  lemma LeftFalls(s: State, s': State, t: Tid, c: nat)
    requires ThreadsOk(s') && Nearer(s, s', t, c) && Fits(s, c)
    ensures Fits(s', c) && Left(s', c) < Left(s, c)
  {
    hide ThreadOk, Credits, WorkLeft, WorkOf, Credit, Most;
    CreditsChange(s, s', t);
    SameCount(s, s', t);
    var a, b := Sum(Credits(s)), Sum(Credits(s'));
    Doubling(s.capacity, s'.capacity, b, a);
    if Changes(s, s') {
      FitsNow(s', c);
      AllWork(s', c);
      OneLess(a, b, |s.threads| * Most(c) + 1);
    } else {
      WorkChanges(s, s', t, c);
      MoreTimes(b, a, |s.threads| * Most(c) + 1);
    }
  }

  /** How many steps from `i` up to `j` are not spent waiting. */
  ghost function StepsIn(r: Run, i: nat, j: nat): nat
    requires IsRun(r) && i <= j < |r.states|
    decreases j
  {
    if i == j then 0 else StepsIn(r, i, j - 1) + One(Works(r, j - 1))
  }

  lemma {:induction false} AllCountedDown(r: Run, i: nat, j: nat, c: nat)
    requires IsRun(r) && i <= j < |r.states| && Fits(r.states[i], c)
    requires forall k :: i <= k < j ==> !Returns(r, k)
    ensures Fits(r.states[j], c) && StepsIn(r, i, j) + Left(r.states[j], c) <= Left(r.states[i], c)
    decreases j
  {
    hide Init, Next, Ready, Blocked, Nearer, Fits, Left, OwnersOk, DataOk, ArenaOk, ResizersOk, QuietsOk, ThreadsOk;
    if i < j {
      AllCountedDown(r, i, j - 1, c);
      var s, s', u := r.states[j - 1], r.states[j], r.events[j - 1].t;
      FitsNow(s, c);
      StepOf(r, j - 1, c);
      assert !Returns(r, j - 1);
      if !Blocked(s, u) {
        Always(r, j);
        LeftFalls(s, s', u, c);
      }
    }
  }

  /** A capacity that is not exceeded before every thread has returned once. */
  ghost function Ceiling(s: State): nat { s.capacity * Pow2(3 * |s.threads|) }

  /** The number of steps of threads that do not wait, from `s` on, within which some call returns. */
  ghost function Bound(s: State): nat {
    var n, m := |s.threads|, Most(Ceiling(s));
    Price(3 * n, n, m) + Times(n, m)
  }

  lemma CreditsBound(s: State)
    ensures Sum(Credits(s)) <= 3 * |s.threads| && Fits(s, Ceiling(s))
  {
    var f := Credits(s);
    assert f.Keys == s.threads.Keys && |f| == |f.Keys| && |s.threads| == |s.threads.Keys|;
    SumBound(f, 3);
    Pow2Monotone(Sum(f), 3 * |s.threads|);
    MoreTimes(Pow2(Sum(f)), Pow2(3 * |s.threads|), s.capacity);
  }

  /** Between two states of a run between which no call returns there are at most so many steps. */
  lemma StepsBetweenReturns(r: Run, i: nat, j: nat)
    requires IsRun(r) && i <= j < |r.states| && forall k :: i <= k < j ==> !Returns(r, k)
    ensures StepsIn(r, i, j) <= Bound(r.states[i])
  {
    hide IsRun, Returns, OwnersOk, DataOk, ArenaOk, ResizersOk, QuietsOk, ThreadsOk, Credits, WorkLeft, Most, Ceiling,
      Fits;
    var s := r.states[i];
    var c := Ceiling(s);
    CreditsBound(s);
    AllCountedDown(r, i, j, c);
    Always(r, i);
    FitsNow(s, c);
    AllWork(s, c);
    MoreTimes(Sum(Credits(s)), 3 * |s.threads|, |s.threads| * Most(c) + 1);
  }

  /**
    Progress: in every run, whatever the threads do and however they are scheduled, some call returns within a
    number of steps of threads that do not wait, bounded by the number of threads and the capacity at first. By
    NoDeadlock there is always such a step to take while a call is under way.
  */
  lemma SomeCallReturns(r: Run, i: nat, j: nat) returns (k: nat)
    requires IsRun(r) && i <= j < |r.states| && StepsIn(r, i, j) > Bound(r.states[i])
    ensures i <= k < j && Returns(r, k)
  {
    hide IsRun, Bound, Returns;
    RunLength(r);
    if forall k :: i <= k < j ==> !Returns(r, k) {
      StepsBetweenReturns(r, i, j);
    }
    k :| i <= k < j && Returns(r, k);
  }

  lemma RunLength(r: Run)
    requires IsRun(r)
    ensures |r.states| == |r.events| + 1
  {
    hide Init, Next, Ready;
  }

  // ----- who waits for whom -----

  lemma StuckIsBlocked(s: State, t: Tid, op: Op, e: Elem)
    requires Inv(s) && t in s.threads && Ready(s, t) && Next(s, t, op, e) == s
    ensures Blocked(s, t)
  {
    hide Inv, Next, Ready, Blocked, WorkOf, Credit;
    if !Blocked(s, t) {
      if s.threads[t].pc.Returning? {
        ReturnSteps(s, t, op, e);
      } else {
        StepNearer(s, t, op, e, s.capacity);
      }
    }
  }

  /** Different buckets have different mutexes, whatever the capacity is. */
  lemma SameMutex(s: State, i: nat, j: nat)
    requires MutexOf(s.shift, i) == MutexOf(s.shift, j)
    ensures i == j
  {
    hide BlockIndex, BlockOffset, BlockSize;
    ArenaBijection(s.shift, 0, i, BlockIndex(s.shift, i), BlockOffset(s.shift, i));
    ArenaBijection(s.shift, 0, j, BlockIndex(s.shift, i), BlockOffset(s.shift, i));
  }

  /** The thread holds the mutex of bucket `i`. */
  ghost predicate HoldsBucket(th: Thread, i: nat) {
    || (Locked(th.pc) && th.capacity > 0 && th.elem.code % th.capacity == i)
    || (th.pc.QuiesceUnlock? && th.pc.i == i)
  }

  lemma OwnerHolds(s: State, i: nat)
    requires OwnersOk(s) && ThreadsOk(s) && MutexOf(s.shift, i) in s.owner
    ensures var u := s.owner[MutexOf(s.shift, i)]; u in s.threads && HoldsBucket(s.threads[u], i)
  {
    hide MutexOf, TableIs;
    var u := s.owner[MutexOf(s.shift, i)];
    assert Holds(s.shift, s.threads[u], MutexOf(s.shift, i)) && ThreadOk(s, s.threads[u]);
    if Locked(s.threads[u].pc) {
      SameMutex(s, i, s.threads[u].hash);
    } else {
      SameMutex(s, i, s.threads[u].pc.i);
    }
  }

  /**
    A step that changes nothing is that of a thread that waits for another one: at the flag, for one that is
    resizing; at the mutex of its bucket, for one that holds that very mutex, for an element that its capacity
    sends to the same bucket or to quiesce it; or quiescing, for one that holds the mutex to be passed next. So
    operations on elements of different buckets never wait for one another.
  */
  lemma WaitsOnlyForBucket(r: Run, k: nat) returns (u: Tid)
    requires IsRun(r) && k < |r.events| && r.states[k + 1] == r.states[k]
    ensures var s, t := r.states[k], r.events[k].t;
            && t in s.threads && u in s.threads && u != t
            && var th := s.threads[t];
               || (th.pc.Spin? && s.resizing && Resizer(s.threads[u].pc))
               || (th.pc.LockBucket? && th.capacity > 0 && HoldsBucket(s.threads[u], th.elem.code % th.capacity))
               || (th.pc.QuiesceLock? && th.pc.i < th.pc.capacity && HoldsBucket(s.threads[u], th.pc.i))
  {
    hide Init, Next, Ready, OwnersOk, DataOk, ArenaOk, QuietsOk, ThreadsOk, ThreadOk, HoldsBucket, MutexOf, Resizer;
    Always(r, k);
    var s, e := r.states[k], r.events[k];
    assert IsStep(s, e, r.states[k + 1]);
    StuckIsBlocked(s, e.t, e.op, e.elem);
    var th := s.threads[e.t];
    if th.pc.LockBucket? {
      HashNow(s, e.t);
    }
    if th.pc.Spin? {
      u :| IsResizer(s, u);
    } else {
      var i := if th.pc.LockBucket? then th.hash else th.pc.i;
      OwnerHolds(s, i);
      u := s.owner[MutexOf(s.shift, i)];
    }
    HoldersAreElsewhere(s.threads[u]);
  }

  lemma HashNow(s: State, t: Tid)
    requires ThreadsOk(s) && t in s.threads && s.threads[t].pc.LockBucket?
    ensures s.threads[t].capacity > 0 && s.threads[t].hash == s.threads[t].elem.code % s.threads[t].capacity
  {
    assert ThreadOk(s, s.threads[t]);
  }

  lemma HoldersAreElsewhere(th: Thread)
    ensures Resizer(th.pc) ==> !th.pc.Spin?
    ensures forall i :: HoldsBucket(th, i) ==> !th.pc.LockBucket? && !th.pc.QuiesceLock?
  {
  }

  // ----- a call with nobody else about -----

  ghost predicate OthersIdle(s: State, t: Tid) {
    t in s.threads && forall u :: u in s.threads && u != t ==> s.threads[u].pc.Idle?
  }

  lemma NoNeedToWait(s: State, t: Tid)
    requires Inv(s) && OthersIdle(s, t)
    ensures !Blocked(s, t)
  {
    hide DataOk, ArenaOk, ThreadsOk, QuietsOk, MutexOf;
    assert forall u :: IsResizer(s, u) ==> u == t;
  }

  /**
    While no other thread is in a call, a thread returns within four times 2 * capacity + 27 steps, all told:
    nobody but itself changes the flag or the capacity, and it does so three times at most.
  */
  lemma {:induction false} AloneReturns(r: Run, t: Tid, i: nat, j: nat)
    requires IsRun(r) && i <= j < |r.states| && OthersIdle(r.states[i], t)
    requires forall k :: i <= k < j ==> r.events[k].t == t && !Returns(r, k)
    ensures j - i == StepsOf(r, t, i, j) <= 4 * (2 * r.states[j].capacity + 27)
    ensures OthersIdle(r.states[j], t)
    ensures ChangesIn(r, i, j) + Credit(r.states[j].threads[t].pc) <= Credit(r.states[i].threads[t].pc)
    decreases j
  {
    hide Init, Inv, Next, Ready, Blocked, Returns, Credit, WorkOf;
    if i < j {
      AloneReturns(r, t, i, j - 1);
      StepOf(r, j - 1, r.states[j - 1].capacity);
      Always(r, j - 1);
      NoNeedToWait(r.states[j - 1], t);
      assert !Returns(r, j - 1);
      ReturnsMeans(r, j - 1);
    }
    CallBound(r, t, i, j);
    CreditAtMost(r.states[i].threads[t].pc);
    MoreTimes(ChangesIn(r, i, j) + 1, 4, 2 * r.states[j].capacity + 27);
  }

  lemma ReturnsMeans(r: Run, k: nat)
    requires IsRun(r) && k < |r.events| && r.events[k].t in r.states[k].threads
    ensures Returns(r, k) <==> r.states[k].threads[r.events[k].t].pc.Returning?
  {
  }

  lemma CreditAtMost(pc: PC)
    ensures Credit(pc) <= 3
  {
  }
}
