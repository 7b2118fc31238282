/**
  How much work the striped set does: every call takes a bounded number of steps of its own thread, waiting
  aside, so whatever the schedule some call returns within a bounded number of steps of threads that do not wait.
*/
module StripedBound {
  import opened Common
  import opened Tables
  import opened Striped
  import opened StripedTheorems

  /** The steps that a thread has left until its call returns; `n` is the number of stripes. */
  function Rank(pc: PC, n: nat): nat {
    match pc
    case Idle => 2 * n + 15
    case LockStripe => 2 * n + 14
    case LoadCapacity => 2 * n + 13
    case ReadBucket(_) => 2 * n + 12
    case WriteBucket(_, _) => 2 * n + 11
    case Count => 2 * n + 10
    case Unlock(_) => 2 * n + 9
    case PolicyCapacity => 2 * n + 8
    case PolicySize(_) => 2 * n + 7
    case LockAll(i) => if i < n then 2 * n + 6 - i else 0
    case CheckCapacity => n + 6
    case CheckSize(_) => n + 5
    case ResizeCapacity => n + 4
    case Rebuild(_) => n + 3
    case StoreTable(_) => n + 2
    case StoreCapacity(_) => n + 1
    case UnlockAll(i) => if i < n then n - i else 0
    case Returning(_) => 0
  }

  function Most(n: nat): nat { 2 * n + 15 }

  /** `t` moves on, closer to its return; nobody else is touched. */
  ghost predicate Nearer(s: State, s': State, t: Tid) {
    && t in s.threads && t in s'.threads && s'.threads == s.threads[t := s'.threads[t]] && s'.stripes == s.stripes
    && Rank(s'.threads[t].pc, s.stripes) < Rank(s.threads[t].pc, s.stripes) <= Most(s.stripes)
  }

  lemma WaitingStays(s: State, t: Tid, op: Op, e: Elem)
    requires Ready(s, t) && Blocked(s, t)
    ensures Next(s, t, op, e) == s
  {
  }

  lemma BucketNearer(s: State, t: Tid, op: Op, e: Elem)
    requires t in s.threads && Ready(s, t) && AtTable(s.threads[t].pc)
    ensures Nearer(s, Next(s, t, op, e), t)
  {
    hide Erased, IndexOf, Log;
  }

  lemma OtherNearer(s: State, t: Tid, op: Op, e: Elem)
    requires t in s.threads && Ready(s, t) && !AtTable(s.threads[t].pc) && !s.threads[t].pc.Returning?
    requires !Blocked(s, t) && ThreadOk(s, s.threads[t])
    ensures Nearer(s, Next(s, t, op, e), t)
  {
    hide Rehash, Limit, TableIs;
  }

  lemma StepNearer(s: State, t: Tid, op: Op, e: Elem)
    requires Inv(s) && t in s.threads && Ready(s, t) && !s.threads[t].pc.Returning? && !Blocked(s, t)
    ensures Nearer(s, Next(s, t, op, e), t)
  {
    hide Next, Ready, Nearer, Blocked, OwnersOk, DataOk, CapacityOk, ThreadOk;
    assert ThreadOk(s, s.threads[t]);
    if AtTable(s.threads[t].pc) {
      BucketNearer(s, t, op, e);
    } else {
      OtherNearer(s, t, op, e);
    }
  }

  // ----- one call -----

  /** Step `k` is the return of a call. */
  ghost predicate Returns(r: Run, k: nat)
    requires IsRun(r) && k < |r.events|
  {
    var t := r.events[k].t; t in r.states[k].threads && r.states[k].threads[t].pc.Returning?
  }

  /** Step `k` changes something: it is that of a thread that does not wait. */
  ghost predicate Works(r: Run, k: nat)
    requires IsRun(r) && k < |r.events|
  {
    r.states[k + 1] != r.states[k]
  }

  /** How many steps of `t` from `i` up to `j` are not spent waiting. */
  ghost function StepsOf(r: Run, t: Tid, i: nat, j: nat): nat
    requires IsRun(r) && i <= j < |r.states|
    decreases j
  {
    if i == j then 0 else StepsOf(r, t, i, j - 1) + One(r.events[j - 1].t == t && Works(r, j - 1))
  }

  /**
    Bounded work: until a thread returns from the call it is in, or makes next, it takes no more than
    2 * stripes + 15 steps in which it does not wait for a mutex.
  */
  lemma {:induction false} CallBound(r: Run, t: Tid, i: nat, j: nat)
    requires IsRun(r) && i <= j < |r.states| && t in r.states[i].threads
    requires forall k :: i <= k < j && r.events[k].t == t ==> !Returns(r, k)
    ensures t in r.states[j].threads && r.states[j].stripes == r.states[i].stripes
    ensures var n := r.states[i].stripes;
            StepsOf(r, t, i, j) + Rank(r.states[j].threads[t].pc, n) <= Rank(r.states[i].threads[t].pc, n) <= Most(n)
    decreases j
  {
    hide Init, Inv, Next, Ready, Blocked, Nearer;
    if i == j {
      Always(r, i);
      RankBound(r.states[i], t);
    } else {
      CallBound(r, t, i, j - 1);
      Always(r, j - 1);
      var s, e := r.states[j - 1], r.events[j - 1];
      assert IsStep(s, e, r.states[j]);
      if Blocked(s, e.t) {
        WaitingStays(s, e.t, e.op, e.elem);
      } else if e.t == t {
        assert !Returns(r, j - 1);
        StepNearer(s, t, e.op, e.elem);
        assert Nearer(s, r.states[j], t);
        NearerMeans(s, r.states[j], t);
      } else {
        StepShape(s, e.t, e.op, e.elem);
        StripesSame(s, e.t, e.op, e.elem);
        assert Shape(s, r.states[j], e.t);
      }
    }
  }

  lemma NearerMeans(s: State, s': State, t: Tid)
    requires Nearer(s, s', t)
    ensures && t in s.threads && t in s'.threads && s'.threads == s.threads[t := s'.threads[t]]
            && s'.stripes == s.stripes
            && Rank(s'.threads[t].pc, s.stripes) < Rank(s.threads[t].pc, s.stripes) <= Most(s.stripes)
  {
  }

  lemma RankBound(s: State, t: Tid)
    requires t in s.threads
    ensures Rank(s.threads[t].pc, s.stripes) <= Most(s.stripes)
  {
  }

  lemma StripesSame(s: State, t: Tid, op: Op, e: Elem)
    requires t in s.threads && Ready(s, t)
    ensures Next(s, t, op, e).stripes == s.stripes
  {
    hide Erased, Rehash, Limit, Log, IndexOf;
  }

  // ----- all calls -----

  ghost function Ranks(s: State): map<Tid, nat> { map t | t in s.threads :: Rank(s.threads[t].pc, s.stripes) }

  lemma RanksFall(s: State, s': State, t: Tid)
    requires Nearer(s, s', t)
    ensures Sum(Ranks(s')) < Sum(Ranks(s))
  {
    hide Rank;
    SumChanged(Ranks(s), t, Rank(s'.threads[t].pc, s.stripes));
    assert Ranks(s') == Ranks(s)[t := Rank(s'.threads[t].pc, s.stripes)];
  }

  /** How many steps from `i` up to `j` are not spent waiting. */
  ghost function Steps(r: Run, i: nat, j: nat): nat
    requires IsRun(r) && i <= j < |r.states|
    decreases j
  {
    if i == j then 0 else Steps(r, i, j - 1) + One(Works(r, j - 1))
  }

  lemma {:induction false} CountedDown(r: Run, i: nat, j: nat)
    requires IsRun(r) && i <= j < |r.states| && forall k :: i <= k < j ==> !Returns(r, k)
    ensures Steps(r, i, j) + Sum(Ranks(r.states[j])) <= Sum(Ranks(r.states[i]))
    decreases j
  {
    hide Init, Inv, Next, Ready, Blocked, Nearer, Ranks;
    if i < j {
      CountedDown(r, i, j - 1);
      Always(r, j - 1);
      var s, e := r.states[j - 1], r.events[j - 1];
      assert IsStep(s, e, r.states[j]);
      if Blocked(s, e.t) {
        WaitingStays(s, e.t, e.op, e.elem);
      } else {
        assert !Returns(r, j - 1);
        StepNearer(s, e.t, e.op, e.elem);
        RanksFall(s, r.states[j], e.t);
      }
    }
  }

  ghost function Bound(s: State): nat { |s.threads| * Most(s.stripes) }

  lemma RanksBound(s: State)
    ensures Sum(Ranks(s)) <= Bound(s)
  {
    forall t | t in s.threads
      ensures Ranks(s)[t] <= Most(s.stripes)
    {
      RankBound(s, t);
    }
    assert Ranks(s).Keys == s.threads.Keys;
    assert |Ranks(s)| == |Ranks(s).Keys| && |s.threads| == |s.threads.Keys|;
    SumBound(Ranks(s), Most(s.stripes));
  }

  /**
    Progress: in every run, whatever the threads do and however they are scheduled, some call returns within
    |threads| * (2 * stripes + 15) steps of threads that do not wait. By NoDeadlock there is always such a step
    to take while a call is under way, and one of a thread that waits changes nothing (WaitingStays).
  */
  lemma SomeCallReturns(r: Run, i: nat, j: nat) returns (k: nat)
    requires IsRun(r) && i <= j < |r.states| && Steps(r, i, j) > Bound(r.states[i])
    ensures i <= k < j && Returns(r, k)
  {
    hide IsRun, Bound, Returns, Ranks;
    RunLength(r);
    if forall k :: i <= k < j ==> !Returns(r, k) {
      CountedDown(r, i, j);
      RanksBound(r.states[i]);
    }
    k :| i <= k < j && Returns(r, k);
  }

  lemma RunLength(r: Run)
    requires IsRun(r)
    ensures |r.states| == |r.events| + 1
  {
    hide Init, Next, Ready;
  }

  // ----- who waits for whom -----

  predicate TakesAll(pc: PC) { pc.LockAll? || Exclusive(pc) || pc.UnlockAll? }

  lemma StuckIsBlocked(s: State, t: Tid, op: Op, e: Elem)
    requires Inv(s) && t in s.threads && Ready(s, t) && Next(s, t, op, e) == s
    ensures Blocked(s, t)
  {
    hide Inv, Next, Ready, Blocked;
    if !Blocked(s, t) {
      if s.threads[t].pc.Returning? {
        CallLogs(s, t, op, e);
      } else {
        StepNearer(s, t, op, e);
      }
    }
  }

  /** The stripe that a thread at its stripe's mutex, or on its way to all of them, is about to lock. */
  function Wanted(s: State, t: Tid): nat
    requires t in s.threads && s.stripes > 0
  {
    if s.threads[t].pc.LockAll? then s.threads[t].pc.i else s.threads[t].elem.code % s.stripes
  }

  /**
    A step that changes nothing is that of a thread at a mutex, and another thread holds that mutex: one with an
    element of the same stripe, or one that is resizing. So operations on elements of different stripes never
    wait for one another.
  */
  lemma WaitsOnlyForStripe(r: Run, k: nat) returns (u: Tid)
    requires IsRun(r) && k < |r.events| && r.states[k + 1] == r.states[k]
    ensures var s, t := r.states[k], r.events[k].t;
            && t in s.threads && u in s.threads && u != t && s.stripes > 0
            && (s.threads[t].pc.LockStripe? || s.threads[t].pc.LockAll?)
            && ((InBucket(s.threads[u].pc) && s.threads[u].elem.code % s.stripes == Wanted(s, t))
                || TakesAll(s.threads[u].pc))
  {
    hide Init, Next, Ready, DataOk, CapacityOk, ThreadsOk;
    Always(r, k);
    var s, e := r.states[k], r.events[k];
    assert IsStep(s, e, r.states[k + 1]);
    StuckIsBlocked(s, e.t, e.op, e.elem);
    u := s.owner[Wanted(s, e.t)];
    assert Holds(s.threads[u], s.stripes, Wanted(s, e.t));
  }

  // ----- a call with nobody else about -----

  lemma NoNeedToWait(s: State, t: Tid)
    requires Inv(s) && t in s.threads && forall u :: u in s.threads && u != t ==> s.threads[u].pc.Idle?
    ensures !Blocked(s, t)
  {
    hide DataOk, CapacityOk, ThreadsOk;
  }

  lemma ReturnsMeans(r: Run, k: nat)
    requires IsRun(r) && k < |r.events| && r.events[k].t in r.states[k].threads
    ensures Returns(r, k) <==> r.states[k].threads[r.events[k].t].pc.Returning?
  {
  }

  /** While no other thread is in a call, a thread returns within 2 * stripes + 15 steps, all told. */
  lemma {:induction false} AloneReturns(r: Run, t: Tid, i: nat, j: nat)
    requires IsRun(r) && i <= j < |r.states| && t in r.states[i].threads
    requires forall u :: u in r.states[i].threads && u != t ==> r.states[i].threads[u].pc.Idle?
    requires forall k :: i <= k < j ==> r.events[k].t == t && !Returns(r, k)
    ensures j - i == StepsOf(r, t, i, j) <= Most(r.states[i].stripes)
    ensures forall u :: u in r.states[j].threads && u != t ==> r.states[j].threads[u].pc.Idle?
    decreases j
  {
    hide Init, Inv, Next, Ready, Blocked, Returns, Rank, Most;
    CallBound(r, t, i, j);
    if i < j {
      AloneReturns(r, t, i, j - 1);
      Always(r, j - 1);
      var s, e := r.states[j - 1], r.events[j - 1];
      assert IsStep(s, e, r.states[j]);
      StepShape(s, t, e.op, e.elem);
      assert Shape(s, r.states[j], t);
      CallBound(r, t, i, j - 1);
      NoNeedToWait(s, t);
      assert !Returns(r, j - 1);
      ReturnsMeans(r, j - 1);
      StepNearer(s, t, e.op, e.elem);
      NearerMeans(s, r.states[j], t);
    }
  }
}
