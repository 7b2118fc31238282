/**
  When the striped set grows: Policy, asked without locks and again under all of them (src/HashSetStriped.h:97-123).
*/
module StripedGrowth {
  import opened Common
  import opened Tables
  import opened SetHistory
  import opened Striped
  import opened StripedProof
  import opened StripedTheorems

  // ----- under all the locks -----

  /** Policy has said, under all the locks, that the table is too full. */
  predicate Growing(pc: PC) { pc.ResizeCapacity? || pc.Rebuild? || pc.StoreTable? || pc.StoreCapacity? }

  ghost predicate FullOk(s: State) {
    forall t :: t in s.threads && Growing(s.threads[t].pc) ==> s.size > Limit(s.capacity)
  }

  /** Only the second look of Policy, at a table that is too full, leads to a growing table. */
  ghost predicate StartsFull(s: State, s': State, t: Tid)
    requires t in s.threads && t in s'.threads
  {
    var pc, pc' := s.threads[t].pc, s'.threads[t].pc;
    Growing(pc') ==> !pc.Count? && !pc.StoreCapacity? && (Growing(pc) || (pc.CheckSize? && s.size > Limit(pc.capacity)))
  }

  lemma TableStartsFull(s: State, t: Tid, op: Op, e: Elem)
    requires t in s.threads && Ready(s, t) && AtTable(s.threads[t].pc)
    ensures var s' := Next(s, t, op, e); t in s'.threads && StartsFull(s, s', t)
  {
    hide Erased, IndexOf, Log;
  }

  lemma OtherStartsFull(s: State, t: Tid, op: Op, e: Elem)
    requires t in s.threads && Ready(s, t) && !AtTable(s.threads[t].pc)
    ensures var s' := Next(s, t, op, e); t in s'.threads && StartsFull(s, s', t)
  {
    hide Rehash, Limit;
  }

  lemma StepStartsFull(s: State, t: Tid, op: Op, e: Elem)
    requires t in s.threads && Ready(s, t)
    ensures var s' := Next(s, t, op, e); t in s'.threads && StartsFull(s, s', t)
  {
    hide Next, Ready, StartsFull;
    if AtTable(s.threads[t].pc) {
      TableStartsFull(s, t, op, e);
    } else {
      OtherStartsFull(s, t, op, e);
    }
  }

  lemma StepFull(s: State, t: Tid, op: Op, e: Elem)
    requires Inv(s) && FullOk(s) && t in s.threads && Ready(s, t)
    ensures FullOk(Next(s, t, op, e))
  {
    hide Next, Ready, OwnersOk, DataOk, CapacityOk, Limit;
    StepShape(s, t, op, e);
    StepStartsFull(s, t, op, e);
    assert ThreadOk(s, s.threads[t]);
    var s' := Next(s, t, op, e);
    forall u | u in s'.threads && Growing(s'.threads[u].pc)
      ensures s'.size > Limit(s'.capacity)
    {
      if u != t {
        Alone(s, u, t);
      }
    }
  }

  lemma {:induction false} AlwaysFull(r: Run, i: nat)
    requires IsRun(r) && i < |r.states|
    ensures FullOk(r.states[i])
  {
    hide Inv, Next, Ready, FullOk;
    if i == 0 {
      assert FullOk(r.states[0]) by { NobodyGrows(r.states[0]); }
    } else {
      AlwaysFull(r, i - 1);
      Always(r, i - 1);
      var e := r.events[i - 1];
      assert IsStep(r.states[i - 1], e, r.states[i]);
      StepFull(r.states[i - 1], e.t, e.op, e.elem);
    }
  }

  lemma NobodyGrows(s: State)
    requires Init(s)
    ensures FullOk(s)
  {
  }

  /**
    The table grows only where it has to: whoever changes the capacity doubles it, at a moment at which the
    size is more than three quarters of it, and is in an Add that has already added its element.
  */
  lemma GrowsOnlyWhenFull(r: Run, t: Tid, i: nat, j: nat)
    requires IsRun(r) && InCall(r, t, i, j) && j < |r.events| && r.events[j].t == t
    requires r.states[j + 1].capacity != r.states[j].capacity
    ensures r.states[j + 1].capacity == 2 * r.states[j].capacity
    ensures 4 * r.states[j].size > 3 * r.states[j].capacity
    ensures r.events[i].op.OpAdd?
    ensures By(r.states[j].log, t) == By(r.states[i].log, t) + [Entry(t, OpAdd, r.events[i].elem, true)]
  {
    hide Next, Ready, Init, By, OwnersOk, DataOk, CapacityOk, FullOk;
    var s, e := r.states[j], r.events[j];
    assert IsStep(s, e, r.states[j + 1]);
    Always(r, j);
    StepShape(s, t, e.op, e.elem);
    assert ThreadOk(s, s.threads[t]);
    LoggedOnce(r, t, i, j);
    AlwaysFull(r, j);
    assert s.size > Limit(s.capacity) by { assert FullOk(s); FullMeans(s, t); }
    LimitIsThreeQuarters(s.size, s.capacity);
  }

  lemma FullMeans(s: State, t: Tid)
    requires FullOk(s) && t in s.threads && Growing(s.threads[t].pc)
    ensures s.size > Limit(s.capacity)
  {
  }

  // ----- before the locks -----

  /** Between `i` and `j` the capacity was read, and then a size of more than three quarters of it. */
  ghost predicate SawFull(r: Run, i: nat, j: nat)
    requires j <= |r.states|
  {
    exists a: nat, b: nat {:trigger r.states[a], r.states[b]} ::
      i < a <= b < j && 4 * r.states[b].size > 3 * r.states[a].capacity
  }

  ghost predicate Looked(r: Run, t: Tid, i: nat, j: nat)
    requires j < |r.states| && t in r.states[j].threads
  {
    var pc := r.states[j].threads[t].pc;
    && (pc.PolicySize? ==> exists a: nat {:trigger r.states[a]} :: i < a < j && r.states[a].capacity == pc.capacity)
    && (pc.LockAll? || Exclusive(pc) ==> SawFull(r, i, j))
  }

  /** Where the steps before the locks lead. */
  ghost predicate Looks(s: State, s': State, t: Tid)
    requires t in s.threads && t in s'.threads
  {
    var pc, pc' := s.threads[t].pc, s'.threads[t].pc;
    && (pc'.PolicySize? ==> pc.PolicyCapacity? && pc'.capacity == s.capacity)
    && (pc'.LockAll? || Exclusive(pc') ==>
          pc.LockAll? || Exclusive(pc) || (pc.PolicySize? && s.size > Limit(pc.capacity)))
  }

  lemma TableLooks(s: State, t: Tid, op: Op, e: Elem)
    requires t in s.threads && Ready(s, t) && AtTable(s.threads[t].pc)
    ensures var s' := Next(s, t, op, e); t in s'.threads && Looks(s, s', t)
  {
    hide Erased, IndexOf, Log;
  }

  lemma OtherLooks(s: State, t: Tid, op: Op, e: Elem)
    requires t in s.threads && Ready(s, t) && !AtTable(s.threads[t].pc)
    ensures var s' := Next(s, t, op, e); t in s'.threads && Looks(s, s', t)
  {
    hide Rehash, Limit;
  }

  lemma StepLooks(s: State, t: Tid, op: Op, e: Elem)
    requires t in s.threads && Ready(s, t)
    ensures var s' := Next(s, t, op, e); t in s'.threads && Looks(s, s', t)
  {
    hide Next, Ready, Looks;
    if AtTable(s.threads[t].pc) {
      TableLooks(s, t, op, e);
    } else {
      OtherLooks(s, t, op, e);
    }
  }

  lemma OwnLooked(r: Run, t: Tid, i: nat, j: nat)
    requires IsRun(r) && i + 1 < j < |r.states| && r.events[j - 1].t == t
    requires t in r.states[j - 1].threads && Looked(r, t, i, j - 1)
    ensures t in r.states[j].threads && Looked(r, t, i, j)
  {
    hide Next, Ready, Init;
    var s, s', e := r.states[j - 1], r.states[j], r.events[j - 1];
    assert IsStep(s, e, s');
    StepLooks(s, t, e.op, e.elem);
    var pc, pc' := s.threads[t].pc, s'.threads[t].pc;
    if pc'.LockAll? || Exclusive(pc') {
      if pc.PolicySize? {
        var a: nat :| i < a < j - 1 && r.states[a].capacity == pc.capacity;
        LimitIsThreeQuarters(s.size, pc.capacity);
        assert 4 * r.states[j - 1].size > 3 * r.states[a].capacity;
      } else {
        assert SawFull(r, i, j - 1);
      }
    }
  }

  /** A thread takes all the locks only once it has seen, within its call, more than three quarters of a capacity. */
  lemma {:induction false} LocksAllOnlyWhenFull(r: Run, t: Tid, i: nat, j: nat)
    requires IsRun(r) && InCall(r, t, i, j)
    ensures r.states[j].threads[t].pc.LockAll? || Exclusive(r.states[j].threads[t].pc) ==> SawFull(r, i, j)
    ensures Looked(r, t, i, j)
    decreases j
  {
    hide Next, Ready, Init, Looked, SawFull;
    var s, e := r.states[j - 1], r.events[j - 1];
    assert IsStep(s, e, r.states[j]);
    if j - 1 == i {
      CallLogs(s, t, e.op, e.elem);
      assert Looked(r, t, i, j) by { FreshLooked(r, t, i, j); }
    } else {
      assert InCall(r, t, i, j - 1);
      LocksAllOnlyWhenFull(r, t, i, j - 1);
      if e.t == t {
        OwnLooked(r, t, i, j);
      } else {
        StepShape(s, e.t, e.op, e.elem);
        assert Shape(s, r.states[j], e.t);
        OthersLooked(r, t, i, j);
      }
    }
    LookedMeans(r, t, i, j);
  }

  lemma FreshLooked(r: Run, t: Tid, i: nat, j: nat)
    requires j < |r.states| && t in r.states[j].threads && r.states[j].threads[t].pc.LockStripe?
    ensures Looked(r, t, i, j)
  {
  }

  lemma LookedMeans(r: Run, t: Tid, i: nat, j: nat)
    requires j < |r.states| && t in r.states[j].threads && Looked(r, t, i, j)
    ensures r.states[j].threads[t].pc.LockAll? || Exclusive(r.states[j].threads[t].pc) ==> SawFull(r, i, j)
  {
  }

  lemma OthersLooked(r: Run, t: Tid, i: nat, j: nat)
    requires 0 < j < |r.states| && t in r.states[j - 1].threads && t in r.states[j].threads
    requires Looked(r, t, i, j - 1) && r.states[j].threads[t] == r.states[j - 1].threads[t]
    ensures Looked(r, t, i, j)
  {
  }
}
