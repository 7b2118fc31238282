/** When the lock-free set grows (src/HashSetLockFree.h:114-122). */
module LockFreeGrowth {
  import opened Common
  import opened LockFreeSet
  import opened LockFreeInv
  import opened LockFreeSteps
  import opened LockFreeSafety
  import opened LockFreeLinear
  import opened LockFreeProgress
  import opened LockFreeSize
  import opened LockFreeLoad
  import opened Linearizability
  import Tables

  lemma {:induction false} CapacityGrows(r: Run, i: nat, j: nat)
    requires IsRun(r) && i <= j < |r.states|
    ensures r.states[i].capacity <= r.states[j].capacity
    ensures r.states[i].maxCapacity == r.states[j].maxCapacity
    decreases j
  {
    hide IsRun, PowerOfTwo;
    if i < j {
      RunLength(r);
      CapacityGrows(r, i, j - 1);
      CapacityDoubles(r, j - 1);
    }
  }

  /** Since `i` the capacity was `cap`, and after that the counter more than three quarters of it. */
  ghost predicate SawFull(r: Run, i: nat, j: nat, cap: nat)
    requires j <= |r.states|
  {
    exists a: nat, b: nat {:trigger r.states[a], r.states[b]} ::
      i < a <= b < j && r.states[a].capacity == cap < r.states[a].maxCapacity && 4 * r.states[b].size > 3 * cap
  }

  ghost predicate Looked(r: Run, t: Tid, i: nat, j: nat)
    requires j < |r.states| && t in r.states[j].threads
  {
    var pc := r.states[j].threads[t].pc;
    && (pc.GrowSize? ==> exists a: nat {:trigger r.states[a]} :: i < a < j && r.states[a].capacity == pc.cap)
    && (pc.GrowCas? ==> SawFull(r, i, j, pc.cap))
  }

  lemma OwnLooked(r: Run, t: Tid, i: nat, j: nat)
    requires IsRun(r) && i + 1 < j < |r.states| && r.events[j - 1].t == t
    requires t in r.states[j - 1].threads && Looked(r, t, i, j - 1)
    ensures t in r.states[j].threads && Looked(r, t, i, j)
  {
    hide Next, Ready, Init, Inv, Tables.Limit;
    var s, s', e := r.states[j - 1], r.states[j], r.events[j - 1];
    assert IsStep(s, e, s');
    StepPends(s, t, e.op, e.elem);
    var pc := s.threads[t].pc;
    if s'.threads[t].pc.GrowCas? {
      Tables.LimitIsThreeQuarters(s.size, pc.cap);
      var a: nat :| i < a < j - 1 && r.states[a].capacity == pc.cap;
      CapacityGrows(r, a, j - 1);
      assert pc.cap < s.maxCapacity;
      assert 4 * r.states[j - 1].size > 3 * pc.cap;
    }
  }

  lemma OthersLooked(r: Run, t: Tid, i: nat, j: nat)
    requires 0 < j < |r.states| && t in r.states[j - 1].threads && t in r.states[j].threads
    requires Looked(r, t, i, j - 1) && r.states[j].threads[t] == r.states[j - 1].threads[t]
    ensures Looked(r, t, i, j)
  {
  }

  lemma FreshLooked(r: Run, t: Tid, i: nat, j: nat)
    requires j < |r.states| && t in r.states[j].threads && r.states[j].threads[t].pc.InReclaimer?
    ensures Looked(r, t, i, j)
  {
  }

  lemma {:induction false} CallLooked(r: Run, t: Tid, i: nat, j: nat)
    requires IsRun(r) && InCall(r, t, i, j)
    ensures Looked(r, t, i, j)
    decreases j
  {
    hide Next, Ready, Init, Looked;
    var s, e := r.states[j - 1], r.events[j - 1];
    assert IsStep(s, e, r.states[j]);
    if j - 1 == i {
      CallStepShape(s, t, e.op, e.elem);
      FreshLooked(r, t, i, j);
    } else {
      assert InCall(r, t, i, j - 1);
      CallLooked(r, t, i, j - 1);
      if e.t == t {
        OwnLooked(r, t, i, j);
      } else {
        InCallStep(s, e, r.states[j], t);
        OthersLooked(r, t, i, j);
      }
    }
  }

  /**
    The capacity grows only where it has to: whoever changes it doubles it, is in an Add that has already had its
    effect, and has found, within its call, the counter at more than three quarters of that same capacity, which
    is not the maximal one.
  */
  lemma GrowsOnlyWhenFull(r: Run, t: Tid, i: nat, j: nat) returns (b: nat)
    requires IsRun(r) && InCall(r, t, i, j) && j < |r.events| && r.events[j].t == t
    requires r.states[j + 1].capacity != r.states[j].capacity
    ensures r.states[j + 1].capacity == 2 * r.states[j].capacity <= r.states[j].maxCapacity
    ensures i < b < j && r.states[b].capacity == r.states[j].capacity
    ensures 4 * r.states[b].size > 3 * r.states[b].capacity
    ensures r.events[i].op.OpAdd? && Effects(r, t, i, j) == 1
  {
    hide Next, Ready, Init, Inv, Tables.Limit, PowerOfTwo, ThreadOk;
    var s, e := r.states[j], r.events[j];
    assert IsStep(s, e, r.states[j + 1]);
    Always(r, j);
    StepPends(s, t, e.op, e.elem);
    CapacityDoubles(r, j);
    CallLooked(r, t, i, j);
    var cap := s.threads[t].pc.cap;
    var a: nat;
    a, b :| i < a <= b < j && r.states[a].capacity == cap && 4 * r.states[b].size > 3 * cap;
    CapacityGrows(r, a, b);
    CapacityGrows(r, b, j);
    Unfold(s, t);
    EffectPc(s.heap, s.threads[t], t, s.maxCapacity);
    CallArguments(r, t, i, j);
    EffectsCount(r, t, i, j);
  }
}
