/**
  When the refinable set grows: Policy, asked before the exchange of `resizing_` and again after it
  (src/HashSetRefinable.h:146-184).
*/
module RefinableGrowth {
  import opened Common
  import opened Tables
  import opened SetHistory
  import opened Refinable
  import opened RefinableTheorems
  import opened RefinableLoad

  /** Policy has said, with the flag raised, that the table is too full, and the capacity has not grown yet. */
  predicate Growing(pc: PC) {
    pc.ResizeCapacity? || pc.QuiesceLock? || pc.QuiesceUnlock? || pc.Enlarge? || pc.Rebuild? || pc.StoreCapacity?
  }

  /** Policy and Resize. */
  predicate Watched(pc: PC) { Asking(pc) || Resizer(pc) }

  // ----- where the steps of Policy lead -----

  ghost predicate Looks(s: State, s': State, t: Tid)
    requires t in s.threads && t in s'.threads
  {
    var pc, pc' := s.threads[t].pc, s'.threads[t].pc;
    && (Watched(pc') ==> s'.threads[t].op == s.threads[t].op && (Watched(pc) || s.threads[t].op.OpAdd?))
    && (pc'.PolicySize? ==> pc.PolicyCapacity?)
    && (pc'.Exchange? ==> pc.PolicySize? && s.size > Limit(pc.capacity))
    && (Resizer(pc') ==> Resizer(pc) || pc.Exchange?)
    && (pc'.CheckPolicySize? ==> pc.CheckPolicyCapacity?)
    && (Growing(pc') ==> !pc.StoreCapacity? && (Growing(pc) || (pc.CheckPolicySize? && s.size > Limit(pc.capacity))))
  }

  lemma UnwatchedLooks(s: State, s': State, t: Tid)
    requires t in s.threads && t in s'.threads && !Watched(s'.threads[t].pc)
    ensures Looks(s, s', t)
  {
  }

  lemma EarlyLooks(s: State, t: Tid, op: Op, e: Elem)
    requires t in s.threads && Ready(s, t) && Early(s.threads[t].pc)
    ensures var s' := Next(s, t, op, e); t in s'.threads && Looks(s, s', t)
  {
    hide Erased, Log, IndexOf, MutexOf, Looks;
    var s' := Next(s, t, op, e);
    UnwatchedLooks(s, s', t);
  }

  lemma AskingLooks(s: State, t: Tid, op: Op, e: Elem)
    requires t in s.threads && Ready(s, t) && Asking(s.threads[t].pc)
    ensures var s' := Next(s, t, op, e); t in s'.threads && Looks(s, s', t)
  {
    hide Limit, MutexOf;
  }

  lemma LateLooks(s: State, t: Tid, op: Op, e: Elem)
    requires t in s.threads && Ready(s, t) && !Early(s.threads[t].pc) && !Resizer(s.threads[t].pc)
    requires !Asking(s.threads[t].pc)
    ensures var s' := Next(s, t, op, e); t in s'.threads && Looks(s, s', t)
  {
    hide MutexOf;
  }

  lemma ResizerLooks(s: State, t: Tid, op: Op, e: Elem)
    requires t in s.threads && Ready(s, t) && Resizer(s.threads[t].pc) && !Quiet(s.threads[t].pc)
    ensures var s' := Next(s, t, op, e); t in s'.threads && Looks(s, s', t)
  {
    hide Limit, MutexOf;
  }

  lemma QuietLooks(s: State, t: Tid, op: Op, e: Elem)
    requires t in s.threads && Ready(s, t) && Quiet(s.threads[t].pc)
    ensures var s' := Next(s, t, op, e); t in s'.threads && Looks(s, s', t)
  {
    hide Rehash, Limit;
  }

  lemma StepLooks(s: State, t: Tid, op: Op, e: Elem)
    requires t in s.threads && Ready(s, t)
    ensures var s' := Next(s, t, op, e); t in s'.threads && Looks(s, s', t)
  {
    hide Next, Ready, Looks, Early, Resizer, Quiet, Asking;
    if Early(s.threads[t].pc) {
      EarlyLooks(s, t, op, e);
    } else if Asking(s.threads[t].pc) {
      AskingLooks(s, t, op, e);
    } else if Quiet(s.threads[t].pc) {
      QuietLooks(s, t, op, e);
    } else if Resizer(s.threads[t].pc) {
      ResizerLooks(s, t, op, e);
    } else {
      LateLooks(s, t, op, e);
    }
  }

  // ----- within a call -----

  /** Since `i` the capacity was read, and then a size of more than three quarters of it. */
  ghost predicate SawFull(r: Run, i: nat, j: nat)
    requires j <= |r.states|
  {
    exists a: nat, b: nat {:trigger r.states[a], r.states[b]} ::
      i < a <= b < j && 4 * r.states[b].size > 3 * r.states[a].capacity
  }

  /** Since `i` there was a size of more than three quarters of the capacity that there is at `j`, and was then. */
  ghost predicate WasFull(r: Run, i: nat, j: nat)
    requires j < |r.states|
  {
    exists b: nat {:trigger r.states[b]} ::
      i < b < j && r.states[b].capacity == r.states[j].capacity && 4 * r.states[b].size > 3 * r.states[b].capacity
  }

  ghost predicate Looked(r: Run, t: Tid, i: nat, j: nat)
    requires j < |r.states| && t in r.states[j].threads
  {
    var pc := r.states[j].threads[t].pc;
    && (Watched(pc) ==> r.states[j].threads[t].op.OpAdd?)
    && (pc.PolicySize? ==> exists a: nat {:trigger r.states[a]} :: i < a < j && r.states[a].capacity == pc.capacity)
    && (pc.Exchange? || Resizer(pc) ==> SawFull(r, i, j))
    && (pc.CheckPolicySize? ==> pc.capacity == r.states[j].capacity)
    && (Growing(pc) ==> WasFull(r, i, j))
  }

  lemma OwnLooked(r: Run, t: Tid, i: nat, j: nat)
    requires IsRun(r) && i + 1 < j < |r.states| && r.events[j - 1].t == t
    requires t in r.states[j - 1].threads && Looked(r, t, i, j - 1)
    ensures t in r.states[j].threads && Looked(r, t, i, j)
  {
    hide Next, Ready, Init, Resizer, Growing, Watched;
    var s, s', e := r.states[j - 1], r.states[j], r.events[j - 1];
    assert IsStep(s, e, s');
    StepLooks(s, t, e.op, e.elem);
    StepGrows(s, t, e.op, e.elem);
    var pc, pc' := s.threads[t].pc, s'.threads[t].pc;
    Kinds(pc);
    Kinds(pc');
    if pc'.Exchange? {
      var a: nat :| i < a < j - 1 && r.states[a].capacity == pc.capacity;
      LimitIsThreeQuarters(s.size, pc.capacity);
      assert 4 * r.states[j - 1].size > 3 * r.states[a].capacity;
    }
    if Growing(pc') && pc.CheckPolicySize? {
      LimitIsThreeQuarters(s.size, pc.capacity);
      assert r.states[j - 1].capacity == s'.capacity;
    }
  }

  lemma Kinds(pc: PC)
    ensures Growing(pc) ==> Resizer(pc)
    ensures pc.CheckPolicySize? || pc.CheckPolicyCapacity? || pc.StoreCapacity? ==> Resizer(pc)
    ensures pc.CheckPolicySize? || pc.CheckPolicyCapacity? ==> !Growing(pc)
    ensures pc.PolicySize? || pc.Exchange? || pc.PolicyCapacity? ==> !Resizer(pc)
    ensures pc.StoreCapacity? ==> Growing(pc)
    ensures Resizer(pc) ==> Watched(pc)
  {
  }

  lemma OthersLooked(r: Run, t: Tid, i: nat, j: nat)
    requires 0 < j < |r.states| && t in r.states[j - 1].threads && t in r.states[j].threads
    requires Looked(r, t, i, j - 1) && r.states[j].threads[t] == r.states[j - 1].threads[t]
    requires Resizer(r.states[j].threads[t].pc) ==> r.states[j].capacity == r.states[j - 1].capacity
    ensures Looked(r, t, i, j)
  {
  }

  lemma FreshLooked(r: Run, t: Tid, i: nat, j: nat)
    requires j < |r.states| && t in r.states[j].threads && r.states[j].threads[t].pc.Spin?
    ensures Looked(r, t, i, j)
  {
  }

  /** While `u` resizes nobody else changes the capacity. */
  lemma OtherKeepsCapacity(s: State, t: Tid, u: Tid, op: Op, e: Elem)
    requires Inv(s) && t in s.threads && u in s.threads && t != u && Ready(s, t) && Resizer(s.threads[u].pc)
    ensures Next(s, t, op, e).capacity == s.capacity
  {
    hide Next, Ready, OwnersOk, DataOk, ArenaOk, ThreadsOk, QuietsOk, Resizer;
    StepGrows(s, t, op, e);
    assert IsResizer(s, u) && (IsResizer(s, t) ==> t == u);
    Kinds(s.threads[t].pc);
  }

  lemma {:induction false} CallLooked(r: Run, t: Tid, i: nat, j: nat)
    requires IsRun(r) && InCall(r, t, i, j)
    ensures Looked(r, t, i, j)
    decreases j
  {
    hide Next, Ready, Init, Inv, Looked, Resizer;
    var s, e := r.states[j - 1], r.events[j - 1];
    assert IsStep(s, e, r.states[j]);
    if j - 1 == i {
      CallLogs(s, t, e.op, e.elem);
      FreshLooked(r, t, i, j);
    } else {
      assert InCall(r, t, i, j - 1);
      CallLooked(r, t, i, j - 1);
      if e.t == t {
        OwnLooked(r, t, i, j);
      } else {
        Always(r, j - 1);
        StepOwes(s, e.t, e.op, e.elem);
        if Resizer(s.threads[t].pc) {
          OtherKeepsCapacity(s, e.t, t, e.op, e.elem);
        }
        OthersLooked(r, t, i, j);
      }
    }
  }

  /** A thread goes for the exchange only once it has seen, within its call, more than three quarters of a capacity. */
  lemma ExchangesOnlyWhenFull(r: Run, t: Tid, i: nat, j: nat)
    requires IsRun(r) && InCall(r, t, i, j)
    requires r.states[j].threads[t].pc.Exchange? || Resizer(r.states[j].threads[t].pc)
    ensures SawFull(r, i, j)
  {
    hide IsRun, InCall, Resizer, Growing;
    CallLooked(r, t, i, j);
  }

  /**
    The table grows only where it has to: whoever changes the capacity doubles it, is in an Add that has already
    added its element, and has seen, within its call, more than three quarters of that same capacity.
  */
  lemma GrowsOnlyWhenFull(r: Run, t: Tid, i: nat, j: nat)
    requires IsRun(r) && InCall(r, t, i, j) && j < |r.events| && r.events[j].t == t
    requires r.states[j + 1].capacity != r.states[j].capacity
    ensures r.states[j + 1].capacity == 2 * r.states[j].capacity
    ensures WasFull(r, i, j)
    ensures r.events[i].op.OpAdd?
    ensures By(r.states[j].log, t) == By(r.states[i].log, t) + [Entry(t, OpAdd, r.events[i].elem, true)]
  {
    hide Next, Ready, Init, By, OwnersOk, DataOk, ArenaOk, ResizersOk, QuietsOk, SawFull, WasFull;
    var s, e := r.states[j], r.events[j];
    assert IsStep(s, e, r.states[j + 1]);
    Always(r, j);
    StepGrows(s, t, e.op, e.elem);
    assert ThreadOk(s, s.threads[t]);
    LoggedOnce(r, t, i, j);
    CallLooked(r, t, i, j);
  }
}
