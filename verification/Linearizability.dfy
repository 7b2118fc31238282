/** Every completed operation of the lock-free set takes effect at one moment inside its call. */
module Linearizability {
  import opened Common
  import opened SplitOrder
  import opened ListHeap
  import opened Traversal
  import opened LockFreeSet
  import opened LockFreeInv
  import opened LockFreeSteps
  import opened LockFreeTheorems
  import opened LockFreeSafety
  import opened LockFreeLinear
  import E = Epochs

  ghost function At(r: Run, i: nat, t: Tid): Thread
    requires i < |r.states| && t in r.states[i].threads
  {
    r.states[i].threads[t]
  }

  /** What the thread was called with is what it is working on. */
  lemma {:induction false} CallArguments(r: Run, t: Tid, i: nat, j: nat)
    requires IsRun(r) && InCall(r, t, i, j)
    ensures At(r, j, t).op == r.events[i].op && At(r, j, t).elem == r.events[i].elem
  {
    hide Next, Ready;
    var e := r.events[j - 1];
    assert IsStep(r.states[j - 1], e, r.states[j]);
    if j - 1 == i {
      CallStepShape(r.states[i], t, e.op, e.elem);
    } else {
      assert InCall(r, t, i, j - 1);
      CallArguments(r, t, i, j - 1);
      InCallStep(r.states[j - 1], e, r.states[j], t);
    }
  }

  lemma CallStepShape(s: State, t: Tid, op: Op, e: Elem)
    requires t in s.threads && Ready(s, t) && s.threads[t].pc.Idle?
    ensures var s' := Next(s, t, op, e);
            t in s'.threads && s'.threads[t].op == op && s'.threads[t].elem == e &&
              s'.threads[t].pc == InReclaimer(KEnter)
    ensures Next(s, t, op, e).heap == s.heap && !LinksElement(s, t) && !MarksElement(s, t)
  {
  }

  /** Whoever steps, a thread inside a call keeps what it was called with. */
  lemma InCallStep(s: State, e: Event, s': State, t: Tid)
    requires IsStep(s, e, s') && t in s.threads && !s.threads[t].pc.Idle?
    ensures t in s'.threads && SameCall(s.threads[t], s'.threads[t])
    ensures e.t != t ==> s'.threads[t] == s.threads[t]
  {
    hide Next, Ready;
    if e.t != t {
      OthersKeepThread(s, e, s', t);
    } else {
      StepSteps(s, t, e.op, e.elem);
    }
  }

  // ----- effects happen once -----

  /** The operation has had its effect, and has only to report it. */
  ghost predicate Took(th: Thread) {
    match th.op
    case OpAdd => th.pc.CountAdd? || th.pc.GrowLoad? || th.pc.GrowSize? || th.pc.GrowCas? || th.pc == Leaving(true)
    case OpRemove =>
      th.pc.RemoveUnlink? || th.pc == InReclaimer(KRemove) || th.pc.CountRemove? || th.pc == Leaving(true)
    case OpContains => false
  }

  ghost predicate Effect(s: State, t: Tid) { LinksElement(s, t) || MarksElement(s, t) }

  /** How many of the steps after `i` and before `j` were effects of `t`. */
  ghost function Effects(r: Run, t: Tid, i: nat, j: nat): nat
    requires IsRun(r) && i < j < |r.states|
  {
    if j == i + 1 then 0
    else Effects(r, t, i, j - 1) + One(r.events[j - 1].t == t && Effect(r.states[j - 1], t))
  }

  lemma FoundTakesNothing(s: State, t: Tid, th: Thread)
    requires th.curr in s.heap.nodes && t in s.threads && s.threads[t].pc.FindLoad?
    ensures t in Found(s, t, th).threads && !Took(Found(s, t, th).threads[t])
  {
    hide Matches, Alloc, StoreNext, DeleteNode, Payload;
  }

  lemma BucketTakesNothing(h: Heap, th: Thread)
    requires th.head in h.nodes
    ensures !Took(NextBucket(h, th))
  {
  }

  /** The pcs at which an operation may have its effect follow from what it was called for. */
  lemma EffectPc(h: Heap, th: Thread, t: Tid, max: nat)
    requires ThreadOk(h, th, t, max)
    ensures th.pc.RemoveMark? || th.pc.RemoveUnlink? || th.pc == InReclaimer(KRemove) || th.pc.CountRemove? ==>
            th.op.OpRemove?
    ensures th.pc.CountAdd? || th.pc.GrowLoad? || th.pc.GrowSize? || th.pc.GrowCas? ==> th.op.OpAdd?
    ensures th.pc.ContainsMark? || th.pc.ContainsLoad? ==> th.op.OpContains?
    ensures th.pc.LinkCas? && th.want.Some? ==> th.op.OpAdd?
  {
    hide OrdinaryKey, SentinelKey, HeadOk, PredFresh, Passed, Clear, Gap, Ahead, Held, Mine;
  }

  /** An operation that has had its effect goes on to its return without another. */
  lemma TookStays(s: State, t: Tid, op: Op, e: Elem)
    requires t in s.threads && Ready(s, t) && Took(s.threads[t]) && !s.threads[t].pc.Leaving?
    ensures t in Next(s, t, op, e).threads && Took(Next(s, t, op, e).threads[t]) && !Effect(s, t)
  {
    hide E.InternalStep, E.Enabled, Unlink;
  }

  lemma TookStartsInList(s: State, t: Tid, op: Op, e: Elem)
    requires t in s.threads && ThreadOk(s.heap, s.threads[t], t, s.maxCapacity) && Ready(s, t)
    requires !Took(s.threads[t]) && InList(s.threads[t].pc)
    ensures t in Next(s, t, op, e).threads && (Took(Next(s, t, op, e).threads[t]) <==> Effect(s, t))
  {
    hide ThreadOk, Found, NextBucket, ContainsAt, AtOrPast, Matches, E.InternalStep, E.Enabled;
    hide Alloc, StoreNext, Publish, MarkNode, Unlink;
    var th := s.threads[t];
    EffectPc(s.heap, th, t, s.maxCapacity);
    if th.pc.FindLoad? {
      FoundTakesNothing(s, t, th.(currAt := s.heap.clock));
    } else if th.pc.ContainsLoad? {
      ContainsTakesNothing(s.heap, th, s.heap.nodes[th.curr].next);
    }
  }

  lemma TookStartsElsewhere(s: State, t: Tid, op: Op, e: Elem)
    requires t in s.threads && ThreadOk(s.heap, s.threads[t], t, s.maxCapacity) && Ready(s, t)
    requires !Took(s.threads[t]) && !s.threads[t].pc.Idle? && !s.threads[t].pc.Leaving? && !InList(s.threads[t].pc)
    ensures t in Next(s, t, op, e).threads && (Took(Next(s, t, op, e).threads[t]) <==> Effect(s, t))
  {
    hide ThreadOk, NextBucket, E.InternalStep, E.Enabled;
    var th := s.threads[t];
    EffectPc(s.heap, th, t, s.maxCapacity);
    if th.pc.LoadBucket? {
      if th.pc.i in s.buckets {
        BucketTakesNothing(s.heap, th.(head := s.buckets[th.pc.i]));
      }
    } else if th.pc.BucketCas? {
      BucketTakesNothing(s.heap, th.(head := th.pc.sentinel, stack := th.stack[..|th.stack| - 1]));
    }
  }

  /** One that has not has it exactly when it takes its effect. */
  lemma TookStarts(s: State, t: Tid, op: Op, e: Elem)
    requires t in s.threads && ThreadOk(s.heap, s.threads[t], t, s.maxCapacity) && Ready(s, t)
    requires !Took(s.threads[t]) && !s.threads[t].pc.Idle? && !s.threads[t].pc.Leaving?
    ensures t in Next(s, t, op, e).threads && (Took(Next(s, t, op, e).threads[t]) <==> Effect(s, t))
  {
    hide Ready, ThreadOk, Next, Took, Effect;
    if InList(s.threads[t].pc) {
      TookStartsInList(s, t, op, e);
    } else {
      TookStartsElsewhere(s, t, op, e);
    }
  }

  lemma StepTakes(s: State, t: Tid, op: Op, e: Elem)
    requires Inv(s) && t in s.threads && Ready(s, t) && !s.threads[t].pc.Idle? && !s.threads[t].pc.Leaving?
    ensures var s' := Next(s, t, op, e);
            t in s'.threads && !(Took(s.threads[t]) && Effect(s, t)) &&
            (Took(s'.threads[t]) <==> Took(s.threads[t]) || Effect(s, t))
  {
    hide Inv, Next, Ready, ThreadOk, Effect;
    Unfold(s, t);
    if Took(s.threads[t]) {
      TookStays(s, t, op, e);
    } else {
      TookStarts(s, t, op, e);
    }
  }

  lemma ContainsTakesNothing(h: Heap, th: Thread, c: NodeId)
    requires c in h.nodes && th.op.OpContains?
    ensures !Took(ContainsAt(h, th, c))
  {
  }

  lemma {:induction false} EffectsCount(r: Run, t: Tid, i: nat, j: nat)
    requires IsRun(r) && InCall(r, t, i, j)
    ensures Effects(r, t, i, j) == One(Took(At(r, j, t)))
  {
    hide Next, Ready, Inv, Effect, Took;
    var e := r.events[j - 1];
    assert IsStep(r.states[j - 1], e, r.states[j]);
    if j - 1 == i {
      CallStepShape(r.states[i], t, e.op, e.elem);
      NotYetTaken(At(r, j, t));
    } else {
      assert InCall(r, t, i, j - 1);
      EffectsCount(r, t, i, j - 1);
      Always(r, j - 1);
      if e.t == t {
        LeavingEnds(r.states[j - 1], t, e.op, e.elem);
        StepTakes(r.states[j - 1], t, e.op, e.elem);
      } else {
        InCallStep(r.states[j - 1], e, r.states[j], t);
      }
    }
  }

  lemma NotYetTaken(th: Thread)
    requires th.pc == InReclaimer(KEnter)
    ensures !Took(th)
  {
  }

  lemma LeavingEnds(s: State, t: Tid, op: Op, e: Elem)
    requires t in s.threads && Ready(s, t)
    ensures s.threads[t].pc.Leaving? ==> t in Next(s, t, op, e).threads && Next(s, t, op, e).threads[t].pc.Idle?
  {
  }

  // ----- a past moment for what has only been seen -----

  lemma SawInNow(h: Heap, e: Elem)
    requires Kinds(h) && Marks(h) && SawIn(h, h.clock, e)
    ensures e in Abs(h)
  {
    hide OrdinaryKey, Abs, Kinds;
    var n :| Pub(h, n) && h.nodes[n].key == OrdinaryKey(e.code) && h.nodes[n].elem == e &&
             (h.nodes[n].mark ==> h.clock <= h.nodes[n].wroteAt);
    assert Holds(h, n, e);
    InAbs(h, e);
  }

  lemma SawInBack(h: Heap, k: Heap, u: Tid, since: nat, e: Elem)
    requires Evolves(h, k, u) && Kinds(k) && Marks(k) && SawIn(k, since, e)
    ensures SawIn(h, since, e) || e in Abs(k)
  {
    hide OrdinaryKey, Abs, Kinds, LinksAlone;
    var n :| Pub(k, n) && k.nodes[n].key == OrdinaryKey(e.code) && k.nodes[n].elem == e &&
             (k.nodes[n].mark ==> since <= k.nodes[n].wroteAt);
    if k.nodes[n].mark {
      assert Pub(h, n);
    } else {
      assert Holds(k, n, e);
      InAbs(k, e);
    }
  }

  lemma SawOutNow(h: Heap, e: Elem)
    requires Kinds(h) && Births(h) && SawOut(h, h.clock, e)
    ensures e !in Abs(h)
  {
    hide OrdinaryKey, Abs, Kinds;
    InAbs(h, e);
  }

  lemma SawOutBack(h: Heap, k: Heap, u: Tid, since: nat, e: Elem)
    requires Evolves(h, k, u) && Kinds(k) && Unique(h) && SawOut(k, since, e)
    ensures SawOut(h, since, e) || e !in Abs(k)
  {
    hide OrdinaryKey, Abs, Kinds;
    if n :| Holds(h, n, e) && h.nodes[n].born < since {
      assert !Holds(k, n, e);
      forall m | Holds(k, m, e)
        ensures Lk(h, m) ==> m == n
      {
        assert Lk(h, m) ==> Same(h, m, n);
      }
      InAbs(k, e);
    }
  }

  /** A Guard opens with the step that announces, and that step touches no node. */
  lemma GuardOpens(s: State, t: Tid, op: Op, e: Elem)
    requires t in s.threads && Ready(s, t) && !s.threads[t].pc.Idle? && !Guarded(s.threads[t].pc)
    ensures var s' := Next(s, t, op, e);
            t in s'.threads && s'.heap == s.heap && (Guarded(s'.threads[t].pc) ==> s'.threads[t].since == s'.heap.clock)
  {
    hide E.InternalStep, E.Enabled;
  }

  /** The call's Guard was open in state `j - 1` too, or has just been opened in a memory that is still as it was. */
  lemma GuardBack(r: Run, t: Tid, i: nat, j: nat)
    requires IsRun(r) && InCall(r, t, i, j) && Guarded(At(r, j, t).pc)
    ensures i < j - 1 && InCall(r, t, i, j - 1)
    ensures if Guarded(At(r, j - 1, t).pc) then At(r, j, t).since == At(r, j - 1, t).since
            else At(r, j, t).since == r.states[j].heap.clock
  {
    hide Next, Ready;
    var e := r.events[j - 1];
    assert IsStep(r.states[j - 1], e, r.states[j]);
    if j - 1 == i {
      CallStepShape(r.states[i], t, e.op, e.elem);
    } else {
      InCallStep(r.states[j - 1], e, r.states[j], t);
      if e.t == t && !Guarded(At(r, j - 1, t).pc) {
        GuardOpens(r.states[j - 1], t, e.op, e.elem);
      }
    }
  }

  lemma RunEvolves(r: Run, j: nat)
    requires IsRun(r) && 0 < j < |r.states|
    ensures Evolves(r.states[j - 1].heap, r.states[j].heap, r.events[j - 1].t)
    ensures HeapInv(r.states[j - 1].heap) && HeapInv(r.states[j].heap)
  {
    hide Next, Ready, Evolves, HeapInv;
    var e := r.events[j - 1];
    assert IsStep(r.states[j - 1], e, r.states[j]);
    Always(r, j - 1);
    Always(r, j);
    StepEvolves(r.states[j - 1], e.t, e.op, e.elem);
  }

  /** What was seen since the Guard opened was in the set at some moment of the call. */
  lemma {:induction false} SeenPresent(r: Run, t: Tid, i: nat, j: nat, e: Elem)
    requires IsRun(r) && InCall(r, t, i, j) && Guarded(At(r, j, t).pc)
    requires SawIn(r.states[j].heap, At(r, j, t).since, e)
    ensures exists k :: i < k <= j && e in Abs(r.states[k].heap)
  {
    hide SawIn, Next, Ready, HeapInv, Evolves, Abs;
    GuardBack(r, t, i, j);
    RunEvolves(r, j);
    var h, k := r.states[j - 1].heap, r.states[j].heap;
    HeapHas(k);
    if !Guarded(At(r, j - 1, t).pc) {
      SawInNow(k, e);
    } else {
      SawInBack(h, k, r.events[j - 1].t, At(r, j, t).since, e);
      if e !in Abs(k) {
        SeenPresent(r, t, i, j - 1, e);
      }
    }
  }

  /** What was missed since the Guard opened was not in the set at some moment of the call. */
  lemma {:induction false} SeenAbsent(r: Run, t: Tid, i: nat, j: nat, e: Elem)
    requires IsRun(r) && InCall(r, t, i, j) && Guarded(At(r, j, t).pc)
    requires SawOut(r.states[j].heap, At(r, j, t).since, e)
    ensures exists k :: i < k <= j && e !in Abs(r.states[k].heap)
  {
    hide SawOut, Next, Ready, HeapInv, Evolves, Abs;
    GuardBack(r, t, i, j);
    RunEvolves(r, j);
    var h, k := r.states[j - 1].heap, r.states[j].heap;
    HeapHas(k);
    HeapHas(h);
    if !Guarded(At(r, j - 1, t).pc) {
      SawOutNow(k, e);
    } else {
      SawOutBack(h, k, r.events[j - 1].t, At(r, j, t).since, e);
      if e in Abs(k) {
        SeenAbsent(r, t, i, j - 1, e);
      }
    }
  }

  // ----- linearizability -----

  lemma {:induction false} TheEffect(r: Run, t: Tid, i: nat, j: nat) returns (k: nat)
    requires IsRun(r) && InCall(r, t, i, j) && Effects(r, t, i, j) > 0
    ensures i < k < j && r.events[k].t == t && Effect(r.states[k], t)
  {
    hide Effect, Next, Ready;
    if r.events[j - 1].t == t && Effect(r.states[j - 1], t) && j > i + 1 {
      k := j - 1;
    } else {
      assert InCall(r, t, i, j - 1);
      k := TheEffect(r, t, i, j - 1);
    }
  }

  /**
    State `k` is a moment at which the sequential operation answers `res`; and either it changes nothing
    there, or step `k`, taken by `t`, is the change it makes.
  */
  ghost predicate TakesPlaceAt(r: Run, t: Tid, k: nat, op: Op, e: Elem, res: bool)
    requires k < |r.states|
  {
    var A := Abs(r.states[k].heap);
    && res == Answer(op, e, A)
    && (After(op, e, A) == A ||
        (k < |r.events| && k + 1 < |r.states| && r.events[k].t == t && Abs(r.states[k + 1].heap) == After(op, e, A)))
  }

  lemma JustifiedNow(h: Heap, th: Thread, t: Tid, max: nat, res: bool)
    requires ThreadOk(h, th, t, max) && th.pc == Leaving(res)
    ensures Justified(h, th, res)
  {
    hide Justified, Searching, Removing, Walking;
  }

  lemma EffectTakesPlace(r: Run, t: Tid, i: nat, j: nat, res: bool) returns (k: nat)
    requires IsRun(r) && InCall(r, t, i, j) && At(r, j, t).pc == Leaving(res) && Took(At(r, j, t))
    ensures i < k < j && TakesPlaceAt(r, t, k, r.events[i].op, r.events[i].elem, res)
  {
    hide Next, Ready, Inv, Abs;
    CallArguments(r, t, i, j);
    EffectsCount(r, t, i, j);
    k := TheEffect(r, t, i, j);
    assert InCall(r, t, i, k);
    CallArguments(r, t, i, k);
    Always(r, k);
    var e := r.events[k];
    assert IsStep(r.states[k], e, r.states[k + 1]);
    StepRefinesSet(r.states[k], t, e.op, e.elem);
  }

  lemma RunJustified(r: Run, t: Tid, j: nat, res: bool)
    requires IsRun(r) && j < |r.states| && t in r.states[j].threads && At(r, j, t).pc == Leaving(res)
    ensures Justified(r.states[j].heap, At(r, j, t), res)
  {
    hide IsRun, Inv, Justified, ThreadOk;
    Always(r, j);
    Unfold(r.states[j], t);
    JustifiedNow(r.states[j].heap, At(r, j, t), t, r.states[j].maxCapacity, res);
  }

  lemma ReadTakesPlace(r: Run, t: Tid, i: nat, j: nat, res: bool) returns (k: nat)
    requires IsRun(r) && InCall(r, t, i, j) && At(r, j, t).pc == Leaving(res) && !Took(At(r, j, t))
    ensures i < k <= j && TakesPlaceAt(r, t, k, r.events[i].op, r.events[i].elem, res)
  {
    hide IsRun, Abs, SawIn, SawOut;
    CallArguments(r, t, i, j);
    RunJustified(r, t, j, res);
    var th := At(r, j, t);
    if SawIn(r.states[j].heap, th.since, th.elem) && (if th.op.OpContains? then res else th.op.OpAdd?) {
      SeenPresent(r, t, i, j, th.elem);
      k :| i < k <= j && th.elem in Abs(r.states[k].heap);
    } else {
      SeenAbsent(r, t, i, j, th.elem);
      k :| i < k <= j && th.elem !in Abs(r.states[k].heap);
    }
  }

  /**
    Linearizability: whenever a call of Add, Remove or Contains is about to return, there was a moment
    strictly after it was made and no later than now at which the operation on a plain set gives the same
    answer. If it changes the set, its change is exactly the step taken there, and the call has changed
    nothing else; if it does not, the call has changed nothing at all.
  */
  lemma Linearizable(r: Run, t: Tid, i: nat, j: nat, res: bool) returns (k: nat)
    requires IsRun(r) && InCall(r, t, i, j) && At(r, j, t).pc == Leaving(res)
    ensures i < k <= j && TakesPlaceAt(r, t, k, r.events[i].op, r.events[i].elem, res)
    ensures Effects(r, t, i, j) == if res && !r.events[i].op.OpContains? then 1 else 0
  {
    hide IsRun, TakesPlaceAt;
    EffectsCount(r, t, i, j);
    CallArguments(r, t, i, j);
    if Took(At(r, j, t)) {
      k := EffectTakesPlace(r, t, i, j, res);
    } else {
      k := ReadTakesPlace(r, t, i, j, res);
    }
  }

  /** Whatever changes the abstract set is the one effect of some call that is under way. */
  lemma OnlyEffectsChange(r: Run, k: nat)
    requires IsRun(r) && k < |r.events| && Abs(r.states[k + 1].heap) != Abs(r.states[k].heap)
    ensures Effect(r.states[k], r.events[k].t)
  {
    hide Next, Ready, Inv, Abs;
    Always(r, k);
    var e := r.events[k];
    assert IsStep(r.states[k], e, r.states[k + 1]);
    StepRefinesSet(r.states[k], e.t, e.op, e.elem);
  }
}
