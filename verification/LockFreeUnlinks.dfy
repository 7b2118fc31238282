/**
  What a CAS on the list does, and what becomes of the node that a Remove has marked: the Remove tries once to
  unlink it, and whoever unlinks it retires it (src/BucketList.h:104-123).
*/
module LockFreeUnlinks {
  import opened Common
  import opened SplitOrder
  import opened ListHeap
  import opened Traversal
  import opened LockFreeSet
  import opened LockFreeInv
  import opened LockFreeSteps
  import opened LockFreeSafety
  import opened LockFreeLinear
  import opened Linearizability
  import opened LockFreeProgress
  import E = Epochs

  // ----- the words -----

  /** The step from `h` to `k` changes the word of `n`: the node it points to, or its mark. */
  ghost predicate WordChanges(h: Heap, k: Heap, n: NodeId) {
    n in h.nodes && n in k.nodes && (k.nodes[n].next != h.nodes[n].next || k.nodes[n].mark != h.nodes[n].mark)
  }

  lemma SwingChanges(s: State, u: Tid, op: Op, e: Elem, n: NodeId)
    requires Inv(s) && u in s.threads && Ready(s, u) && Swings(s, u, n)
    ensures WordChanges(s.heap, Next(s, u, op, e).heap, n)
  {
    hide Inv, HeapInv, RecTie, DeletedOk, ThreadsOk, BucketsOk, CapacityOk, StackOk, TargetOk, E.InternalStep,
      E.UnlinkStep, E.OwnInv, OrdinaryKey, SentinelKey, HeadOk;
    Unfold(s, u);
    var th, h := s.threads[u], s.heap;
    if th.pc.FindUnlink? || th.pc.RemoveUnlink? {
      assert th.succ != th.curr by { SuccDiffers(h, th, u, s.maxCapacity); }
    } else if th.pc.LinkCas? {
      assert th.node != th.curr by { NodeDiffers(h, th, u, s.maxCapacity); }
    }
  }

  lemma SuccDiffers(h: Heap, th: Thread, t: Tid, max: nat)
    requires HeapInv(h) && ThreadOk(h, th, t, max) && (th.pc.FindUnlink? || th.pc.RemoveUnlink?)
    ensures th.succ != th.curr
  {
    hide HeapInv, OrdinaryKey, SentinelKey, StackOk, TargetOk, HeadOk, Passed, Clear, Gap, PredFresh;
    HeapHas(h);
    assert Held(h, th.curr, th.since) && Nx(h, th.curr) == th.succ && th.curr != TAIL;
    HeldNext(h, th.curr, th.since);
  }

  lemma NodeDiffers(h: Heap, th: Thread, t: Tid, max: nat)
    requires ThreadOk(h, th, t, max) && th.pc.LinkCas?
    ensures th.node != th.curr
  {
    hide OrdinaryKey, SentinelKey, StackOk, TargetOk, HeadOk, Passed, Clear, Gap, PredFresh;
  }

  /** In every run the word of a published node changes exactly where a CAS on it succeeds. */
  lemma WordsChangeExactly(r: Run, k: nat, n: NodeId)
    requires IsRun(r) && k < |r.events| && Pub(r.states[k].heap, n)
    ensures WordChanges(r.states[k].heap, r.states[k + 1].heap, n) <==> Swings(r.states[k], r.events[k].t, n)
  {
    hide Next, Ready, Inv, Swings, Init;
    var s, e := r.states[k], r.events[k];
    assert IsStep(s, e, r.states[k + 1]);
    Always(r, k);
    if Swings(s, e.t, n) {
      SwingChanges(s, e.t, e.op, e.elem, n);
    } else {
      WordKept(s, e.t, e.op, e.elem, n);
    }
  }

  lemma FoundGoesOn(s: State, t: Tid, th: Thread)
    requires th.curr in s.heap.nodes && t in s.threads && th.pc.FindLoad? && s.threads[t].pc.FindLoad?
    ensures t in Found(s, t, th).threads && !Found(s, t, th).threads[t].pc.FindStart?
  {
    hide Matches, Alloc, StoreNext, DeleteNode, Payload;
  }

  lemma StepRestarts(s: State, t: Tid, op: Op, e: Elem)
    requires t in s.threads && Ready(s, t) && InList(s.threads[t].pc)
    ensures t in Next(s, t, op, e).threads
    ensures Next(s, t, op, e).threads[t].pc.FindStart? ==> Fails(s, t)
  {
    hide Found, ContainsAt, Matches, AtOrPast, CanSwing, MarkNode, Publish, Unlink, E.InternalStep, E.Enabled,
      E.UnlinkStep;
    var th := s.threads[t];
    if th.pc.FindLoad? {
      FoundGoesOn(s, t, th.(currAt := s.heap.clock));
    } else if th.pc.ContainsLoad? {
      ContainsNeverSearches(s.heap, th, s.heap.nodes[th.curr].next);
    }
  }

  lemma ContainsNeverSearches(h: Heap, th: Thread, c: NodeId)
    requires c in h.nodes
    ensures !ContainsAt(h, th, c).pc.FindStart?
  {
  }

  /** A search starts over only where a CAS has failed: nobody who unlinks a node on the way has to go back. */
  lemma RestartsOnlyAfterFailure(r: Run, t: Tid, k: nat)
    requires IsRun(r) && k < |r.events| && r.events[k].t == t && t in r.states[k + 1].threads
    requires At(r, k + 1, t).pc.FindStart?
    ensures t in r.states[k].threads && (InList(At(r, k, t).pc) ==> Fails(r.states[k], t))
  {
    hide Next, Ready, Init, Fails, InList;
    var s, e := r.states[k], r.events[k];
    assert IsStep(s, e, r.states[k + 1]);
    if InList(At(r, k, t).pc) {
      StepRestarts(s, t, e.op, e.elem);
    }
  }

  // ----- the one attempt of a Remove -----

  lemma FoundTriesNot(s: State, t: Tid, th: Thread)
    requires th.curr in s.heap.nodes && t in s.threads && s.threads[t].pc.FindLoad?
    ensures t in Found(s, t, th).threads && !Found(s, t, th).threads[t].pc.RemoveUnlink?
  {
    hide Matches, Alloc, StoreNext, DeleteNode, Payload;
  }

  lemma ToUnlinkInList(s: State, t: Tid, op: Op, e: Elem)
    requires t in s.threads && Ready(s, t) && InList(s.threads[t].pc)
    requires t in Next(s, t, op, e).threads && Next(s, t, op, e).threads[t].pc.RemoveUnlink?
    ensures MarksElement(s, t)
    ensures var th, th' := s.threads[t], Next(s, t, op, e).threads[t]; th'.curr == th.curr && th'.pred == th.pred
  {
    hide Found, Matches, AtOrPast, CanSwing, MarkNode, Publish, Unlink, E.InternalStep, E.Enabled, E.UnlinkStep;
    var th := s.threads[t];
    if th.pc.FindLoad? {
      FoundTriesNot(s, t, th.(currAt := s.heap.clock));
    }
  }

  lemma ToUnlinkElsewhere(s: State, t: Tid, op: Op, e: Elem)
    requires t in s.threads && Ready(s, t) && !InList(s.threads[t].pc) && t in Next(s, t, op, e).threads
    ensures !Next(s, t, op, e).threads[t].pc.RemoveUnlink?
  {
    hide E.InternalStep, E.Enabled, E.BeginStep, E.LeaveStep, SentinelKey, OrdinaryKey, Matches, AtOrPast;
  }

  /** A thread is about to try only where it has just marked. */
  lemma ToUnlink(s: State, t: Tid, op: Op, e: Elem)
    requires t in s.threads && Ready(s, t)
    requires t in Next(s, t, op, e).threads && Next(s, t, op, e).threads[t].pc.RemoveUnlink?
    ensures MarksElement(s, t)
    ensures var th, th' := s.threads[t], Next(s, t, op, e).threads[t]; th'.curr == th.curr && th'.pred == th.pred
  {
    hide Next, Ready;
    if InList(s.threads[t].pc) {
      ToUnlinkInList(s, t, op, e);
    } else {
      ToUnlinkElsewhere(s, t, op, e);
    }
  }

  lemma {:induction false} TheMark(r: Run, t: Tid, i: nat, j: nat) returns (k: nat)
    requires IsRun(r) && InCall(r, t, i, j) && At(r, j, t).pc.RemoveUnlink?
    ensures i < k < j && r.events[k].t == t && MarksElement(r.states[k], t)
    ensures At(r, k, t).curr == At(r, j, t).curr && At(r, k, t).pred == At(r, j, t).pred
  {
    hide Next, Ready, MarksElement;
    var s, e := r.states[j - 1], r.events[j - 1];
    assert IsStep(s, e, r.states[j]);
    if j - 1 == i {
      CallStepShape(s, t, e.op, e.elem);
    } else {
      assert InCall(r, t, i, j - 1);
      InCallStep(s, e, r.states[j], t);
      if e.t == t {
        ToUnlink(s, t, e.op, e.elem);
        k := j - 1;
      } else {
        k := TheMark(r, t, i, j - 1);
      }
    }
  }

  /** Step `m` takes node `n` out of the list. */
  ghost predicate TakesOut(r: Run, m: nat, n: NodeId)
    requires m + 1 < |r.states|
  {
    Lk(r.states[m].heap, n) && Un(r.states[m + 1].heap, n)
  }

  /** Thread `t` has read the word of `p` with step `a`, and another thread changed it with step `q`. */
  ghost predicate Overtaken(r: Run, t: Tid, p: NodeId, a: nat, q: nat)
    requires IsRun(r) && a < |r.events| && q < |r.events|
  {
    && a < q && r.events[a].t == t && Reads(r.states[a], t, p)
    && r.events[q].t != t && WordChanges(r.states[q].heap, r.states[q + 1].heap, p)
  }

  lemma UnlinkStepTakesOut(s: State, t: Tid, op: Op, e: Elem)
    requires Inv(s) && t in s.threads && Ready(s, t) && s.threads[t].pc.RemoveUnlink? && Succeeds(s.heap, s.threads[t])
    ensures Lk(s.heap, s.threads[t].curr) && Un(Next(s, t, op, e).heap, s.threads[t].curr)
  {
    hide Inv, HeapInv, RecTie, DeletedOk, ThreadsOk, BucketsOk, CapacityOk, StackOk, TargetOk, E.OwnInv, E.UnlinkStep,
      OrdinaryKey, SentinelKey, ThreadOk;
    Unfold(s, t);
    UnlinkedIsLinked(s.heap, s.threads[t], t, s.maxCapacity);
  }

  /** The attempt: it takes the node out, or another thread has changed the word since it was read. */
  lemma Attempt(r: Run, t: Tid, i: nat, m: nat) returns (a: nat, q: nat)
    requires IsRun(r) && InCall(r, t, i, m) && At(r, m, t).pc.RemoveUnlink? && m < |r.events| && r.events[m].t == t
    ensures i < a < |r.events| && q < |r.events|
    ensures TakesOut(r, m, At(r, m, t).curr) || (q < m && Overtaken(r, t, At(r, m, t).pred, a, q))
  {
    hide Next, Ready, Inv, Init, ThreadOk, HeapInv, RecTie, DeletedOk, ThreadsOk, BucketsOk, CapacityOk, E.OwnInv,
      Succeeds, Reads, Swings, Charged, WordChanges;
    var s, e, th := r.states[m], r.events[m], At(r, m, t);
    assert IsStep(s, e, r.states[m + 1]);
    Always(r, m);
    if Succeeds(s.heap, th) {
      UnlinkStepTakesOut(s, t, e.op, e.elem);
      a, q := m, m;
    } else {
      Unfold(s, t);
      FailureCharged(s.heap, th, t, s.maxCapacity);
      a := PredWasRead(r, t, m);
      ReadIsPublished(r, t, a, th.pred, th.predAt);
      ReadThen(r, t, a, th.pred, th.predAt);
      q := WriterFound(r, t, th.pred, a, m);
      PubStays(r, a + 1, q, th.pred);
      WordsChangeExactly(r, q, th.pred);
      ReadsInCall(r.states[a], t, th.pred);
    }
  }

  lemma ReadsInCall(s: State, t: Tid, n: NodeId)
    requires Reads(s, t, n)
    ensures !s.threads[t].pc.Idle?
  {
  }

  /** What a Remove goes on to when it has tried. */
  predicate HasTried(pc: PC) { pc == InReclaimer(KRemove) || pc.CountRemove? || pc == Leaving(true) }

  lemma TookMeans(th: Thread)
    requires th.op.OpRemove?
    ensures Took(th) <==> th.pc.RemoveUnlink? || HasTried(th.pc)
  {
  }

  lemma EffectMarks(s: State, t: Tid, op: Op, e: Elem)
    requires Inv(s) && t in s.threads && Ready(s, t) && s.threads[t].op.OpRemove? && Effect(s, t)
    ensures t in Next(s, t, op, e).threads && Next(s, t, op, e).threads[t].pc.RemoveUnlink?
  {
    hide Inv, Next, Ready, HeapInv, RecTie, DeletedOk, ThreadsOk, BucketsOk, CapacityOk, E.OwnInv, ThreadOk, CanSwing;
    Unfold(s, t);
    EffectPc(s.heap, s.threads[t], t, s.maxCapacity);
    MarkLeads(s, t, op, e);
  }

  lemma MarkLeads(s: State, t: Tid, op: Op, e: Elem)
    requires t in s.threads && Ready(s, t) && MarksElement(s, t)
    ensures t in Next(s, t, op, e).threads && Next(s, t, op, e).threads[t].pc.RemoveUnlink?
  {
    hide CanSwing, MarkNode;
  }

  /**
    Every Remove that is about to answer true has marked its node, once, and then tried to unlink it, and it took
    the node out of the list, or between Find's read of the predecessor's word and the attempt another thread has
    changed that word.
  */
  lemma {:induction false} RemoveTriesToUnlink(r: Run, t: Tid, i: nat, j: nat) returns (k: nat, m: nat, a: nat, q: nat)
    requires IsRun(r) && InCall(r, t, i, j) && r.events[i].op.OpRemove? && HasTried(At(r, j, t).pc)
    ensures i < k < m < j < |r.states| == |r.events| + 1 && i < a < |r.events| && q < |r.events|
    ensures r.events[k].t == t == r.events[m].t && MarksElement(r.states[k], t)
    ensures TakesOut(r, m, At(r, k, t).curr) || (q < m && Overtaken(r, t, At(r, k, t).pred, a, q))
    decreases j
  {
    hide Next, Ready, Init, Inv, MarksElement, Effect, Took, HasTried, TakesOut, Overtaken;
    var s, e := r.states[j - 1], r.events[j - 1];
    assert IsStep(s, e, r.states[j]);
    TriedMeans(At(r, j, t));
    if j - 1 == i {
      CallStepShape(s, t, e.op, e.elem);
    } else {
      assert InCall(r, t, i, j - 1);
      InCallStep(s, e, r.states[j], t);
      CallArguments(r, t, i, j - 1);
      if e.t != t || HasTried(s.threads[t].pc) {
        k, m, a, q := RemoveTriesToUnlink(r, t, i, j - 1);
      } else {
        Always(r, j - 1);
        LeavingEnds(s, t, e.op, e.elem);
        StepTakes(s, t, e.op, e.elem);
        TookMeans(s.threads[t]);
        TookMeans(At(r, j, t));
        if Effect(s, t) {
          EffectMarks(s, t, e.op, e.elem);
        }
        m := j - 1;
        k := TheMark(r, t, i, m);
        a, q := Attempt(r, t, i, m);
      }
    }
  }

  lemma TriedMeans(th: Thread)
    ensures HasTried(th.pc) ==> !th.pc.RemoveUnlink? && !th.pc.Idle? && th.pc != InReclaimer(KEnter)
  {
  }
}
