/** The steps of the Guard and of Retire keep the invariant of the lock-free set. */
module LockFreeRuns {
  import opened Common
  import opened SplitOrder
  import opened ListHeap
  import opened Traversal
  import opened LockFreeSet
  import opened LockFreeInv
  import opened LockFreeSteps
  import opened LockFreeFind
  import E = Epochs

  // ----- steps of the reclaimer -----

  /** A step that changes the reclaimer, and in the set only where `t` is. */
  lemma Reclaiming(s: State, s': State, t: Tid)
    requires Inv(s) && OnlyThread(s, s', t) && s' == s.(threads := s'.threads, rec := s'.rec)
    requires s'.threads[t].node == s.threads[t].node
    requires ThreadOk(s.heap, s'.threads[t], t, s.maxCapacity)
    requires E.OwnInv(s'.rec) && RecTie(s')
    ensures Inv(s')
  {
    hide Inv, ThreadOk, DeletedOk, BucketsOk, CapacityOk, ThreadsOk, RecTie, HeapInv, E.OwnInv;
    Unfold(s, t);
    HeapHas(s.heap);
    EvolvesSame(s.heap, t) by { hide *; }
    OthersOk(s, s', t) by { hide *; hide Evolves; }
    SamePrivate(s, s', t);
    FoldInv(s, s', t);
  }

  /** Fates survive with their holders, except that `gone` is no longer among them. */
  ghost predicate FatesSurvive(a: E.State, b: E.State, gone: set<Tid>) {
    b.fates.Keys == a.fates.Keys &&
    forall n :: n in a.fates ==> b.fates[n].holders == a.fates[n].holders - gone
  }

  /** What a step of the reclaimer's own code leaves alone. */
  ghost predicate Survives(r: E.State, q: E.State, t: Tid) {
    FatesSurvive(r, q, {}) && q.parts.Keys == r.parts.Keys && t in q.ctl && q.ctl == r.ctl[t := q.ctl[t]]
  }

  lemma InternalSurvives(r: E.State, t: Tid)
    requires E.OwnInv(r) && E.Enabled(r, t, E.Internal)
    ensures Survives(r, E.InternalStep(r, t), t)
  {
    hide E.OwnInv, E.OnlyCtl, Survives;
    if r.ctl[t].Pushing? {
      PushSurvives(r, t, r.ctl[t].n);
    } else if r.ctl[t].Reading? {
      LoadSurvives(r, t);
    } else if r.ctl[t].Announcing? {
      AnnounceSurvives(r, t, r.ctl[t].e);
    } else {
      E.InternalMovesControl(r, t);
      ControlSurvives(r, E.InternalStep(r, t), t);
    }
  }

  lemma ControlSurvives(r: E.State, q: E.State, t: Tid)
    requires E.OnlyCtl(r, q, t)
    ensures Survives(r, q, t)
  {
  }

  lemma PushSurvives(r: E.State, t: Tid, n: NodeId)
    requires E.Typed(r, t) && n in r.fates
    ensures Survives(r, E.PushStep(r, t, n), t)
  {
  }

  lemma LoadSurvives(r: E.State, t: Tid)
    requires E.Typed(r, t)
    ensures Survives(r, E.LoadStep(r, t), t)
  {
  }

  lemma AnnounceSurvives(r: E.State, t: Tid, e: nat)
    requires E.Typed(r, t)
    ensures Survives(r, E.AnnounceStep(r, t, e), t)
  {
  }

  lemma TiesAfter(s: State, s': State, t: Tid, gone: set<Tid>)
    requires RecTie(s) && OnlyThread(s, s', t) && s'.heap == s.heap
    requires FatesSurvive(s.rec, s'.rec, gone) && s'.rec.parts.Keys == s.rec.parts.Keys
    requires t in s'.rec.ctl && s'.rec.ctl == s.rec.ctl[t := s'.rec.ctl[t]] && CtlTie(s'.threads[t].pc, s'.rec.ctl[t])
    requires forall u :: u in gone ==> u == t && !Guarded(s'.threads[t].pc)
    requires HolderTie(s', t)
    ensures RecTie(s')
  {
    forall u | u in s'.threads
      ensures HolderTie(s', u) && CtlTie(s'.threads[u].pc, s'.rec.ctl[u])
    {
      assert HolderTie(s, u) && CtlTie(s.threads[u].pc, s.rec.ctl[u]);
    }
  }

  lemma StepCall(s: State, t: Tid, op: Op, e: Elem)
    requires Inv(s) && t in s.threads && s.threads[t].pc.Idle?
    ensures Inv(CallStep(s, t, s.threads[t], op, e))
  {
    hide Inv, HeapInv, RecTie, DeletedOk, ThreadsOk, BucketsOk, CapacityOk, E.OwnInv;
    Unfold(s, t);
    var s' := CallStep(s, t, s.threads[t], op, e);
    CallTies(s, s', t);
    assert E.OwnInv(s'.rec) by { E.StepOwns(s.rec, t, E.Begin); }
    Reclaiming(s, s', t);
  }

  lemma CallTies(s: State, s': State, t: Tid)
    requires RecTie(s) && E.OwnInv(s.rec) && t in s.threads && s.threads[t].pc.Idle? && OnlyThread(s, s', t)
    requires s'.heap == s.heap && s'.rec == E.BeginStep(s.rec, t) && s'.threads[t].pc == InReclaimer(KEnter)
    ensures E.Enabled(s.rec, t, E.Begin) && RecTie(s')
  {
    assert CtlTie(s.threads[t].pc, s.rec.ctl[t]);
    TiesAfter(s, s', t, {});
  }

  lemma StepLeave(s: State, t: Tid, res: bool)
    requires Inv(s) && t in s.threads && s.threads[t].pc == Leaving(res)
    ensures E.Enabled(s.rec, t, E.Leave) && Inv(LeaveStep(s, t, s.threads[t]))
  {
    hide Inv, HeapInv, DeletedOk, ThreadsOk, BucketsOk, CapacityOk, E.OwnInv;
    Unfold(s, t);
    assert CtlTie(s.threads[t].pc, s.rec.ctl[t]);
    LeaveEnabled(s, t);
    var s' := LeaveStep(s, t, s.threads[t]);
    TiesAfter(s, s', t, {t});
    assert E.OwnInv(s'.rec) by { E.StepOwns(s.rec, t, E.Leave); }
    Reclaiming(s, s', t) by { hide RecTie; }
  }

  lemma LeaveEnabled(s: State, t: Tid)
    requires E.OwnInv(s.rec) && t in s.rec.parts && s.rec.ctl.Keys == s.rec.parts.Keys && s.rec.ctl[t].Inside?
    ensures E.Enabled(s.rec, t, E.Leave)
  {
  }

  lemma StepReclaimer(s: State, t: Tid, k: Cont)
    requires Inv(s) && t in s.threads && s.threads[t].pc == InReclaimer(k)
    ensures E.Enabled(s.rec, t, E.Internal) && Inv(ReclaimerStep(s, t, s.threads[t], k))
  {
    hide Inv, HeapInv, DeletedOk, ThreadsOk, BucketsOk, CapacityOk, E.OwnInv, RecTie, E.Enabled, E.InternalStep;
    Unfold(s, t);
    InternalEnabledHere(s, t, k);
    var s' := ReclaimerStep(s, t, s.threads[t], k);
    assert E.OwnInv(s'.rec) by {
      E.StepOwns(s.rec, t, E.Internal);
      assert E.Apply(s.rec, t, E.Internal) == E.InternalStep(s.rec, t);
    }
    ReclaimerTies(s, t, k);
    ResumeThread(s.heap, s.threads[t], t, s.maxCapacity, k);
    Reclaiming(s, s', t) by { hide ThreadOk; }
  }

  lemma ResumeThread(h: Heap, th: Thread, t: Tid, max: nat, k: Cont)
    requires ThreadOk(h, th, t, max) && th.pc == InReclaimer(k)
    ensures ThreadOk(h, if k.KEnter? then th.(pc := Resume(k), since := h.clock) else th.(pc := Resume(k)), t, max)
  {
    hide Passed, Clear, Gap, Held, SentinelKey, OrdinaryKey, Lk, SentinelKeyForm;
  }

  lemma InternalEnabledHere(s: State, t: Tid, k: Cont)
    requires RecTie(s) && E.OwnInv(s.rec) && t in s.threads && s.threads[t].pc == InReclaimer(k)
    ensures E.Enabled(s.rec, t, E.Internal)
  {
    assert CtlTie(s.threads[t].pc, s.rec.ctl[t]) && E.CtlOk(s.rec, t);
  }

  lemma ReclaimerTies(s: State, t: Tid, k: Cont)
    requires RecTie(s) && E.OwnInv(s.rec) && HeapInv(s.heap) && t in s.threads && s.threads[t].pc == InReclaimer(k)
    requires E.Enabled(s.rec, t, E.Internal)
    ensures RecTie(ReclaimerStep(s, t, s.threads[t], k))
  {
    hide HeapInv, E.OwnInv, E.InternalStep;
    var s' := ReclaimerStep(s, t, s.threads[t], k);
    assert CtlTie(s.threads[t].pc, s.rec.ctl[t]);
    InternalSurvives(s.rec, t);
    if k.KEnter? {
      EnterControl(s.rec, t);
    } else {
      RetireControl(s.rec, t);
    }
    ReclaimerHolds(s, s', t) by { hide RecTie; HeapHas(s.heap); assert HolderTie(s, t) by { RecTieAt(s, t); } }
    TiesAfter(s, s', t, {}) by { hide HolderTie, RecTie; }
  }

  lemma RecTieAt(s: State, t: Tid)
    requires RecTie(s) && t in s.threads
    ensures HolderTie(s, t)
  {
  }

  /** The one that has just announced was not there when anything was unlinked before. */
  lemma ReclaimerHolds(s: State, s': State, t: Tid)
    requires Marks(s.heap) && t in s.threads && HolderTie(s, t) && OnlyThread(s, s', t) && s'.heap == s.heap
    requires FatesSurvive(s.rec, s'.rec, {})
    requires || !Guarded(s'.threads[t].pc)
             || s'.threads[t].since == s.heap.clock
             || (Guarded(s.threads[t].pc) && s'.threads[t].since == s.threads[t].since)
    ensures HolderTie(s', t)
  {
  }

  /** A Guard that is being entered is still being entered, or open. */
  lemma EnterControl(r: E.State, t: Tid)
    requires E.Enabled(r, t, E.Internal) && (r.ctl[t].Joining? || r.ctl[t].Reading? || r.ctl[t].Announcing?)
    ensures var q := E.InternalStep(r, t);
            E.Typed(q, t) && (q.ctl[t].Inside? || q.ctl[t].Joining? || q.ctl[t].Reading? || q.ctl[t].Announcing?)
  {
  }

  /** Retire is still in progress, or back in its caller's code. */
  lemma RetireControl(r: E.State, t: Tid)
    requires E.Enabled(r, t, E.Internal) && E.InGuard(r.ctl[t])
    ensures E.Typed(E.InternalStep(r, t), t) && E.InGuard(E.InternalStep(r, t).ctl[t])
  {
    hide E.LoadStep, E.AnnounceStep, E.Retired, E.Emptied, E.RetireFrees, E.Reuses;
  }
}
