/** Whole runs of the lock-free set: memory safety, and where every node is. */
module LockFreeSafety {
  import opened Common
  import opened SplitOrder
  import opened ListHeap
  import opened Traversal
  import opened LockFreeSet
  import opened LockFreeInv
  import opened LockFreeSteps
  import opened LockFreeFind
  import opened LockFreeRuns
  import opened LockFreeTheorems
  import E = Epochs

  /** Thread `t` takes a step; `op` and `elem` are what it calls if it is idle. */
  datatype Event = Event(t: Tid, op: Op, elem: Elem)

  datatype Run = Run(states: seq<State>, events: seq<Event>)

  ghost predicate IsStep(s: State, e: Event, s': State) {
    e.t in s.threads && Ready(s, e.t) && s' == Next(s, e.t, e.op, e.elem)
  }

  ghost predicate IsRun(r: Run) {
    && |r.states| == |r.events| + 1 && Init(r.states[0])
    && forall i {:trigger r.events[i]} :: 0 <= i < |r.events| ==> IsStep(r.states[i], r.events[i], r.states[i + 1])
  }

  /** The next step of `t` takes a node out of the list. */
  ghost predicate Unlinks(s: State, t: Tid) {
    t in s.threads && (s.threads[t].pc.FindUnlink? || s.threads[t].pc.RemoveUnlink?) &&
    CanSwing(s.heap, s.threads[t].pred, s.threads[t].curr)
  }

  /** If this step unlinks a node, the epoch is at most `d` past the tag that Retire is going to give it. */
  ghost predicate TagWithin(s: State, t: Tid, d: nat) {
    Unlinks(s, t) && t in s.rec.parts ==> s.rec.epoch <= s.rec.parts[t].announced + 1 + d
  }

  ghost predicate TagsWithin(r: Run, d: nat)
    requires IsRun(r)
  {
    forall i {:trigger r.events[i]} :: 0 <= i < |r.events| ==> TagWithin(r.states[i], r.events[i].t, d)
  }

  /** If this step announces an epoch, it is still the current one. */
  ghost predicate FreshStep(s: State, t: Tid) {
    t in s.rec.ctl && s.rec.ctl[t].Announcing? ==> s.rec.ctl[t].e == s.rec.epoch
  }

  ghost predicate FreshRun(r: Run)
    requires IsRun(r)
  {
    forall i {:trigger r.events[i]} :: 0 <= i < |r.events| ==> FreshStep(r.states[i], r.events[i].t)
  }

  lemma {:induction false} Always(r: Run, i: nat)
    requires IsRun(r) && i < |r.states|
    ensures Inv(r.states[i])
  {
    hide Inv, Init, Next, Ready;
    if i == 0 {
      InitInv(r.states[0]);
    } else {
      Always(r, i - 1);
      var e := r.events[i - 1];
      StepInv(r.states[i - 1], e.t, e.op, e.elem);
    }
  }

  // ----- the reclaimer's part of a step -----

  ghost predicate ReclaimerMoves(s: State, t: Tid, a: E.Action, rec: E.State) {
    && E.Enabled(s.rec, t, a) && rec == E.Apply(s.rec, t, a)
    && (FreshStep(s, t) ==> E.Lag(s.rec, t, a) == 0) && (TagWithin(s, t, 0) ==> E.TagLag(s.rec, t, a) <= 0)
  }

  /** The set takes its reclaimer through steps of the reclaimer's own machine, and no others. */
  lemma StepOfReclaimer(s: State, t: Tid, op: Op, e: Elem)
    requires Inv(s) && t in s.threads && Ready(s, t)
    ensures var s' := Next(s, t, op, e);
            s'.rec == s.rec || exists a :: ReclaimerMoves(s, t, a, s'.rec)
  {
    hide Inv, HeapInv, RecTie, DeletedOk, ThreadsOk, BucketsOk, CapacityOk, StackOk, TargetOk, E.OwnInv, E.InternalStep,
      E.BeginStep, E.LeaveStep, E.UnlinkStep;
    var th, h := s.threads[t], s.heap;
    Unfold(s, t);
    var s' := Next(s, t, op, e);
    if th.pc.Idle? {
      assert E.Enabled(s.rec, t, E.Begin) by { CallTies(s, s', t); }
      assert ReclaimerMoves(s, t, E.Begin, s'.rec);
    } else if th.pc.InReclaimer? {
      assert ReclaimerMoves(s, t, E.Internal, s'.rec);
    } else if th.pc.Leaving? {
      assert ReclaimerMoves(s, t, E.Leave, s'.rec);
    } else if (th.pc.FindUnlink? || th.pc.RemoveUnlink?) && CanSwing(h, th.pred, th.curr) {
      UnlinkedIsLinked(h, th, t, s.maxCapacity);
      UnlinkEnabled(s, t, th.curr);
      assert ReclaimerMoves(s, t, E.Unlinked(th.curr), s'.rec);
    }
  }

  lemma UnlinkedIsLinked(h: Heap, th: Thread, t: Tid, max: nat)
    requires HeapInv(h) && ThreadOk(h, th, t, max) && CanSwing(h, th.pred, th.curr)
    requires th.pc.FindUnlink? || th.pc.RemoveUnlink?
    ensures Lk(h, th.curr)
  {
    hide HeapInv;
    HeapHas(h);
    if th.pc.FindUnlink? {
      UnlinkThread(h, th, t, max);
    } else {
      RemoveMayUnlink(h, th, t);
    }
    UnlinkEnds(h, th.pred, th.curr, th.succ);
  }

  lemma {:induction false} TimelyAlways(r: Run, i: nat)
    requires IsRun(r) && TagsWithin(r, 0) && i < |r.states|
    ensures E.GraceInv(r.states[i].rec)
  {
    hide Inv, Next, Ready, E.GraceInv, E.Enabled, E.Lag, E.TagLag, E.Apply, TagWithin, FreshStep;
    if i == 0 {
      E.InitGrace(r.states[0].rec);
    } else {
      TimelyAlways(r, i - 1);
      Always(r, i - 1);
      var s, e := r.states[i - 1], r.events[i - 1];
      StepOfReclaimer(s, e.t, e.op, e.elem);
      if r.states[i].rec != s.rec {
        var a :| ReclaimerMoves(s, e.t, a, r.states[i].rec);
        E.StepGrace(s.rec, e.t, a);
      }
    }
  }

  /** The reclaimer's own invariant, in every run. */
  lemma {:induction false} LagAlways(r: Run, i: nat)
    requires IsRun(r) && i < |r.states|
    ensures E.LagInv(r.states[i].rec)
  {
    hide Inv, Next, Ready, E.LagInv, E.Enabled, E.Lag, E.TagLag, E.Apply, TagWithin, FreshStep;
    if i == 0 {
      E.InitLag(r.states[0].rec);
    } else {
      LagAlways(r, i - 1);
      Always(r, i - 1);
      var s, e := r.states[i - 1], r.events[i - 1];
      StepOfReclaimer(s, e.t, e.op, e.elem);
      if r.states[i].rec != s.rec {
        var a :| ReclaimerMoves(s, e.t, a, r.states[i].rec);
        E.StepLag(s.rec, e.t, a);
      }
    }
  }

  lemma {:induction false} PromptAlways(r: Run, i: nat)
    requires IsRun(r) && FreshRun(r) && i < |r.states|
    ensures E.Prompt(r.states[i].rec)
  {
    hide Inv, Next, Ready, E.Prompt, E.Enabled, E.Lag, E.TagLag, E.Apply, TagWithin, FreshStep;
    if i == 0 {
      PromptAtFirst(r.states[0]);
    } else {
      PromptAlways(r, i - 1);
      Always(r, i - 1);
      var s, e := r.states[i - 1], r.events[i - 1];
      StepOfReclaimer(s, e.t, e.op, e.elem);
      if r.states[i].rec != s.rec {
        var a :| ReclaimerMoves(s, e.t, a, r.states[i].rec);
        E.StepPrompt(s.rec, e.t, a);
      }
    }
  }

  lemma PromptAtFirst(s: State)
    requires Init(s)
    ensures E.Prompt(s.rec)
  {
    hide PowerOfTwo;
  }

  /** Where every announcement is still current when it is stored, every tag is in time. */
  lemma FreshRunsTagInTime(r: Run)
    requires IsRun(r) && FreshRun(r)
    ensures TagsWithin(r, 0)
  {
    hide Inv, Next, Ready, E.Prompt, E.LagInv;
    forall i | 0 <= i < |r.events|
      ensures TagWithin(r.states[i], r.events[i].t, 0)
    {
      PromptAlways(r, i);
      LagAlways(r, i);
      Always(r, i);
      PromptTag(r.states[i], r.events[i].t);
    }
  }

  lemma PromptTag(s: State, t: Tid)
    requires Inv(s) && E.LagInv(s.rec) && E.Prompt(s.rec)
    ensures TagWithin(s, t, 0)
  {
    hide HeapInv, DeletedOk, ThreadsOk, BucketsOk, CapacityOk, HolderTie, FatesTie, E.OwnInv, CanSwing;
    if Unlinks(s, t) && t in s.rec.parts {
      assert CtlTie(s.threads[t].pc, s.rec.ctl[t]);
      E.LagHas(s.rec, t);
    }
  }

  // ----- memory safety -----

  /** The node made for an earlier attempt. */
  ghost function Spare(th: Thread): set<NodeId> { if th.node == NULL then {} else {th.node} }

  /**
    The nodes whose memory the next step of a thread touches, and the pointers it holds on to, or compares a
    word with.
  */
  ghost function Touched(s: State, t: Tid): set<NodeId>
    requires t in s.threads
  {
    var th := s.threads[t];
    match th.pc
    case InReclaimer(KFind) => {th.head, th.pred, th.curr} + Spare(th)
    case LoadBucket(i) => if i in s.buckets then {s.buckets[i]} else {}
    case FindStart => {th.head} + Spare(th)
    case FindLoad => {th.head, th.pred, th.curr} + Spare(th)
    case FindUnlink => {th.head, th.pred, th.curr, th.succ} + Spare(th)
    case LinkCas => {th.head, th.pred, th.curr, th.node}
    case RemoveLoad => {th.head, th.pred, th.curr}
    case RemoveMark => {th.head, th.pred, th.curr, th.succ}
    case RemoveUnlink => {th.head, th.pred, th.curr, th.succ}
    case ContainsLoad => {th.curr, Nx(s.heap, th.curr)}
    case ContainsMark => {th.curr}
    case BucketCas(n) => {n}
    case _ => {}
  }

  ghost predicate Gone(s: State, n: NodeId) { n in s.rec.freed || n in s.deleted }

  ghost predicate MemorySafe(s: State) {
    forall t, n :: t in s.threads && n in Touched(s, t) ==> n in s.heap.nodes && !Gone(s, n)
  }

  /** Everything a thread touches it holds, or is its own private node. */
  lemma TouchedIsHeld(s: State, t: Tid, n: NodeId)
    requires Inv(s) && t in s.threads && n in Touched(s, t)
    ensures Guarded(s.threads[t].pc)
    ensures Held(s.heap, n, s.threads[t].since) || (Mine(s.heap, n, t) && s.threads[t].node == n)
  {
    hide Inv, HeapInv, RecTie, DeletedOk, ThreadsOk, CapacityOk, StackOk, E.OwnInv, SentinelKey, OrdinaryKey,
      SentinelKeyForm;
    var th, h := s.threads[t], s.heap;
    Unfold(s, t);
    if th.pc.FindUnlink? || th.pc.RemoveUnlink? || th.pc.ContainsLoad? {
      HeapHas(h);
      BelowTailAt(h, th, t, s.maxCapacity);
      HeldNext(h, th.curr, th.since);
    } else if th.pc.LoadBucket? {
      assert th.pc.i in s.buckets ==> SentinelAt(h, s.buckets[th.pc.i], SentinelKey(th.pc.i));
    }
  }

  lemma BelowTailAt(h: Heap, th: Thread, t: Tid, max: nat)
    requires HeapInv(h) && ThreadOk(h, th, t, max) && (th.pc.FindUnlink? || th.pc.RemoveUnlink? || th.pc.ContainsLoad?)
    ensures th.curr != TAIL
  {
    hide HeapInv, OrdinaryKey, SentinelKey;
    HeapHas(h);
    if th.pc.ContainsLoad? || th.pc.RemoveUnlink? {
      BelowTail(h, th.curr, th);
    }
  }

  lemma NotGone(s: State, t: Tid, n: NodeId)
    requires Inv(s) && E.GraceInv(s.rec) && t in s.threads && Guarded(s.threads[t].pc)
    requires Held(s.heap, n, s.threads[t].since) || (Mine(s.heap, n, t) && s.threads[t].node == n)
    ensures !Gone(s, n)
  {
    hide HeapInv, ThreadsOk, BucketsOk, CapacityOk;
    assert s.deleted[n] == One(Discarded(s, n)) && s.rec.freed[n] == One(E.IsFreed(s.rec, n));
    assert HolderTie(s, t);
    assert n in s.rec.fates ==> Un(s.heap, n) && E.FateOk(s.rec, n);
  }

  /**
    Memory safety: in every run in which no node is unlinked past the epoch of its tag, no thread ever
    touches, or holds on to, a node that has been deleted.
  */
  lemma MemorySafety(r: Run, i: nat)
    requires IsRun(r) && TagsWithin(r, 0) && i < |r.states|
    ensures MemorySafe(r.states[i])
  {
    hide Inv, Touched, Gone, E.GraceInv;
    var s := r.states[i];
    Always(r, i);
    TimelyAlways(r, i);
    forall t, n | t in s.threads && n in Touched(s, t)
      ensures n in s.heap.nodes && !Gone(s, n)
    {
      TouchedIsHeld(s, t, n);
      NotGone(s, t, n);
    }
  }

  // ----- ownership -----

  /** Node `n` is private to a thread that is still working on it. */
  ghost predicate Current(s: State, n: NodeId) {
    n in s.heap.nodes && s.heap.nodes[n].status.Private? && !Discarded(s, n)
  }

  ghost predicate Pending(s: State, n: NodeId) { n in s.rec.fates && s.rec.fates[n].place.Pending? }

  ghost predicate Bagged(s: State, n: NodeId) { n in s.rec.fates && s.rec.fates[n].place.Bagged? }

  ghost predicate BeingRetired(s: State, n: NodeId, t: Tid) {
    t in s.threads && t in s.rec.ctl && s.rec.ctl[t] == E.Pushing(n)
  }

  ghost predicate OnceInBag(s: State, n: NodeId, t: Tid, j: nat) {
    t in s.threads && E.Typed(s.rec, t) && j < E.BAGS && s.rec.parts[t].bags[j][n] == 1
  }

  /** In how many places node `n` is, deletions counted as often as they happened. */
  ghost function Places(s: State, n: NodeId): nat {
    One(Current(s, n)) + One(Lk(s.heap, n)) + One(Pending(s, n)) + One(Bagged(s, n)) +
    s.rec.freed[n] + s.deleted[n]
  }

  /**
    Conservation: in every run, whatever is announced late, every node that was ever allocated is in exactly one place
    -- with the thread that made it, linked, about to be retired, in a bag, or deleted, once.
  */
  lemma NodesConserved(r: Run, i: nat, n: NodeId)
    requires IsRun(r) && i < |r.states|
    ensures var s := r.states[i]; Places(s, n) == One(n in s.heap.nodes)
    ensures Pending(r.states[i], n) ==> exists t :: BeingRetired(r.states[i], n, t)
    ensures Bagged(r.states[i], n) ==> exists t, j: nat :: OnceInBag(r.states[i], n, t, j)
  {
    Always(r, i);
    Conserved(r.states[i], n);
  }

  lemma Conserved(s: State, n: NodeId)
    requires Inv(s)
    ensures Places(s, n) == One(n in s.heap.nodes)
    ensures Pending(s, n) ==> exists t :: BeingRetired(s, n, t)
    ensures Bagged(s, n) ==> exists t, j: nat :: OnceInBag(s, n, t, j)
  {
    hide HeapInv, ThreadsOk, BucketsOk, CapacityOk;
    assert s.deleted[n] == One(Discarded(s, n)) && s.rec.freed[n] == One(E.IsFreed(s.rec, n));
    assert n in s.rec.fates <==> Un(s.heap, n);
    if n in s.rec.fates {
      assert E.PlaceOk(s.rec, n);
      if Bagged(s, n) {
        var t, j := s.rec.fates[n].place.of, s.rec.fates[n].place.index;
        assert E.BagOwns(s.rec, t, j);
        assert OnceInBag(s, n, t, j);
      } else if Pending(s, n) {
        assert BeingRetired(s, n, s.rec.fates[n].place.owner);
      }
    }
  }
}
