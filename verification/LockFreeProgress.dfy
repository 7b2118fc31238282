/**
  Who is to blame: a thread of the lock-free set never waits for another one. Its walks only ever move
  forward, and whenever one of its CASes fails -- the only way its work is thrown away -- another thread
  has completed a CAS on the same word since the thread read it.
*/
module LockFreeProgress {
  import opened Common
  import opened SplitOrder
  import opened ListHeap
  import opened Traversal
  import opened LockFreeSet
  import opened LockFreeInv
  import opened LockFreeSteps
  import opened LockFreeTheorems
  import opened LockFreeSafety
  import opened LockFreeLinear
  import LockFreeShape
  import E = Epochs

  // ----- reads, and CASes that succeed or fail -----

  /** The node whose word the thread is about to CAS. */
  function Aim(th: Thread): NodeId { if th.pc.RemoveMark? then th.curr else th.pred }

  /** When the thread read that word; for the mark of a Remove, Find's read if the second one found the mark already. */
  function AimedAt(th: Thread): nat {
    if th.pc.RemoveMark? then (if th.sawMark then th.currAt else th.againAt) else th.predAt
  }

  predicate AboutToCas(pc: PC) { pc.FindUnlink? || pc.LinkCas? || pc.RemoveMark? || pc.RemoveUnlink? }

  ghost predicate Succeeds(h: Heap, th: Thread) {
    CanSwing(h, Aim(th), if th.pc.RemoveMark? then th.succ else th.curr)
  }

  /** The next step of `u` is a CAS that succeeds on the word of `n`. */
  ghost predicate Swings(s: State, u: Tid, n: NodeId) {
    u in s.threads && AboutToCas(s.threads[u].pc) && Aim(s.threads[u]) == n && Succeeds(s.heap, s.threads[u])
  }

  /** The next step of `t` is a CAS that fails. */
  ghost predicate Fails(s: State, t: Tid) {
    t in s.threads && AboutToCas(s.threads[t].pc) && !Succeeds(s.heap, s.threads[t])
  }

  /** The next step of `t` learns what is in the word of `n`. */
  ghost predicate Reads(s: State, t: Tid, n: NodeId) {
    t in s.threads &&
    var th := s.threads[t];
    || (th.pc.FindStart? && th.head == n)
    || (th.pc.FindLoad? && th.curr == n)
    || (th.pc.FindUnlink? && Swings(s, t, n))
    || (th.pc.RemoveLoad? && th.curr == n)
  }

  // ----- only a CAS changes the word of a published node -----

  /** Only a CAS on the list and the making of a node touch the memory at all. */
  lemma HeapKept(s: State, u: Tid, op: Op, e: Elem)
    requires u in s.threads && Ready(s, u)
    requires !AboutToCas(s.threads[u].pc) && !s.threads[u].pc.FindLoad?
    ensures Next(s, u, op, e).heap == s.heap
  {
    hide E.InternalStep, E.BeginStep, E.LeaveStep, E.Enabled, NextBucket, ContainsAt;
  }

  /** A CAS that fails changes nothing in memory. */
  lemma FailureKept(s: State, u: Tid, op: Op, e: Elem)
    requires u in s.threads && Ready(s, u) && Fails(s, u)
    ensures Next(s, u, op, e).heap == s.heap
  {
    hide E.UnlinkStep, Publish, Unlink, MarkNode;
  }

  lemma FoundKept(s: State, u: Tid, op: Op, e: Elem, n: NodeId)
    requires HeapInv(s.heap) && u in s.threads && s.threads[u].pc.FindLoad? && Ready(s, u) && Pub(s.heap, n)
    requires s.threads[u].node == NULL || Mine(s.heap, s.threads[u].node, u)
    ensures SameWord(s.heap, Next(s, u, op, e).heap, n)
  {
    hide HeapInv, Matches, AtOrPast;
    assert n != s.heap.nextId by { HeapHas(s.heap); }
  }

  lemma SwingKept(s: State, u: Tid, op: Op, e: Elem, n: NodeId)
    requires u in s.threads && Ready(s, u) && Pub(s.heap, n) && AboutToCas(s.threads[u].pc)
    requires Succeeds(s.heap, s.threads[u])
    requires n != Aim(s.threads[u])
    ensures SameWord(s.heap, Next(s, u, op, e).heap, n)
  {
    hide E.UnlinkStep;
  }

  lemma WordKept(s: State, u: Tid, op: Op, e: Elem, n: NodeId)
    requires Inv(s) && u in s.threads && Ready(s, u) && Pub(s.heap, n) && !Swings(s, u, n)
    ensures SameWord(s.heap, Next(s, u, op, e).heap, n)
  {
    hide Inv, HeapInv, PcOk, StackOk, TargetOk, Next, Ready, Succeeds;
    Unfold(s, u);
    if s.threads[u].pc.FindLoad? {
      FoundKept(s, u, op, e, n);
    } else if !AboutToCas(s.threads[u].pc) {
      HeapKept(s, u, op, e);
    } else if Succeeds(s.heap, s.threads[u]) {
      SwingKept(s, u, op, e, n);
    } else {
      FailureKept(s, u, op, e);
    }
  }

  lemma WordWritten(s: State, u: Tid, op: Op, e: Elem, n: NodeId)
    requires Inv(s) && u in s.threads && Ready(s, u) && Swings(s, u, n)
    ensures n in Next(s, u, op, e).heap.nodes && Next(s, u, op, e).heap.nodes[n].writer == u
  {
    hide Inv, HeapInv, RecTie, DeletedOk, ThreadsOk, BucketsOk, CapacityOk, StackOk, TargetOk, E.InternalStep,
      E.UnlinkStep, E.OwnInv;
    hide Searching, Removing, Walking, HeadOk, OrdinaryKey, SentinelKey;
    Unfold(s, u);
  }

  /** Every word was written in the past. */
  ghost predicate WritesPast(h: Heap) { forall n :: n in h.nodes ==> h.nodes[n].wroteAt < h.clock }

  lemma WritesStayPast(s: State, u: Tid, op: Op, e: Elem)
    requires WritesPast(s.heap) && u in s.threads && Ready(s, u)
    ensures WritesPast(Next(s, u, op, e).heap)
  {
    hide Next, Ready;
    if AboutToCas(s.threads[u].pc) {
      SwingStaysPast(s, u, op, e);
    } else if s.threads[u].pc.FindLoad? {
      FoundStaysPast(s, u, op, e);
    } else {
      HeapKept(s, u, op, e);
    }
  }

  lemma FoundStaysPast(s: State, u: Tid, op: Op, e: Elem)
    requires WritesPast(s.heap) && u in s.threads && s.threads[u].pc.FindLoad? && Ready(s, u)
    ensures WritesPast(Next(s, u, op, e).heap)
  {
    hide Matches, AtOrPast;
  }

  lemma SwingStaysPast(s: State, u: Tid, op: Op, e: Elem)
    requires WritesPast(s.heap) && u in s.threads && AboutToCas(s.threads[u].pc) && Ready(s, u)
    ensures WritesPast(Next(s, u, op, e).heap)
  {
    hide E.UnlinkStep;
  }

  lemma {:induction false} AlwaysPast(r: Run, i: nat)
    requires IsRun(r) && i < |r.states|
    ensures WritesPast(r.states[i].heap)
  {
    hide WritesPast, Next, Ready, Init;
    if i == 0 {
      assert WritesPast(r.states[0].heap) by { PastAtFirst(r.states[0]); }
    } else {
      AlwaysPast(r, i - 1);
      var e := r.events[i - 1];
      assert IsStep(r.states[i - 1], e, r.states[i]);
      WritesStayPast(r.states[i - 1], e.t, e.op, e.elem);
    }
  }

  lemma PastAtFirst(s: State)
    requires Init(s)
    ensures WritesPast(s.heap)
  {
  }

  // ----- the read a CAS relies on -----

  predicate KnowsPred(pc: PC) {
    pc.FindLoad? || pc == InReclaimer(KFind) || pc.RemoveLoad? || AboutToCas(pc)
  }

  predicate KnowsCurr(pc: PC) { pc.RemoveLoad? || pc.RemoveMark? }

  /** Step `m` of the run is where `t` read the word of `n`, at time `at`. */
  ghost predicate ReadAt(r: Run, t: Tid, m: nat, n: NodeId, at: nat) {
    m < |r.events| && m + 1 < |r.states| && r.events[m].t == t && Reads(r.states[m], t, n) &&
      r.states[m + 1].heap.clock == at
  }

  /** What `t` knew of the words it has read it still knows, or it has just read them. */
  ghost predicate Remembers(s: State, s': State, t: Tid)
    requires t in s.threads && t in s'.threads
  {
    var th, th' := s.threads[t], s'.threads[t];
    && (KnowsPred(th'.pc) ==>
          || (KnowsPred(th.pc) && th'.pred == th.pred && th'.predAt == th.predAt)
          || (Reads(s, t, th'.pred) && th'.predAt == s'.heap.clock))
    && (KnowsCurr(th'.pc) ==>
          || (KnowsCurr(th.pc) && th'.curr == th.curr && th'.currAt == th.currAt)
          || (Reads(s, t, th'.curr) && th'.currAt == s'.heap.clock))
    && (th'.pc.RemoveMark? ==>
          && th.pc.RemoveLoad? && th'.curr == th.curr && th'.againAt == s'.heap.clock
          && th'.sawMark == (th.curr in s.heap.nodes && s.heap.nodes[th.curr].mark))
  }

  lemma StepKnowsNothing(s: State, t: Tid, op: Op, e: Elem)
    requires t in s.threads && Ready(s, t) && !KnowsPred(s.threads[t].pc) && !s.threads[t].pc.FindStart?
    ensures var s' := Next(s, t, op, e); t in s'.threads && !KnowsPred(s'.threads[t].pc) && !KnowsCurr(s'.threads[t].pc)
  {
    hide E.InternalStep, E.Enabled, NextBucket, ContainsAt;
    var th := s.threads[t];
    if th.pc.ContainsLoad? {
      ContainsKnowsNothing(s.heap, th, s.heap.nodes[th.curr].next);
    } else if th.pc.LoadBucket? {
      if th.pc.i in s.buckets {
        BucketKnowsNothing(s.heap, th.(head := s.buckets[th.pc.i]));
      }
    } else if th.pc.BucketCas? {
      BucketKnowsNothing(s.heap, th.(head := th.pc.sentinel, stack := th.stack[..|th.stack| - 1]));
    }
  }

  lemma StepReadsOn(s: State, t: Tid, op: Op, e: Elem)
    requires t in s.threads && Ready(s, t) && (KnowsPred(s.threads[t].pc) || s.threads[t].pc.FindStart?)
    ensures var s' := Next(s, t, op, e); t in s'.threads && Remembers(s, s', t)
  {
    hide E.InternalStep, E.UnlinkStep, E.Enabled, Matches, AtOrPast, Found, Publish, Unlink, MarkNode;
    var th := s.threads[t];
    if th.pc.FindLoad? {
      FoundReads(s, t, th.(currAt := s.heap.clock));
    } else if th.pc.FindUnlink? {
      UnlinkTicks(s.heap, th.pred, th.curr, th.succ, t);
    }
  }

  lemma StepReads(s: State, t: Tid, op: Op, e: Elem)
    requires t in s.threads && Ready(s, t)
    ensures var s' := Next(s, t, op, e); t in s'.threads && Remembers(s, s', t)
  {
    hide Next, Ready, Reads;
    if KnowsPred(s.threads[t].pc) || s.threads[t].pc.FindStart? {
      StepReadsOn(s, t, op, e);
    } else {
      StepKnowsNothing(s, t, op, e);
    }
  }

  lemma UnlinkTicks(h: Heap, p: NodeId, c: NodeId, succ: NodeId, t: Tid)
    requires c in h.nodes
    ensures p in h.nodes ==> Unlink(h, p, c, succ, t).clock == h.clock + 1
  {
  }

  lemma ContainsKnowsNothing(h: Heap, th: Thread, c: NodeId)
    requires c in h.nodes
    ensures !KnowsPred(ContainsAt(h, th, c).pc) && !KnowsCurr(ContainsAt(h, th, c).pc)
  {
  }

  lemma FoundReads(s: State, t: Tid, th: Thread)
    requires th.curr in s.heap.nodes && t in s.threads && th.pc == s.threads[t].pc && th.pc.FindLoad?
    requires th.pred == s.threads[t].pred && th.predAt == s.threads[t].predAt
    ensures var s' := Found(s, t, th);
            && t in s'.threads && s'.heap.clock == s.heap.clock
            && var th' := s'.threads[t];
               && (KnowsPred(th'.pc) ==> th'.pred == th.pred && th'.predAt == th.predAt)
               && (KnowsCurr(th'.pc) ==> th'.curr == th.curr && th'.currAt == th.currAt)
               && !th'.pc.RemoveMark?
  {
  }

  lemma BucketKnowsNothing(h: Heap, th: Thread)
    requires th.head in h.nodes
    ensures !KnowsPred(NextBucket(h, th).pc) && !KnowsCurr(NextBucket(h, th).pc)
  {
  }

  lemma {:induction false} PredWasRead(r: Run, t: Tid, j: nat) returns (m: nat)
    requires IsRun(r) && j < |r.states| && t in r.states[j].threads && KnowsPred(r.states[j].threads[t].pc)
    ensures m < j && ReadAt(r, t, m, r.states[j].threads[t].pred, r.states[j].threads[t].predAt)
    ensures forall k :: m < k <= j ==> t in r.states[k].threads && KnowsPred(r.states[k].threads[t].pc)
  {
    hide Next, Ready, Reads;
    if j > 0 {
      var s, e := r.states[j - 1], r.events[j - 1];
      assert IsStep(s, e, r.states[j]);
      if e.t != t {
        OthersKeepThread(s, e, r.states[j], t);
        m := PredWasRead(r, t, j - 1);
      } else {
        StepReads(s, t, e.op, e.elem);
        var th, th' := s.threads[t], r.states[j].threads[t];
        if KnowsPred(th.pc) && th'.pred == th.pred && th'.predAt == th.predAt {
          m := PredWasRead(r, t, j - 1);
        } else {
          m := j - 1;
        }
      }
    }
  }

  lemma {:induction false} CurrWasRead(r: Run, t: Tid, j: nat) returns (m: nat)
    requires IsRun(r) && j < |r.states| && t in r.states[j].threads && KnowsCurr(r.states[j].threads[t].pc)
    ensures m < j && ReadAt(r, t, m, r.states[j].threads[t].curr, r.states[j].threads[t].currAt)
  {
    hide Next, Ready, Reads;
    if j > 0 {
      var s, e := r.states[j - 1], r.events[j - 1];
      assert IsStep(s, e, r.states[j]);
      if e.t != t {
        OthersKeepThread(s, e, r.states[j], t);
        m := CurrWasRead(r, t, j - 1);
      } else {
        StepReads(s, t, e.op, e.elem);
        var th, th' := s.threads[t], r.states[j].threads[t];
        if KnowsCurr(th.pc) && th'.curr == th.curr && th'.currAt == th.currAt {
          m := CurrWasRead(r, t, j - 1);
        } else {
          m := j - 1;
        }
      }
    }
  }

  /** The second read of a Remove. */
  lemma {:induction false} CurrWasReread(r: Run, t: Tid, j: nat) returns (m: nat)
    requires IsRun(r) && j < |r.states| && t in r.states[j].threads && r.states[j].threads[t].pc.RemoveMark?
    ensures m < j && ReadAt(r, t, m, r.states[j].threads[t].curr, r.states[j].threads[t].againAt)
    ensures var s, th := r.states[m], r.states[m].threads[t];
            && th.pc.RemoveLoad? && th.curr == r.states[j].threads[t].curr
            && r.states[j].threads[t].sawMark == (th.curr in s.heap.nodes && s.heap.nodes[th.curr].mark)
    ensures forall k :: m < k < j ==> r.events[k].t != t
  {
    hide Next, Ready, Reads;
    if j > 0 {
      var s, e := r.states[j - 1], r.events[j - 1];
      assert IsStep(s, e, r.states[j]);
      if e.t != t {
        OthersKeepThread(s, e, r.states[j], t);
        m := CurrWasReread(r, t, j - 1);
      } else {
        StepReads(s, t, e.op, e.elem);
        RereadReads(s, t);
        m := j - 1;
      }
    }
  }

  lemma RereadReads(s: State, t: Tid)
    ensures t in s.threads && s.threads[t].pc.RemoveLoad? ==> Reads(s, t, s.threads[t].curr)
  {
  }

  // ----- who is to blame for a failure -----

  lemma FailureCharged(h: Heap, th: Thread, t: Tid, max: nat)
    requires ThreadOk(h, th, t, max) && AboutToCas(th.pc) && !Succeeds(h, th)
    ensures Charged(h, Aim(th), AimedAt(th), t) && Pub(h, Aim(th))
  {
    hide OrdinaryKey, SentinelKey, HeadOk, Passed, Clear, Gap, Ahead, StackOk, TargetOk, Mine;
  }

  /** Whoever wrote the word last wrote it with a CAS, after time `at`. */
  lemma {:induction false} WriterFound(r: Run, t: Tid, n: NodeId, m: nat, j: nat) returns (k: nat)
    requires IsRun(r) && m < j < |r.states| && Pub(r.states[m + 1].heap, n)
    requires Charged(r.states[j].heap, n, r.states[m + 1].heap.clock, t)
    ensures m < k < j && r.events[k].t != t && Swings(r.states[k], r.events[k].t, n)
    decreases j
  {
    hide Next, Ready, Inv, Swings;
    if j == m + 1 {
      AlwaysPast(r, j);
      assert false;
    } else {
      var s, e := r.states[j - 1], r.events[j - 1];
      assert IsStep(s, e, r.states[j]);
      Always(r, j - 1);
      PubStays(r, m + 1, j - 1, n);
      if Swings(s, e.t, n) {
        WordWritten(s, e.t, e.op, e.elem, n);
        k := j - 1;
      } else {
        WordKept(s, e.t, e.op, e.elem, n);
        k := WriterFound(r, t, n, m, j - 1);
      }
    }
  }

  lemma {:induction false} PubStays(r: Run, i: nat, j: nat, n: NodeId)
    requires IsRun(r) && i <= j < |r.states| && Pub(r.states[i].heap, n)
    ensures Pub(r.states[j].heap, n)
  {
    hide Next, Ready, Inv;
    if i < j {
      PubStays(r, i, j - 1, n);
      Always(r, j - 1);
      var e := r.events[j - 1];
      assert IsStep(r.states[j - 1], e, r.states[j]);
      StepEvolves(r.states[j - 1], e.t, e.op, e.elem);
    }
  }

  /** What is read during a search has been published. */
  lemma ReadIsPublished(r: Run, t: Tid, m: nat, n: NodeId, at: nat)
    requires IsRun(r) && ReadAt(r, t, m, n, at)
    ensures Pub(r.states[m + 1].heap, n)
  {
    hide Next, Ready, Inv, ThreadOk;
    Always(r, m);
    var s := r.states[m];
    Unfold(s, t);
    ReadIsHeld(s.heap, s.threads[t], t, s.maxCapacity, n);
    PubStays(r, m, m + 1, n);
  }

  lemma ReadIsHeld(h: Heap, th: Thread, t: Tid, max: nat, n: NodeId)
    requires ThreadOk(h, th, t, max)
    requires || (th.pc.FindStart? && th.head == n) || (th.pc.FindLoad? && th.curr == n)
             || (th.pc.FindUnlink? && th.pred == n) || (th.pc.RemoveLoad? && th.curr == n)
    ensures Pub(h, n)
  {
    hide OrdinaryKey, SentinelKey, Passed, Clear, Gap, StackOk, TargetOk;
  }

  lemma ReadThen(r: Run, t: Tid, m: nat, n: NodeId, at: nat)
    requires ReadAt(r, t, m, n, at)
    ensures m < |r.events| && m + 1 < |r.states| && r.events[m].t == t && Reads(r.states[m], t, n)
    ensures r.states[m + 1].heap.clock == at
  {
  }

  /**
    If a CAS of thread `t` fails, then between the step at which `t` read the word and now
    another thread has taken a step that was a successful CAS on that same word. For the mark of a Remove
    that read is its own re-read of the word, unless that re-read had already found the mark.
  */
  lemma FailureMeansProgress(r: Run, t: Tid, j: nat) returns (m: nat, k: nat)
    requires IsRun(r) && j < |r.states| && Fails(r.states[j], t)
    ensures m < k < j && r.events[m].t == t && Reads(r.states[m], t, Aim(r.states[j].threads[t]))
    ensures r.events[k].t != t && Swings(r.states[k], r.events[k].t, Aim(r.states[j].threads[t]))
    ensures r.states[j].threads[t].pc.RemoveMark? && !r.states[j].threads[t].sawMark ==>
            r.states[m].threads[t].pc.RemoveLoad?
  {
    hide Inv, ThreadOk, IsRun, Reads, Swings, HeapInv, E.OwnInv, BucketsOk, CapacityOk, RecTie, DeletedOk, ThreadsOk,
      Charged, ReadAt;
    var s, th := r.states[j], r.states[j].threads[t];
    Always(r, j);
    Unfold(s, t);
    FailureCharged(s.heap, th, t, s.maxCapacity);
    if !th.pc.RemoveMark? {
      m := PredWasRead(r, t, j);
    } else if th.sawMark {
      m := CurrWasRead(r, t, j);
    } else {
      m := CurrWasReread(r, t, j);
    }
    ReadIsPublished(r, t, m, Aim(th), AimedAt(th));
    ReadThen(r, t, m, Aim(th), AimedAt(th));
    k := WriterFound(r, t, Aim(th), m, j);
  }

  /**
    If the re-read of a Remove finds the mark, the CAS that follows is bound to fail; and another thread
    has written the word between Find's read of it and that re-read.
  */
  lemma MarkFoundMeansProgress(r: Run, t: Tid, j: nat) returns (m: nat, k: nat, b: nat)
    requires IsRun(r) && j < |r.states| && t in r.states[j].threads
    requires r.states[j].threads[t].pc.RemoveMark? && r.states[j].threads[t].sawMark
    ensures Fails(r.states[j], t) && m < k < b < j && r.events[m].t == t == r.events[b].t
    ensures Reads(r.states[m], t, Aim(r.states[j].threads[t]))
    ensures r.events[k].t != t && Swings(r.states[k], r.events[k].t, Aim(r.states[j].threads[t]))
    ensures t in r.states[b].threads && r.states[b].threads[t].pc.RemoveLoad?
  {
    hide Inv, ThreadOk, IsRun, Reads, Swings, HeapInv, E.OwnInv, BucketsOk, CapacityOk, RecTie, DeletedOk, ThreadsOk,
      Charged, ReadAt;
    var s, th := r.states[j], r.states[j].threads[t];
    Always(r, j);
    Unfold(s, t);
    MarkFound(s.heap, th, t, s.maxCapacity);
    b := CurrWasReread(r, t, j);
    ReadThen(r, t, b, th.curr, th.againAt);
    InThreads(r, t, b);
    var s0, th0 := r.states[b], r.states[b].threads[t];
    Always(r, b);
    Unfold(s0, t);
    MarkCharged(s0.heap, th0, t, s0.maxCapacity);
    m := CurrWasRead(r, t, b);
    ReadIsPublished(r, t, m, th.curr, th0.currAt);
    ReadThen(r, t, m, th.curr, th0.currAt);
    k := WriterFound(r, t, th.curr, m, b);
  }

  /** Nobody's CAS succeeds on a word that is marked. */
  lemma MarkedNotSwung(s: State, u: Tid, n: NodeId)
    requires n in s.heap.nodes && s.heap.nodes[n].mark
    ensures !Swings(s, u, n)
  {
  }

  lemma RereadCharged(h: Heap, th: Thread, t: Tid, max: nat)
    requires ThreadOk(h, th, t, max) && th.pc.RemoveMark? && !th.sawMark && !Succeeds(h, th)
    ensures Charged(h, th.curr, th.againAt, t)
  {
    hide OrdinaryKey, SentinelKey, HeadOk, Passed, Clear, Gap, Ahead, StackOk, TargetOk, Mine;
  }

  /**
    When a mark fails, another thread's CAS has succeeded on the word since its re-read `b` if and only if
    that re-read did not find it marked already.
  */
  lemma MarkFailsExactly(r: Run, t: Tid, j: nat) returns (b: nat)
    requires IsRun(r) && j < |r.states| && Fails(r.states[j], t) && r.states[j].threads[t].pc.RemoveMark?
    ensures b < j && r.events[b].t == t && t in r.states[b].threads && r.states[b].threads[t].pc.RemoveLoad?
    ensures r.states[b].threads[t].curr == Aim(r.states[j].threads[t])
    ensures forall k :: b < k < j ==> r.events[k].t != t
    ensures (exists k :: b < k < j && r.events[k].t != t &&
                         Swings(r.states[k], r.events[k].t, Aim(r.states[j].threads[t]))) <==>
            !r.states[j].threads[t].sawMark
  {
    hide IsRun, Inv, ThreadOk, HeapInv, E.OwnInv, BucketsOk, CapacityOk, RecTie, DeletedOk, ThreadsOk, Charged, ReadAt,
      Reads, Swings, Succeeds;
    var s, th := r.states[j], r.states[j].threads[t];
    RunLength(r);
    b := CurrWasReread(r, t, j);
    ReadThen(r, t, b, th.curr, th.againAt);
    InThreads(r, t, b);
    if th.sawMark {
      forall k | b < k < j
        ensures !Swings(r.states[k], r.events[k].t, th.curr)
      {
        LockFreeShape.MarkedStays(r, b, k, th.curr);
        MarkedNotSwung(r.states[k], r.events[k].t, th.curr);
      }
    } else {
      Always(r, j);
      Unfold(s, t);
      RereadCharged(s.heap, th, t, s.maxCapacity);
      ReadIsPublished(r, t, b, th.curr, th.againAt);
      var k := WriterFound(r, t, th.curr, b, j);
    }
  }

  lemma RunLength(r: Run)
    requires IsRun(r)
    ensures |r.states| == |r.events| + 1
  {
    hide Init, Next, Ready;
  }

  lemma InThreads(r: Run, t: Tid, b: nat)
    requires IsRun(r) && b < |r.events| && r.events[b].t == t
    ensures t in r.states[b].threads
  {
    hide Next, Ready, Init;
    assert IsStep(r.states[b], r.events[b], r.states[b + 1]);
  }

  lemma MarkFound(h: Heap, th: Thread, t: Tid, max: nat)
    requires ThreadOk(h, th, t, max) && th.pc.RemoveMark? && th.sawMark
    ensures !Succeeds(h, th)
  {
    hide OrdinaryKey, SentinelKey, HeadOk, Passed, Clear, Gap, Ahead, StackOk, TargetOk, Mine;
  }

  lemma MarkCharged(h: Heap, th: Thread, t: Tid, max: nat)
    requires ThreadOk(h, th, t, max) && th.pc.RemoveLoad? && th.curr in h.nodes && h.nodes[th.curr].mark
    ensures Charged(h, th.curr, th.currAt, t)
  {
    hide OrdinaryKey, SentinelKey, HeadOk, Passed, Clear, Gap, Ahead, StackOk, TargetOk, Mine;
  }

  // ----- walks move forward -----

  /** The thread is walking, and its next step goes on to another node. */
  ghost predicate Hops(s: State, t: Tid, s': State) {
    && t in s.threads && t in s'.threads && s'.threads[t].curr != s.threads[t].curr
    && (s.threads[t].pc.FindLoad? || s.threads[t].pc.FindUnlink? || s.threads[t].pc.ContainsLoad?)
  }

  /** Every hop of every walk leads strictly forward in the order of keys and insertions. */
  lemma HopsForward(r: Run, j: nat, t: Tid)
    requires IsRun(r) && j < |r.events| && r.events[j].t == t && Hops(r.states[j], t, r.states[j + 1])
    ensures Lt(r.states[j + 1].heap, r.states[j].threads[t].curr, r.states[j + 1].threads[t].curr)
  {
    hide Inv;
    Always(r, j);
    Always(r, j + 1);
    var s, e := r.states[j], r.events[j];
    assert IsStep(s, e, r.states[j + 1]);
    StepEvolves(s, t, e.op, e.elem);
    HopForward(s, t, e.op, e.elem);
    LtStays(s.heap, r.states[j + 1].heap, t, s.threads[t].curr, r.states[j + 1].threads[t].curr);
  }

  lemma LtStays(h: Heap, k: Heap, t: Tid, x: NodeId, y: NodeId)
    requires Evolves(h, k, t) && Lt(h, x, y) && Pub(h, x) && Pub(h, y)
    ensures Lt(k, x, y)
  {
  }

  lemma HopForward(s: State, t: Tid, op: Op, e: Elem)
    requires Inv(s) && t in s.threads && Ready(s, t) && Hops(s, t, Next(s, t, op, e))
    ensures var c, d := s.threads[t].curr, Next(s, t, op, e).threads[t].curr;
            Pub(s.heap, c) && Pub(s.heap, d) && Lt(s.heap, c, d)
  {
    hide Inv, HeapInv, RecTie, DeletedOk, ThreadsOk, BucketsOk, CapacityOk, StackOk, TargetOk, E.InternalStep,
      E.UnlinkStep, E.OwnInv;
    hide OrdinaryKey, SentinelKey;
    var th, h := s.threads[t], s.heap;
    Unfold(s, t);
    HeapHas(h);
    assert Held(h, th.curr, th.since);
    if th.pc.FindLoad? && h.nodes[th.curr].mark {
      assert false;
    } else {
      if !th.pc.FindUnlink? {
        BelowTail(h, th.curr, th);
      }
      HeldNext(h, th.curr, th.since);
    }
  }
}
