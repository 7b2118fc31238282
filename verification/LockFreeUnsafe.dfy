/**
  Exactly when the lock-free set is safe. A Guard that announces an epoch it loaded long ago tags what it
  unlinks too early (src/EpochReclaimer.h:57-61, 106). If the epoch is at most one past the tag, a run is
  put together in which a thread is left standing on a node that has been deleted.
*/
module LockFreeUnsafe {
  import opened Common
  import opened SplitOrder
  import opened ListHeap
  import opened LockFreeSet
  import opened LockFreeSteps
  import opened LockFreeSafety
  import opened LockFreeBuild
  import Bits
  import E = Epochs

  const A: Tid := 0   // announces late, and deletes
  const B: Tid := 1   // keeps retiring, and advances the epoch
  const C: Tid := 2   // is looking at the node
  const ELEM: Elem := Elem(1, 0)

  // ----- one Add and one Remove at a time -----

  /** A Remove of the only element, as far as Retire. */
  lemma UnlinkIt(r: Run, t: Tid, n: NodeId) returns (q: Run)
    requires Good(r) && t in Last(r).threads && Last(r).threads[t].pc.FindStart? && Small(Last(r))
    requires Last(r).threads[t].op.OpRemove? && Last(r).threads[t].head == ROOT
    requires Last(r).threads[t].key == OrdinaryKey(0) && Last(r).threads[t].want == Some(Last(r).threads[t].elem)
    requires Single(Last(r).heap, n, Last(r).threads[t].elem) && Last(r).rec.epoch <= Last(r).rec.parts[t].announced + 2
    ensures Good(q) && Extends(r, q, t) && Small(Last(q)) && Own(Last(r), Last(q), t)
    ensures var s, s' := Last(r), Last(q);
            && s'.threads[t].pc == InReclaimer(KRemove) && ListIs(s'.heap, [ROOT, TAIL], [])
            && s'.rec.parts == s.rec.parts && s'.rec.epoch == s.rec.epoch && s'.rec.ctl[t] == E.Pushing(n)
  {
    hide IsRun, TagsWithin, Inv, Last, OrdinaryKey;
    var q1 := MarkOnly(r, t, n);
    q := UnlinkOnly(q1, t, n);
  }

  /** Everybody in the list but `t` is outside its Guard, or has announced `at`. */
  ghost predicate OthersAt(r: E.State, t: Tid, at: nat) {
    forall j {:trigger r.joined[j]} :: 0 <= j < |r.joined| ==>
      r.joined[j] in r.parts &&
      (r.joined[j] == t || r.parts[r.joined[j]].epoch == None || r.parts[r.joined[j]].epoch == Some(at))
  }

  /** What is the same again after an Add and a Remove of one thread, but for its own participant. */
  ghost predicate Around(s: State, s': State, t: Tid) {
    Small(s') && Own(s, s', t) && ListIs(s'.heap, [ROOT, TAIL], []) && s'.threads[t].pc.Idle?
  }

  /** A Remove of the only element. The 1024th in a row advances the epoch. */
  lemma RemoveIt(r: Run, t: Tid, e: Elem, n: NodeId) returns (q: Run)
    requires Good(r) && t in Last(r).threads && Last(r).threads[t].pc.Idle? && t in Last(r).rec.joined && Small(Last(r))
    requires e.code == 0 && Single(Last(r).heap, n, e)
    requires !Last(r).rec.advancing && OthersAt(Last(r).rec, t, Last(r).rec.epoch)
    ensures Good(q) && Extends(r, q, t) && Around(Last(r), Last(q), t)
    ensures var s, s' := Last(r), Last(q);
            var k := s.rec.parts[t].retires + 1;
            if k == E.RETIRES_PER_ADVANCE then s'.rec.epoch == s.rec.epoch + 1 && s'.rec.parts[t].retires == 0
            else s'.rec.epoch == s.rec.epoch && s'.rec.parts[t].retires == k
  {
    hide IsRun, TagsWithin, Inv, Last, OrdinaryKey, ListIs, E.Collect, E.EnterFrees, OthersAt, Own, Extends, Small;
    var s := Last(r);
    var q1 := CallAndLoad(r, t, OpRemove, e);
    OwnHas(s, Last(q1), t);
    LoadedKeepsCount(s.rec.parts[t], s.rec.epoch);
    var q2 := AnnounceAndFind(q1, t);
    OwnHas(Last(q1), Last(q2), t);
    OneAfterOther(r, q1, q2, t);
    var q3 := UnlinkIt(q2, t, n);
    OwnHas(Last(q2), Last(q3), t);
    OneAfterOther(r, q2, q3, t);
    OthersStay(s, Last(q3), t, s.rec.epoch);
    q := RetireIt(q3, t, n);
    OneAfterOther(r, q3, q, t);
  }

  lemma OthersStay(a: State, b: State, t: Tid, at: nat)
    requires OthersAt(a.rec, t, at) && Own(a, b, t)
    ensures OthersAt(b.rec, t, at)
  {
  }

  /** Retire, with the advance of the epoch if it is due, and the rest of the Remove. */
  lemma RetireIt(r: Run, t: Tid, n: NodeId) returns (q: Run)
    requires Good(r) && t in Last(r).threads && Last(r).threads[t].pc == InReclaimer(KRemove) && Small(Last(r))
    requires Last(r).rec.ctl[t] == E.Pushing(n) && ListIs(Last(r).heap, [ROOT, TAIL], [])
    requires Last(r).rec.parts[t].epoch == Some(Last(r).rec.epoch)
    requires !Last(r).rec.advancing && OthersAt(Last(r).rec, t, Last(r).rec.epoch)
    ensures Good(q) && Extends(r, q, t) && Around(Last(r), Last(q), t)
    ensures var s, s' := Last(r), Last(q);
            var k := s.rec.parts[t].retires + 1;
            if k == E.RETIRES_PER_ADVANCE then s'.rec.epoch == s.rec.epoch + 1 && s'.rec.parts[t].retires == 0
            else s'.rec.epoch == s.rec.epoch && s'.rec.parts[t].retires == k
  {
    hide IsRun, TagsWithin, Inv, Last, ListIs, E.Retired, OthersAt;
    var s := Last(r);
    var q1 := Push(r, t, n);
    RetiredCounts(s.rec.parts[t], n);
    var q2 := q1;
    if Last(q1).rec.parts[t].retires == 0 {
      OthersStay(s, Last(q1), t, s.rec.epoch);
      EverybodyAt(Last(q1).rec, t, s.rec.epoch);
      q2 := Advance(q1, t);
    }
    q := CountDown(q2, t);
  }

  lemma RetiredCounts(p: E.Participant, n: NodeId)
    requires |p.tags| == |p.bags| == E.BAGS
    ensures E.Retired(p, n).retires == if p.retires + 1 == E.RETIRES_PER_ADVANCE then 0 else p.retires + 1
    ensures E.Retired(p, n).epoch == p.epoch && E.Retired(p, n).announced == p.announced
  {
  }

  lemma EverybodyAt(r: E.State, t: Tid, at: nat)
    requires OthersAt(r, t, at) && t in r.parts && r.parts[t].epoch == Some(at)
    ensures AllAt(r, at)
  {
  }

  /** An Add and a Remove of the same element leave the list as it was. */
  lemma Cycle(r: Run, t: Tid) returns (q: Run)
    requires Good(r) && t in Last(r).threads && Last(r).threads[t].pc.Idle? && t in Last(r).rec.joined && Small(Last(r))
    requires ListIs(Last(r).heap, [ROOT, TAIL], [])
    requires !Last(r).rec.advancing && OthersAt(Last(r).rec, t, Last(r).rec.epoch)
    ensures Good(q) && Extends(r, q, t) && Around(Last(r), Last(q), t)
    ensures var s, s' := Last(r), Last(q);
            var k := s.rec.parts[t].retires + 1;
            if k == E.RETIRES_PER_ADVANCE then s'.rec.epoch == s.rec.epoch + 1 && s'.rec.parts[t].retires == 0
            else s'.rec.epoch == s.rec.epoch && s'.rec.parts[t].retires == k
  {
    hide IsRun, TagsWithin, Inv, Last, ListIs, OthersAt;
    var s := Last(r);
    var q1 := AddOne(r, t, ELEM);
    OthersStay(s, Last(q1), t, s.rec.epoch);
    q := RemoveIt(q1, t, ELEM, s.heap.nextId);
    OwnTwice(s, Last(q1), Last(q), t);
  }

  lemma AddOne(r: Run, t: Tid, e: Elem) returns (q: Run)
    requires Good(r) && t in Last(r).threads && Last(r).threads[t].pc.Idle? && t in Last(r).rec.joined && Small(Last(r))
    requires ListIs(Last(r).heap, [ROOT, TAIL], []) && e.code == 0
    ensures Good(q) && Extends(r, q, t) && Small(Last(q)) && Own(Last(r), Last(q), t)
    ensures var s, s' := Last(r), Last(q);
            && s'.threads[t].pc.Idle? && Single(s'.heap, s.heap.nextId, e) && s'.rec.epoch == s.rec.epoch
            && s'.rec.ctl[t].Out? && s'.rec.parts[t].retires == s.rec.parts[t].retires
  {
    hide IsRun, TagsWithin, Inv, Last, ListIs, Single;
    var n := Last(r).heap.nextId;
    q := Add(r, t, e, [ROOT, TAIL], []);
    assert [ROOT, TAIL][..1] + [n, TAIL] == [ROOT, n, TAIL] && [] + [e] == [e];
    OneNode(Last(q).heap, n, e);
  }

  /** As many cycles as it takes to advance the epoch. */
  lemma {:induction false} Batch(r: Run, t: Tid) returns (q: Run)
    requires Good(r) && t in Last(r).threads && Last(r).threads[t].pc.Idle? && t in Last(r).rec.joined && Small(Last(r))
    requires ListIs(Last(r).heap, [ROOT, TAIL], []) && Last(r).rec.parts[t].retires < E.RETIRES_PER_ADVANCE
    requires !Last(r).rec.advancing && OthersAt(Last(r).rec, t, Last(r).rec.epoch)
    ensures Good(q) && Extends(r, q, t) && Around(Last(r), Last(q), t)
    ensures Last(q).rec.epoch == Last(r).rec.epoch + 1 && Last(q).rec.parts[t].retires == 0
    decreases E.RETIRES_PER_ADVANCE - Last(r).rec.parts[t].retires
  {
    hide IsRun, TagsWithin, Inv, Last, ListIs, OthersAt;
    var s := Last(r);
    var q1 := Cycle(r, t);
    if s.rec.parts[t].retires + 1 == E.RETIRES_PER_ADVANCE {
      q := q1;
    } else {
      OthersStay(s, Last(q1), t, s.rec.epoch);
      q := Batch(q1, t);
      OwnTwice(s, Last(q1), Last(q), t);
    }
  }

  // ----- the beginning -----

  /**
    Nobody is in a call, the list is empty, and nothing has happened to the reclaimer but that threads have
    joined it.
  */
  ghost predicate Fresh(s: State) {
    && Small(s) && ListIs(s.heap, [ROOT, TAIL], []) && s.threads.Keys == {A, B, C}
    && s.rec.epoch == 0 && !s.rec.advancing && s.rec.fates == map[]
    && forall t :: t in s.threads ==>
         s.threads[t].pc.Idle? && t in s.rec.parts && s.rec.parts[t] == E.NEW_PARTICIPANT && t in s.rec.ctl &&
           s.rec.ctl[t].Out?
  }

  ghost function FirstState(): State {
    var idle := Thread(Idle, OpAdd, NO_ELEM, 0, [], 0, None, NULL, NULL, NULL, NULL, NULL, 0, 0, 0, 0, false);
    var p := E.NEW_PARTICIPANT;
    var rec := E.State(0, false, [], map[A := p, B := p, C := p], map[A := E.Out, B := E.Out, C := E.Out],
                       multiset{}, map[], map[]);
    State(Heap(map[ROOT := ROOT_NODE, TAIL := TAIL_NODE], 2, 3), rec, map[A := idle, B := idle, C := idle],
          map[0 := ROOT], 2, 2, 0, multiset{})
  }

  lemma FirstIsInit()
    ensures Init(FirstState())
  {
    SmallCapacity();
    hide PowerOfTwo, OrdinaryKey;
  }

  lemma FirstIsFresh()
    ensures Fresh(FirstState())
  {
    hide OrdinaryKey;
    var c := [ROOT, TAIL];
    assert c[0] == ROOT && c[0 + 1] == TAIL;
    assert ListIs(FirstState().heap, c, []);
  }

  lemma Start() returns (r: Run)
    ensures Good(r) && Fresh(Last(r)) && Last(r).rec.joined == []
  {
    hide Init, Fresh;
    FirstIsInit();
    FirstIsFresh();
    r := Run([FirstState()], []);
  }

  lemma SmallCapacity()
    ensures PowerOfTwo(2) && 2 <= Bits.Pow2(CODE_BITS)
  {
    assert Bits.Pow2(1) == 2;
    Bits.Pow2Monotone(1, CODE_BITS);
  }

  lemma FreshThread(s: State, t: Tid)
    requires Fresh(s) && t in {A, B, C}
    ensures Small(s) && ListIs(s.heap, [ROOT, TAIL], []) && t in s.threads && s.threads[t].pc.Idle?
    ensures t in s.rec.parts && s.rec.parts[t] == E.NEW_PARTICIPANT && t in s.rec.ctl && s.rec.ctl[t].Out?
    ensures s.rec.epoch == 0 && !s.rec.advancing && s.rec.fates == map[] && s.threads.Keys == {A, B, C}
  {
    hide ListIs;
  }

  /** A thread joins with its first call, a Contains on the empty list. */
  lemma Join(r: Run, t: Tid) returns (q: Run)
    requires Good(r) && Fresh(Last(r)) && t in {A, B, C} && t !in Last(r).rec.joined
    ensures Good(q) && Fresh(Last(q)) && Last(q).rec.joined == Last(r).rec.joined + [t]
  {
    hide IsRun, TagsWithin, Inv, Last, OrdinaryKey, ListIs, Fresh;
    var s := Last(r);
    FreshThread(s, t);
    var q1 := CallAndJoin(r, t);
    q := LooksAround(q1, t);
    FreshAgain(s, Last(q), t);
  }

  lemma FreshAgain(s: State, s': State, t: Tid)
    requires Fresh(s) && t in {A, B, C} && Small(s') && s'.heap == s.heap && s'.rec.epoch == 0 && !s'.rec.advancing
    requires t in s'.threads && s'.threads == s.threads[t := s'.threads[t]] && s'.threads[t].pc.Idle?
    requires s'.rec.fates == map[]
    requires s'.rec.parts == s.rec.parts && s'.rec.ctl == s.rec.ctl
    ensures Fresh(s')
  {
    hide ListIs;
  }

  /** `t` calls Contains, joins, and loads epoch 0. */
  ghost predicate Joined(s: State, s': State, t: Tid) {
    && t in s'.threads && s'.threads == s.threads[t := s'.threads[t]]
    && s'.threads[t].pc == InReclaimer(KEnter) && s'.threads[t].op.OpContains? && s'.threads[t].elem == ELEM
    && s'.threads[t].stack == [] && s'.heap == s.heap
    && s'.rec == s.rec.(joined := s.rec.joined + [t], ctl := s.rec.ctl[t := E.Announcing(0)])
  }

  lemma CallAndJoin(r: Run, t: Tid) returns (q: Run)
    requires Good(r) && t in Last(r).threads && Last(r).threads[t].pc.Idle? && t !in Last(r).rec.joined
    requires Small(Last(r))
    requires Last(r).rec.epoch == 0 && Last(r).rec.parts[t] == E.NEW_PARTICIPANT
    ensures Good(q) && Small(Last(q)) && Joined(Last(r), Last(q), t)
  {
    hide IsRun, TagsWithin, Inv, Last, E.LoadStep;
    var s := Last(r);
    var q1 := Do(r, t, OpContains, ELEM);
    var q2 := Go(q1, t);
    q := Go(q2, t);
    E.LoadsNothing(Last(q2).rec, t);
    assert Last(q).rec.ctl == s.rec.ctl[t := E.Announcing(0)];
    assert Last(q).threads == s.threads[t := Last(q).threads[t]];
  }

  /** A first call on the empty list leaves everything as it was. */
  lemma LooksAround(r: Run, t: Tid) returns (q: Run)
    requires Good(r) && t in Last(r).threads && Last(r).threads[t].pc == InReclaimer(KEnter) && Small(Last(r))
    requires Last(r).threads[t].op.OpContains? && Last(r).threads[t].elem == ELEM && Last(r).threads[t].stack == []
    requires Last(r).rec.ctl[t] == E.Announcing(0) && Last(r).rec.parts[t] == E.NEW_PARTICIPANT
    requires ListIs(Last(r).heap, [ROOT, TAIL], [])
    ensures Good(q) && Small(Last(q)) && Own(Last(r), Last(q), t)
    ensures var s, s' := Last(r), Last(q);
            && s'.threads[t].pc.Idle? && s'.heap == s.heap && s'.rec.epoch == s.rec.epoch
            && s'.rec.parts[t] == s.rec.parts[t] && s'.rec.ctl[t] == E.Out
            && (s.rec.fates == map[] ==> s'.rec.fates == map[])
  {
    hide IsRun, TagsWithin, Inv, Last, OrdinaryKey, ListIs;
    var q1 := AnnounceAndFind(r, t);
    var q2 := SeeNothing(q1, t);
    q := Return(q2, t);
  }

  lemma SeeNothing(r: Run, t: Tid) returns (q: Run)
    requires Good(r) && t in Last(r).threads && Last(r).threads[t].pc.ContainsLoad? && Last(r).threads[t].curr == ROOT
    requires Last(r).threads[t].key == OrdinaryKey(0) && ListIs(Last(r).heap, [ROOT, TAIL], [])
    ensures Good(q) && Last(q) == Put(Last(r), t, Last(r).threads[t].(curr := TAIL, pc := Leaving(false)))
  {
    hide IsRun, TagsWithin, Inv, Last, OrdinaryKey;
    var c := [ROOT, TAIL];
    assert c[0] == ROOT && c[0 + 1] == TAIL && Last(r).heap.nodes[c[0]].next == c[1];
    q := Go(r, t);
    TailAndRoot(Last(r));
  }

  // ----- the run -----

  /** `A` has loaded epoch 0 and not announced it; everybody else is idle, and the list is empty. */
  ghost predicate Asleep(s: State) {
    && Small(s) && ListIs(s.heap, [ROOT, TAIL], []) && s.threads.Keys == {A, B, C}
    && s.rec.joined == [A, B, C] && !s.rec.advancing
    && s.threads[A].pc == InReclaimer(KEnter) && s.threads[A].op.OpRemove? && s.threads[A].elem == ELEM
    && s.threads[A].stack == []
    && s.rec.ctl[A] == E.Announcing(0) && s.rec.parts[A] == E.NEW_PARTICIPANT
    && s.threads[B].pc.Idle? && s.threads[C].pc.Idle? && s.rec.parts[C].epoch == None
  }

  lemma FallsAsleep() returns (r: Run)
    ensures Good(r) && Asleep(Last(r)) && Last(r).rec.epoch == 0 && Last(r).rec.parts[B].retires == 0
  {
    hide IsRun, TagsWithin, Inv, Last, ListIs;
    hide Fresh;
    var r0 := Start();
    var r1 := Join(r0, A);
    var r2 := Join(r1, B);
    var r3 := Join(r2, C);
    assert Last(r3).rec.joined == [A, B, C];
    r := DozesOff(r3);
  }

  lemma DozesOff(r: Run) returns (q: Run)
    requires Good(r) && Fresh(Last(r)) && Last(r).rec.joined == [A, B, C]
    ensures Good(q) && Asleep(Last(q)) && Last(q).rec.epoch == 0 && Last(q).rec.parts[B].retires == 0
  {
    hide IsRun, TagsWithin, Inv, Last, ListIs, Fresh, E.EnterFrees;
    FreshThread(Last(r), A);
    FreshThread(Last(r), B);
    FreshThread(Last(r), C);
    q := CallAndLoad(r, A, OpRemove, ELEM);
    assert E.Loaded(E.NEW_PARTICIPANT, 0) == E.NEW_PARTICIPANT;
  }

  /** While `A` sleeps, `B` takes the epoch one further. */
  lemma MovesOn(r: Run) returns (q: Run)
    requires Good(r) && Asleep(Last(r)) && Last(r).rec.parts[B].retires == 0
    ensures Good(q) && Asleep(Last(q)) && Last(q).rec.parts[B].retires == 0
    ensures Last(q).rec.epoch == Last(r).rec.epoch + 1
  {
    hide IsRun, TagsWithin, Inv, Last, ListIs;
    q := Batch(r, B);
  }

  /** `C` is standing on node `n`. */
  ghost predicate OnNode(s: State, n: NodeId) {
    C in s.threads && s.threads[C].pc.ContainsMark? && s.threads[C].curr == n
  }

  /** `B` adds the element, and `C` looks for it and comes to its node. */
  lemma ComesToNode(r: Run) returns (q: Run, n: NodeId)
    requires Good(r) && Asleep(Last(r)) && Last(r).rec.parts[B].retires == 0 && Last(r).rec.epoch == 2
    ensures Good(q) && Small(Last(q)) && Single(Last(q).heap, n, ELEM) && OnNode(Last(q), n)
    ensures var s, s' := Last(r), Last(q);
            && s'.threads.Keys == {A, B, C} && s'.threads[A] == s.threads[A] && s'.threads[B].pc.Idle?
            && s'.rec.joined == [A, B, C] && !s'.rec.advancing && s'.rec.epoch == 2
            && s'.rec.ctl[A] == s.rec.ctl[A] && s'.rec.parts[A] == s.rec.parts[A]
            && s'.rec.parts[B].retires == 0 && s'.rec.parts[C].epoch == Some(2)
  {
    hide IsRun, TagsWithin, Inv, Last, ListIs, OrdinaryKey, Single;
    n := Last(r).heap.nextId;
    var q1 := AddOne(r, B, ELEM);
    var q2 := CallAndLoad(q1, C, OpContains, ELEM);
    var q3 := AnnounceAndFind(q2, C);
    q := SeeNode(q3, n);
  }

  lemma SeeNode(r: Run, n: NodeId) returns (q: Run)
    requires Good(r) && C in Last(r).threads && Last(r).threads[C].pc.ContainsLoad? && Last(r).threads[C].curr == ROOT
    requires Last(r).threads[C].key == OrdinaryKey(0) && Last(r).threads[C].want == Some(ELEM)
    requires Single(Last(r).heap, n, ELEM)
    ensures Good(q) && Last(q) == Put(Last(r), C, Last(r).threads[C].(curr := n, pc := ContainsMark))
  {
    hide IsRun, TagsWithin, Inv, Last, OrdinaryKey;
    q := Go(r, C);
  }

  /** `A` wakes up, announces epoch 0 while the epoch is 2, and removes the element: its node gets tag 1. */
  lemma TagsEarly(r: Run, n: NodeId) returns (q: Run)
    requires Good(r) && Small(Last(r)) && Single(Last(r).heap, n, ELEM) && OnNode(Last(r), n) && Last(r).rec.epoch == 2
    requires A in Last(r).threads && Last(r).threads[A].pc == InReclaimer(KEnter) && Last(r).threads[A].op.OpRemove?
    requires Last(r).threads[A].elem == ELEM && Last(r).threads[A].stack == []
    requires Last(r).rec.ctl[A] == E.Announcing(0) && Last(r).rec.parts[A] == E.NEW_PARTICIPANT
    ensures Good(q) && Around(Last(r), Last(q), A) && Last(q).rec.epoch == 2
    ensures var p := Last(q).rec.parts[A];
            && |p.tags| == |p.bags| == E.BAGS && p.announced == 0 && p.epoch == None && p.tags[1] == Some(1)
            && p.bags[1] == multiset{n}
  {
    hide IsRun, TagsWithin, Inv, Last, OrdinaryKey, ListIs, Single, Own, Extends, Small, OnNode, E.Retired;
    var s := Last(r);
    var q1 := AnnounceAndFind(r, A);
    OwnHas(s, Last(q1), A);
    EarlyTag(n);
    var q2 := UnlinkIt(q1, A, n);
    OwnHas(Last(q1), Last(q2), A);
    OneAfterOther(r, q1, q2, A);
    assert Last(q2).rec.parts[A] == E.NEW_PARTICIPANT.(epoch := Some(0));
    var q3 := Push(q2, A, n);
    OwnHas(Last(q2), Last(q3), A);
    OneAfterOther(r, q2, q3, A);
    q := CountDown(q3, A);
    OneAfterOther(r, q3, q, A);
  }

  lemma EarlyTag(n: NodeId)
    ensures var p := E.Retired(E.NEW_PARTICIPANT.(epoch := Some(0)), n);
            && p.announced == 0 && p.epoch == Some(0) && p.retires == 1 && p.tags[1] == Some(1)
            && p.bags[1] == multiset{n}
  {
  }

  /** `B` takes the epoch to 3 past `C`'s open Guard, and `A`, calling again, deletes the node under it. */
  lemma DeletesEarly(r: Run, n: NodeId) returns (q: Run)
    requires Good(r) && Small(Last(r)) && ListIs(Last(r).heap, [ROOT, TAIL], []) && OnNode(Last(r), n)
    requires Last(r).rec.epoch == 2
    requires Last(r).threads.Keys == {A, B, C} && Last(r).rec.joined == [A, B, C] && !Last(r).rec.advancing
    requires Last(r).threads[A].pc.Idle? && Last(r).threads[B].pc.Idle? && Last(r).rec.parts[B].retires == 0
    requires Last(r).rec.parts[C].epoch == Some(2)
    requires var p := Last(r).rec.parts[A];
             && |p.tags| == |p.bags| == E.BAGS && p.announced == 0 && p.epoch == None && p.tags[1] == Some(1)
             && p.bags[1] == multiset{n}
    ensures Good(q) && OnNode(Last(q), n) && n in Last(q).rec.freed
  {
    hide IsRun, TagsWithin, Inv, Last, ListIs;
    var q1 := Batch(r, B);
    q := CallAndLoad(q1, A, OpContains, ELEM);
    Expires(Last(q1).rec.parts[A], n);
  }

  lemma Expires(p: E.Participant, n: NodeId)
    requires |p.tags| == |p.bags| == E.BAGS && p.announced == 0 && p.tags[1] == Some(1) && p.bags[1] == multiset{n}
    ensures n in E.EnterFrees(p, 3)
  {
    assert E.Outdated(p, 1, 3) == multiset{n};
  }

  lemma LongAsleep() returns (r: Run)
    ensures Good(r) && Asleep(Last(r)) && Last(r).rec.epoch == 2 && Last(r).rec.parts[B].retires == 0
  {
    hide IsRun, TagsWithin, Inv, Last, ListIs, Asleep;
    var r0 := FallsAsleep();
    var r1 := MovesOn(r0);
    r := MovesOn(r1);
  }

  lemma SleepsOn(s: State, s': State)
    requires Asleep(s) && A in s'.threads && s'.threads[A] == s.threads[A]
    requires A in s'.rec.ctl && s'.rec.ctl[A] == s.rec.ctl[A] && A in s'.rec.parts && s'.rec.parts[A] == s.rec.parts[A]
    ensures s'.threads[A].pc == InReclaimer(KEnter) && s'.threads[A].op.OpRemove? && s'.threads[A].elem == ELEM
    ensures s'.threads[A].stack == [] && s'.rec.ctl[A] == E.Announcing(0) && s'.rec.parts[A] == E.NEW_PARTICIPANT
  {
  }

  lemma StandsStill(s: State, s': State, n: NodeId)
    requires OnNode(s, n) && Around(s, s', A)
    ensures OnNode(s', n)
  {
  }

  lemma StandsOn(s: State, n: NodeId)
    requires OnNode(s, n) && n in s.rec.freed
    ensures C in s.threads && n in Touched(s, C) && Gone(s, n)
  {
  }

  /**
    A run in which no node is unlinked more than one epoch past its tag, and which leaves a thread
    standing on a node that has been deleted.
  */
  lemma UseAfterDelete() returns (r: Run, n: NodeId)
    ensures IsRun(r) && TagsWithin(r, 1)
    ensures var s := r.states[|r.states| - 1]; C in s.threads && n in Touched(s, C) && Gone(s, n)
  {
    hide IsRun, TagsWithin, Inv, Last, ListIs, OrdinaryKey, Single, Asleep, OnNode;
    var r2 := LongAsleep();
    var r3, m := ComesToNode(r2);
    n := m;
    SleepsOn(Last(r2), Last(r3));
    var r4 := TagsEarly(r3, n);
    StandsStill(Last(r3), Last(r4), n);
    r := DeletesEarly(r4, n);
    StandsOn(Last(r), n);
    LastIs(r);
  }

  lemma LastIs(r: Run)
    requires IsRun(r)
    ensures |r.states| > 0 && Last(r) == r.states[|r.states| - 1]
  {
    hide Next, Ready, Init;
  }

  /**
    Exactly when the set is safe: no thread ever touches or holds on to a deleted node in all runs in which
    the epoch is at most `d` past the tag of every node that is unlinked, if and only if `d` is 0.
  */
  lemma SafeExactly(d: nat)
    ensures (forall r, i: nat {:trigger MemorySafe(r.states[i])} ::
               IsRun(r) && TagsWithin(r, d) && i < |r.states| ==> MemorySafe(r.states[i])) <==> d == 0
  {
    hide IsRun;
    if d == 0 {
      forall r, i: nat | IsRun(r) && TagsWithin(r, d) && i < |r.states|
        ensures MemorySafe(r.states[i])
      {
        MemorySafety(r, i);
      }
    } else {
      var r, n := UseAfterDelete();
      LastIs(r);
      assert TagsWithin(r, d);
      assert !MemorySafe(r.states[|r.states| - 1]);
    }
  }
}
