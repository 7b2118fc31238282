/**
  The destructors (src/HashSetLockFree.h, src/BucketList.h, src/EpochReclaimer.h): once every thread is
  done with the set, they delete every node that is left, each exactly once.
*/
module Teardown {
  import opened Common
  import opened ListHeap
  import opened LockFreeSet
  import opened LockFreeInv
  import opened LockFreeSteps
  import opened LockFreeSafety
  import opened LockFreeShape
  import E = Epochs

  // ----- who is in the list of participants -----

  ghost predicate Distinct(q: seq<Tid>) { forall i, j :: 0 <= i < j < |q| ==> q[i] != q[j] }

  /** A participant is in the list once, from before its first Guard opens. */
  ghost predicate JoinInv(r: E.State) {
    && Distinct(r.joined)
    && (forall t :: t in r.ctl ==>
          (r.ctl[t].Joining? ==> t !in r.joined) &&
          (r.ctl[t].Reading? || r.ctl[t].Announcing? || E.InGuard(r.ctl[t]) ==> t in r.joined))
    && (forall n :: n in r.fates && r.fates[n].place.Bagged? ==> r.fates[n].place.of in r.joined)
  }

  lemma StepJoins(r: E.State, t: Tid, a: E.Action)
    requires E.OwnInv(r) && JoinInv(r) && E.Enabled(r, t, a)
    ensures JoinInv(E.Apply(r, t, a))
  {
    hide E.OwnInv, E.InternalStep;
    if a.Internal? {
      if r.ctl[t].Pushing? {
        PushJoins(r, t, r.ctl[t].n);
      } else if r.ctl[t].Reading? {
        LoadJoins(r, t);
      } else if r.ctl[t].Announcing? {
        AnnounceJoins(r, t, r.ctl[t].e);
      } else {
        E.InternalMovesControl(r, t);
        ControlJoins(r, t);
      }
    }
  }

  lemma PushJoins(r: E.State, t: Tid, n: NodeId)
    requires JoinInv(r) && E.Typed(r, t) && n in r.fates && r.ctl[t].Pushing? && r.ctl[t].n == n
    ensures E.Enabled(r, t, E.Internal) && JoinInv(E.InternalStep(r, t))
  {
  }

  lemma LoadJoins(r: E.State, t: Tid)
    requires JoinInv(r) && E.Typed(r, t) && r.ctl[t] == E.Reading
    ensures E.Enabled(r, t, E.Internal) && JoinInv(E.InternalStep(r, t))
  {
  }

  lemma AnnounceJoins(r: E.State, t: Tid, e: nat)
    requires JoinInv(r) && E.Typed(r, t) && r.ctl[t] == E.Announcing(e)
    ensures E.Enabled(r, t, E.Internal) && JoinInv(E.InternalStep(r, t))
  {
  }

  lemma ControlJoins(r: E.State, t: Tid)
    requires JoinInv(r) && E.Enabled(r, t, E.Internal) && E.OnlyCtl(r, E.InternalStep(r, t), t)
    requires !r.ctl[t].Pushing? && !r.ctl[t].Reading? && !r.ctl[t].Announcing?
    ensures JoinInv(E.InternalStep(r, t))
  {
    var q := E.InternalStep(r, t);
    assert q.joined != r.joined ==> r.ctl[t].Joining? && q.ctl[t].Reading?;
    assert q.ctl[t].Joining? ==> r.ctl[t].Joining? && q.joined == r.joined;
  }

  lemma {:induction false} AlwaysJoined(r: Run, i: nat)
    requires IsRun(r) && i < |r.states|
    ensures JoinInv(r.states[i].rec)
  {
    hide Inv, Next, Ready, JoinInv, E.Enabled, E.Apply;
    if i == 0 {
      JoinedAtFirst(r.states[0]);
    } else {
      AlwaysJoined(r, i - 1);
      Always(r, i - 1);
      var s, e := r.states[i - 1], r.events[i - 1];
      assert IsStep(s, e, r.states[i]);
      StepOfReclaimer(s, e.t, e.op, e.elem);
      if r.states[i].rec != s.rec {
        var a :| ReclaimerMoves(s, e.t, a, r.states[i].rec);
        RecOfInv(s);
        StepJoins(s.rec, e.t, a);
      }
    }
  }

  lemma JoinedAtFirst(s: State)
    requires Init(s)
    ensures JoinInv(s.rec)
  {
    hide PowerOfTwo;
  }

  lemma RecOfInv(s: State)
    requires Inv(s)
    ensures E.OwnInv(s.rec)
  {
    hide E.OwnInv, HeapInv;
  }

  // ----- the loops -----

  /** BucketList::Destroy: deletes the nodes from the root to the tail. */
  method DestroyList(h: Heap, sentinel: NodeId) returns (freed: seq<NodeId>)
    requires Ends(h) && Links(h) && Lk(h, sentinel)
    ensures freed == Chain(h, sentinel)
  {
    freed := [];
    var node := sentinel;
    while node != NULL
      invariant node != NULL ==> Lk(h, node)
      invariant Chain(h, sentinel) == freed + (if node == NULL then [] else Chain(h, node))
      decreases if node == NULL then 0 else 1 + |Further(h, node)|
    {
      if node != TAIL {
        FurtherShrinks(h, node);
      }
      var next := h.nodes[node].next;
      freed := freed + [node];
      node := next;
    }
  }

  /** What the bags of the `left` oldest participants hold. */
  ghost function Held(r: E.State, left: nat): multiset<NodeId>
    requires left <= |r.joined| && E.AllTyped(r) && forall t :: t in r.joined ==> t in r.parts
  {
    if left == 0 then multiset{}
    else
      assert r.joined[left - 1] in r.joined;
      assert E.Typed(r, r.joined[left - 1]);
      Held(r, left - 1) + InBags(r.parts[r.joined[left - 1]])
  }

  function InBags(p: E.Participant): multiset<NodeId>
    requires |p.bags| == E.BAGS
  {
    p.bags[0] + p.bags[1] + p.bags[2]
  }

  /** ~EpochReclaimer: deletes every participant, newest first, and with it what its bags hold. */
  method DestroyParticipants(r: E.State) returns (freed: multiset<NodeId>)
    requires E.AllTyped(r) && forall t :: t in r.joined ==> t in r.parts
    ensures freed == Held(r, |r.joined|)
  {
    freed := multiset{};
    var left := |r.joined|;
    while left > 0
      invariant 0 <= left <= |r.joined|
      invariant freed + Held(r, left) == Held(r, |r.joined|)
    {
      left := left - 1;
      var t := r.joined[left];
      assert t in r.joined && E.Typed(r, t);
      freed := freed + InBags(r.parts[t]);
    }
  }

  // ----- each node is deleted exactly once -----

  /** Node `n` is in a bag of one of the `left` oldest participants. */
  ghost predicate HeldBelow(r: E.State, n: NodeId, left: nat)
    requires left <= |r.joined|
  {
    n in r.fates && r.fates[n].place.Bagged? && exists j :: 0 <= j < left && r.joined[j] == r.fates[n].place.of
  }

  lemma BagsCount(r: E.State, t: Tid, n: NodeId)
    requires E.OwnInv(r) && t in r.parts
    ensures E.Typed(r, t)
    ensures InBags(r.parts[t])[n] == One(n in r.fates && r.fates[n].place.Bagged? && r.fates[n].place.of == t)
  {
    assert E.BagOwns(r, t, 0) && E.BagOwns(r, t, 1) && E.BagOwns(r, t, 2);
    if n in r.fates && r.fates[n].place.Bagged? && r.fates[n].place.of == t {
      assert E.PlaceOk(r, n);
      assert E.InBag(r, n, t, r.fates[n].place.index);
    }
  }

  lemma {:induction false} HeldCount(r: E.State, n: NodeId, left: nat)
    requires E.OwnInv(r) && Distinct(r.joined) && left <= |r.joined|
    ensures Held(r, left)[n] == One(HeldBelow(r, n, left))
  {
    hide E.OwnInv;
    TypedOwn(r);
    if left > 0 {
      var t := r.joined[left - 1];
      assert t in r.joined;
      HeldCount(r, n, left - 1);
      BagsCount(r, t, n);
    }
  }

  lemma TypedOwn(r: E.State)
    requires E.OwnInv(r)
    ensures E.AllTyped(r) && forall t :: t in r.joined ==> t in r.parts
  {
  }

  lemma {:induction false} ChainOnce(h: Heap, n: NodeId, x: NodeId)
    requires HeapInv(h) && Lk(h, n)
    ensures multiset(Chain(h, n))[x] == One(x in Chain(h, n))
    decreases |Further(h, n)|
  {
    hide HeapInv, Further;
    HeapHas(h);
    if n != TAIL {
      FurtherShrinks(h, n);
      ChainOnce(h, Nx(h, n), x);
      var rest := Chain(h, Nx(h, n));
      assert Chain(h, n) == [n] + rest;
      assert multiset(Chain(h, n)) == multiset{n} + multiset(rest);
      ChainIsLinked(h, Nx(h, n), n);
    }
  }

  /** No thread is in a call. */
  ghost predicate Quiescent(s: State) { forall t :: t in s.threads ==> s.threads[t].pc.Idle? }

  ghost predicate EndsIn(r: Run, s: State) { |r.states| > 0 && r.states[|r.states| - 1] == s }

  lemma QuietPlaces(s: State, n: NodeId)
    requires Inv(s) && Quiescent(s)
    ensures !Current(s, n) && !Pending(s, n)
  {
    hide HeapInv, BucketsOk, CapacityOk, HolderTie;
    HeapHas(s.heap);
    assert forall t :: t in s.threads ==> ThreadOk(s.heap, s.threads[t], t, s.maxCapacity) && s.threads[t].node == NULL;
    assert forall t :: t in s.threads ==> CtlTie(s.threads[t].pc, s.rec.ctl[t]) && s.rec.ctl[t].Out?;
  }

  /**
    Destruction: run once every thread has left the set, the destructors delete every node that has not
    been deleted already, and delete nothing twice -- over the whole life of the set every node that was
    ever allocated is deleted exactly once.
  */
  method Destroy(ghost r: Run, s: State) returns (freed: multiset<NodeId>)
    requires IsRun(r) && EndsIn(r, s) && Quiescent(s)
    ensures forall n :: s.deleted[n] + s.rec.freed[n] + freed[n] == One(n in s.heap.nodes)
  {
    hide IsRun, EndsIn, Quiescent, Inv, HeapInv, E.OwnInv, JoinInv, E.AllTyped, Links, Ends, Held, Chain;
    AtTheEnd(r, s);
    var list := DestroyList(s.heap, s.buckets[0]);
    var bagged := DestroyParticipants(s.rec);
    freed := multiset(list) + bagged;
    forall n
      ensures s.deleted[n] + s.rec.freed[n] + freed[n] == One(n in s.heap.nodes)
    {
      EachOnce(s, n);
    }
  }

  lemma AtTheEnd(r: Run, s: State)
    requires IsRun(r) && EndsIn(r, s)
    ensures Inv(s) && HeapInv(s.heap) && E.OwnInv(s.rec) && JoinInv(s.rec) && E.AllTyped(s.rec)
    ensures Lk(s.heap, ROOT) && Ends(s.heap) && Links(s.heap) && forall t :: t in s.rec.joined ==> t in s.rec.parts
    ensures 0 in s.buckets && s.buckets[0] == ROOT
  {
    hide IsRun, Inv, HeapInv, E.OwnInv, JoinInv, E.AllTyped, Links;
    var last := |r.states| - 1;
    Always(r, last);
    HeapOfInv(s);
    HeapHas(s.heap);
    RecOfInv(s);
    TypedOwn(s.rec);
    RootStays(r, last);
    AlwaysJoined(r, last);
  }

  lemma {:induction false} RootStays(r: Run, i: nat)
    requires IsRun(r) && i < |r.states|
    ensures 0 in r.states[i].buckets && r.states[i].buckets[0] == ROOT
  {
    hide Next, Ready;
    BucketsStay(r, 0, i, 0);
  }

  lemma EachOnce(s: State, n: NodeId)
    requires Inv(s) && HeapInv(s.heap) && E.OwnInv(s.rec) && JoinInv(s.rec) && Quiescent(s) && E.AllTyped(s.rec)
    requires Lk(s.heap, ROOT) && Ends(s.heap) && Links(s.heap) && forall t :: t in s.rec.joined ==> t in s.rec.parts
    ensures s.deleted[n] + s.rec.freed[n] + multiset(Chain(s.heap, ROOT))[n] + Held(s.rec, |s.rec.joined|)[n] ==
            One(n in s.heap.nodes)
  {
    hide Inv, HeapInv, E.OwnInv, Quiescent, E.AllTyped, Held, Current;
    HeapHas(s.heap);
    ChainOnce(s.heap, ROOT, n);
    ChainIsLinked(s.heap, ROOT, n);
    if Lk(s.heap, n) && n != ROOT {
      RootFirst(s.heap, n);
    }
    HeldCount(s.rec, n, |s.rec.joined|);
    Conserved(s, n);
    QuietPlaces(s, n);
  }
}
