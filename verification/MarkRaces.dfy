/**
  Two Removes of the same element (src/BucketList.h:104-122). The second read of the node's word, just
  before the CAS that marks it, does not look at the mark; so the CAS can fail although nobody has written
  the word since it was read.
*/
module MarkRaces {
  import opened Common
  import opened SplitOrder
  import opened ListHeap
  import opened LockFreeSteps
  import opened LockFreeSafety
  import opened LockFreeProgress
  import opened LockFreeBuild
  import opened LockFreeUnsafe

  /** `A` has found the node and is about to read its word again; `B` has not called yet. */
  lemma FindsFirst() returns (r: Run, n: NodeId)
    ensures Good(r) && Small(Last(r)) && Single(Last(r).heap, n, ELEM) && B in Last(r).rec.joined
    ensures var s := Last(r);
            && A in s.threads && s.threads[A].pc.RemoveLoad? && s.threads[A].curr == n && B in s.threads
            && s.threads[B].pc.Idle?
  {
    hide IsRun, TagsWithin, Inv, Last, ListIs, Fresh, OrdinaryKey, Single;
    var r0 := Start();
    var r1 := Join(r0, A);
    var r2 := Join(r1, B);
    FreshThread(Last(r2), A);
    FreshThread(Last(r2), B);
    n := Last(r2).heap.nextId;
    var r3 := AddOne(r2, B, ELEM);
    var r4 := CallAndLoad(r3, A, OpRemove, ELEM);
    var r5 := AnnounceAndFind(r4, A);
    r := FindOne(r5, A, n);
  }

  /** `B` marks the node under `A`, which reads its word again and finds the mark. */
  lemma MarksUnder(r: Run, n: NodeId) returns (q: Run)
    requires Good(r) && Small(Last(r)) && Single(Last(r).heap, n, ELEM) && B in Last(r).rec.joined
    requires A in Last(r).threads && Last(r).threads[A].pc.RemoveLoad? && Last(r).threads[A].curr == n
    requires B in Last(r).threads && Last(r).threads[B].pc.Idle?
    ensures Good(q) && Last(q).threads.Keys == Last(r).threads.Keys && Last(q).threads[A] == Last(r).threads[A]
    ensures n in Last(q).heap.nodes && Last(q).heap.nodes[n].mark
  {
    hide IsRun, TagsWithin, Inv, Last, OrdinaryKey, Single;
    var q1 := CallAndLoad(r, B, OpRemove, ELEM);
    var q2 := AnnounceAndFind(q1, B);
    q := MarkOnly(q2, B, n);
  }

  lemma ReadsAgain(r: Run, n: NodeId) returns (q: Run)
    requires Good(r) && A in Last(r).threads && Last(r).threads[A].pc.RemoveLoad? && Last(r).threads[A].curr == n
    requires n in Last(r).heap.nodes && Last(r).heap.nodes[n].mark
    ensures IsRun(q) && q.states == r.states + [Last(q)] && q.events == r.events + [Event(A, OpAdd, NO_ELEM)]
    ensures Fails(Last(q), A) && Last(q).threads[A].pc.RemoveMark? && Last(q).threads[A].sawMark
  {
    hide IsRun, TagsWithin, Inv, Last;
    q := Go(r, A);
  }

  /** A run that ends with a Remove about to fail to mark the node whose word it has read in the very last step. */
  lemma OnlyTheMark() returns (r: Run, j: nat)
    ensures IsRun(r) && j == |r.events| && j > 0
    ensures r.events[j - 1].t == A && A in r.states[j - 1].threads && r.states[j - 1].threads[A].pc.RemoveLoad?
    ensures Fails(r.states[j], A) && r.states[j].threads[A].pc.RemoveMark?
  {
    hide IsRun, TagsWithin, Inv, Single;
    var r1, n := FindsFirst();
    var r2 := MarksUnder(r1, n);
    r := ReadsAgain(r2, n);
    j := |r.events|;
    RunLength(r2);
  }
}
