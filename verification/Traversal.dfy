/**
  What a thread may conclude while it walks the list, and why the conclusions survive whatever other
  threads do in between.

  `Evolves(h, k, t)` is everything a step of thread `t` can do to the memory. Each fact a traversal
  relies on is shown to be stable under the steps of every other thread, and each hop of a traversal
  to establish the facts for the next node.
*/
module Traversal {
  import opened Common
  import opened SplitOrder
  import opened ListHeap

  // ----- the comparisons of the source -----

  predicate Matches(d: Node, key: nat, want: Option<Elem>) {
    d.key == key && (want == None || Some(d.elem) == want)
  }

  predicate AtOrPast(d: Node, key: nat, want: Option<Elem>) {
    key < d.key || Matches(d, key, want)
  }

  // ----- one step of one thread -----

  /** The word of a node was left alone, or was unmarked and has been written by `t` since `now`. */
  ghost predicate WordEvolves(a: Node, b: Node, now: nat, t: Tid) {
    || (b.next == a.next && b.mark == a.mark && b.writer == a.writer && b.wroteAt == a.wroteAt)
    || (!a.mark && b.writer == t && now <= b.wroteAt)
  }

  ghost predicate NodeEvolves(a: Node, b: Node, now: nat, t: Tid) {
    && b.key == a.key && b.elem == a.elem
    && match a.status
       case Private =>
         if a.writer != t then b == a
         else b.writer == t && !b.status.Unlinked? && (b.status.Linked? ==> now <= b.born && !b.mark)
       case Linked =>
         && b.born == a.born && WordEvolves(a, b, now, t)
         && (b.status.Linked? || (b.status.Unlinked? && now <= b.died))
       case Unlinked => b == a
  }

  /** No step both links a node in and marks or unlinks another. */
  ghost predicate LinksAlone(h: Heap, k: Heap) {
    forall n, m {:trigger Lk(k, n), Lk(h, m)} :: Lk(k, n) && !Lk(h, n) && Lk(h, m) ==>
      Lk(k, m) && k.nodes[m].mark == h.nodes[m].mark
  }

  ghost predicate Evolves(h: Heap, k: Heap, t: Tid) {
    && h.clock <= k.clock && h.nextId <= k.nextId
    && (forall n :: n in h.nodes ==> n in k.nodes && NodeEvolves(h.nodes[n], k.nodes[n], h.clock, t))
    && (forall n :: n in k.nodes && n !in h.nodes ==> k.nodes[n].status.Private? && k.nodes[n].writer == t)
    && LinksAlone(h, k)
  }

  lemma EvolvesSame(h: Heap, t: Tid)
    ensures Evolves(h, h, t)
  {
  }

  lemma EvolvesAlloc(h: Heap, key: nat, elem: Elem, next: NodeId, t: Tid)
    requires Ends(h)
    ensures Evolves(h, Alloc(h, key, elem, next, t), t)
  {
  }

  lemma EvolvesStore(h: Heap, n: NodeId, next: NodeId, t: Tid)
    requires Mine(h, n, t)
    ensures Evolves(h, StoreNext(h, n, next), t)
  {
  }

  lemma EvolvesPublish(h: Heap, p: NodeId, n: NodeId, t: Tid)
    requires CanPublish(h, p, n, t) && Marks(h)
    ensures Evolves(h, Publish(h, p, n, t), t)
  {
  }

  lemma EvolvesMark(h: Heap, c: NodeId, t: Tid)
    requires CanMark(h, c)
    ensures Evolves(h, MarkNode(h, c, t), t)
  {
  }

  lemma EvolvesUnlink(h: Heap, p: NodeId, c: NodeId, succ: NodeId, t: Tid)
    requires CanUnlink(h, p, c, succ) && Lk(h, c) && p != c
    ensures Evolves(h, Unlink(h, p, c, succ, t), t)
  {
  }

  // ----- what a traversal knows -----

  /** `n` was linked at some moment since the thread's Guard opened. */
  ghost predicate Held(h: Heap, n: NodeId, since: nat) {
    Lk(h, n) || (Un(h, n) && since <= h.nodes[n].died)
  }

  /** No linked node up to and including `p` is the one looked for. */
  ghost predicate Passed(h: Heap, p: NodeId, key: nat, want: Option<Elem>) {
    && Pub(h, p) && h.nodes[p].key <= key
    && forall x {:trigger Le(h, x, p)} :: Lk(h, x) && Le(h, x, p) ==> !Matches(h.nodes[x], key, want)
  }

  /** No linked node before `c` is, provided `c` does not already lie past its key. */
  ghost predicate Clear(h: Heap, c: NodeId, key: nat, want: Option<Elem>) {
    && Pub(h, c)
    && (h.nodes[c].key <= key ==>
          forall x {:trigger Lt(h, x, c)} :: Lk(h, x) && Lt(h, x, c) ==> !Matches(h.nodes[x], key, want))
  }

  /** Node `n` makes `e` an element of the set. */
  ghost predicate Holds(h: Heap, n: NodeId, e: Elem) {
    Lk(h, n) && !h.nodes[n].mark && h.nodes[n].key == OrdinaryKey(e.code) && h.nodes[n].elem == e
  }

  /** Some node held `e` at some moment since `since`. */
  ghost predicate SawIn(h: Heap, since: nat, e: Elem) {
    exists n :: Pub(h, n) && h.nodes[n].key == OrdinaryKey(e.code) && h.nodes[n].elem == e &&
                (h.nodes[n].mark ==> since <= h.nodes[n].wroteAt)
  }

  /** No node has been holding `e` ever since `since`: whichever holds it now was linked in later. */
  ghost predicate SawOut(h: Heap, since: nat, e: Elem) {
    forall n :: Holds(h, n, e) ==> since <= h.nodes[n].born
  }

  /** The node that has been holding `e` since `since`, if there is one, is `c` or lies ahead of it. */
  ghost predicate Ahead(h: Heap, c: NodeId, since: nat, e: Elem) {
    Pub(h, c) && forall n {:trigger Holds(h, n, e)} :: Holds(h, n, e) && h.nodes[n].born < since ==> Le(h, c, n)
  }

  /** Once a search has gone past the key, the element was absent at some moment since `since`. */
  ghost predicate Gap(h: Heap, c: NodeId, since: nat, key: nat, want: Option<Elem>) {
    c in h.nodes && (want.Some? && key < h.nodes[c].key ==> SawOut(h, since, want.value))
  }

  // ----- stability -----

  lemma HeldStable(h: Heap, k: Heap, t: Tid, n: NodeId, since: nat)
    requires Evolves(h, k, t) && Held(h, n, since) && since <= h.clock
    ensures Held(k, n, since) && k.nodes[n].key == h.nodes[n].key && k.nodes[n].elem == h.nodes[n].elem
    ensures k.nodes[n].born == h.nodes[n].born
    ensures h.nodes[n].mark ==> k.nodes[n].mark && k.nodes[n].next == h.nodes[n].next
    ensures Un(h, n) ==> Un(k, n)
  {
  }

  lemma PassedStable(h: Heap, k: Heap, t: Tid, p: NodeId, key: nat, want: Option<Elem>)
    requires Evolves(h, k, t) && Births(h) && Passed(h, p, key, want)
    ensures Passed(k, p, key, want)
  {
    forall x | Lk(k, x) && Le(k, x, p)
      ensures !Matches(k.nodes[x], key, want)
    {
      if Lk(h, x) {
        assert Le(h, x, p);
      }
    }
  }

  lemma ClearStable(h: Heap, k: Heap, t: Tid, c: NodeId, key: nat, want: Option<Elem>)
    requires Evolves(h, k, t) && Births(h) && Clear(h, c, key, want)
    ensures Clear(k, c, key, want)
  {
    if h.nodes[c].key <= key {
      forall x | Lk(k, x) && Lt(k, x, c)
        ensures !Matches(k.nodes[x], key, want)
      {
        if Lk(h, x) {
          assert Lt(h, x, c);
        }
      }
    }
  }

  lemma SawInStable(h: Heap, k: Heap, t: Tid, since: nat, e: Elem)
    requires Evolves(h, k, t) && since <= h.clock && SawIn(h, since, e)
    ensures SawIn(k, since, e)
  {
    var n :| Pub(h, n) && h.nodes[n].key == OrdinaryKey(e.code) && h.nodes[n].elem == e &&
             (h.nodes[n].mark ==> since <= h.nodes[n].wroteAt);
    assert Pub(k, n) && k.nodes[n].key == OrdinaryKey(e.code) && k.nodes[n].elem == e;
  }

  /** What still holds `e` and did before is what held it before. */
  lemma HoldsBefore(h: Heap, k: Heap, t: Tid, n: NodeId, e: Elem)
    requires Evolves(h, k, t) && Holds(k, n, e)
    ensures Holds(h, n, e) || h.clock <= k.nodes[n].born
  {
    if n in h.nodes {
      assert NodeEvolves(h.nodes[n], k.nodes[n], h.clock, t);
    }
  }

  lemma SawOutStable(h: Heap, k: Heap, t: Tid, since: nat, e: Elem)
    requires Evolves(h, k, t) && since <= h.clock && SawOut(h, since, e)
    ensures SawOut(k, since, e)
  {
    forall n | Holds(k, n, e)
      ensures since <= k.nodes[n].born
    {
      HoldsBefore(h, k, t, n, e);
    }
  }

  lemma AheadStable(h: Heap, k: Heap, t: Tid, c: NodeId, since: nat, e: Elem)
    requires Evolves(h, k, t) && since <= h.clock && Ahead(h, c, since, e)
    ensures Ahead(k, c, since, e)
  {
    forall n | Holds(k, n, e) && k.nodes[n].born < since
      ensures Le(k, c, n)
    {
      HoldsBefore(h, k, t, n, e);
      assert Holds(h, n, e) && Le(h, c, n);
    }
  }

  // ----- hops -----

  /** Whatever a held node leads to is held: the nodes linked since `since` are closed under `next`. */
  lemma HeldNext(h: Heap, n: NodeId, since: nat)
    requires Links(h) && FrozenLinks(h) && Held(h, n, since) && n != TAIL
    ensures Held(h, Nx(h, n), since) && Lt(h, n, Nx(h, n))
  {
    assert Nx(h, n) == h.nodes[n].next;
  }

  /**
    The hindsight lemma. A walk that follows `next` from node to node, marked or unlinked or not, does
    not overtake a node that has been holding `e` since before the walk began.
  */
  lemma AheadNext(h: Heap, c: NodeId, since: nat, e: Elem)
    requires Links(h) && Sorted(h) && FrozenLinks(h) && FrozenSorted(h) && Marks(h)
    requires Held(h, c, since) && c != TAIL && Ahead(h, c, since, e)
    requires !Matches(h.nodes[c], OrdinaryKey(e.code), Some(e))
    ensures Held(h, Nx(h, c), since) && Ahead(h, Nx(h, c), since, e)
  {
    HeldNext(h, c, since);
    forall n | Holds(h, n, e) && h.nodes[n].born < since
      ensures Le(h, Nx(h, c), n)
    {
      assert Le(h, c, n) && c != n;
      assert Lt(h, c, n);
      assert Un(h, c) ==> Alive(h, n, h.nodes[c].died);
    }
  }

  /** A walk that stops past the key has let `e` be absent at some moment. */
  lemma AheadPast(h: Heap, c: NodeId, since: nat, e: Elem)
    requires Ahead(h, c, since, e) && OrdinaryKey(e.code) < h.nodes[c].key
    ensures SawOut(h, since, e)
  {
  }

  /** ... and so has one that stops at a marked node for `e`. */
  lemma AheadMarked(h: Heap, c: NodeId, since: nat, e: Elem)
    requires Unique(h) && FrozenUnique(h) && Marks(h)
    requires Held(h, c, since) && Ahead(h, c, since, e)
    requires Matches(h.nodes[c], OrdinaryKey(e.code), Some(e)) && h.nodes[c].mark
    ensures SawOut(h, since, e)
  {
    hide OrdinaryKey;
    forall n | Holds(h, n, e)
      ensures since <= h.nodes[n].born
    {
      assert Un(h, c) && h.nodes[n].born < since ==> Alive(h, n, h.nodes[c].died);
      assert Same(h, c, n);
    }
  }

  /** Between a linked `p` that has been passed and its successor there is nothing left to find. */
  lemma NoneLinked(h: Heap, p: NodeId, key: nat, want: Option<Elem>)
    requires Births(h) && Sorted(h) && Passed(h, p, key, want) && Lk(h, p) && p != TAIL
    requires Nx(h, p) in h.nodes && key < h.nodes[Nx(h, p)].key
    ensures forall x :: Lk(h, x) ==> !Matches(h.nodes[x], key, want)
  {
    forall x | Lk(h, x)
      ensures !Matches(h.nodes[x], key, want)
    {
      Total(h, x, p);
      if Lt(h, p, x) {
        assert Le(h, Nx(h, p), x);
      } else {
        assert Le(h, x, p);
      }
    }
  }

  /** The facts a search carries to the successor of a linked node it has passed. */
  lemma SearchNext(h: Heap, p: NodeId, since: nat, key: nat, want: Option<Elem>)
    requires Births(h) && Links(h) && Sorted(h) && Passed(h, p, key, want) && Lk(h, p) && p != TAIL
    requires want.Some? ==> key == OrdinaryKey(want.value.code)
    ensures var c := Nx(h, p); Lk(h, c) && Lt(h, p, c) && Clear(h, c, key, want) && Gap(h, c, since, key, want)
  {
    hide OrdinaryKey;
    var c := Nx(h, p);
    if h.nodes[c].key <= key {
      forall x | Lk(h, x) && Lt(h, x, c)
        ensures !Matches(h.nodes[x], key, want)
      {
        Total(h, x, p);
        assert Lt(h, p, x) ==> Le(h, c, x);
        assert Le(h, x, p);
      }
    } else {
      NoneLinked(h, p, key, want);
    }
  }

  /** An unmarked node that is clear and is not the one looked for has been passed. */
  lemma PassedHere(h: Heap, c: NodeId, key: nat, want: Option<Elem>)
    requires Clear(h, c, key, want) && !AtOrPast(h.nodes[c], key, want)
    ensures Passed(h, c, key, want)
  {
    forall x | Lk(h, x) && Le(h, x, c)
      ensures !Matches(h.nodes[x], key, want)
    {
      assert x == c || Lt(h, x, c);
    }
  }

  /** A linked sentinel whose key lies before the one looked for has been passed. */
  lemma PassedStart(h: Heap, p: NodeId, key: nat, want: Option<Elem>)
    requires Lk(h, p) && h.nodes[p].key < key
    ensures Passed(h, p, key, want)
  {
  }

  /** A linked unmarked node is a published unmarked one. */
  lemma UnmarkedIsLinked(h: Heap, n: NodeId)
    requires Marks(h) && Pub(h, n) && !h.nodes[n].mark
    ensures Lk(h, n)
  {
  }
}
