/**
  The shared memory of the lock-free list (src/BucketList.h) and the writes that its operations make
  to it.

  `Before` orders published nodes by key and, within a run of equal keys, by the moment they were
  linked in. `HeapInv` says that the linked nodes form one chain in that order, and, for every node
  that has been unlinked, what that chain looked like at the moment it was unlinked: its frozen
  `next` still leads to the successor it had then. That second half is what makes a traversal
  through unlinked nodes meaningful.
*/
module ListHeap {
  import opened Common
  import opened SplitOrder

  const NULL: NodeId := 0
  const ROOT: NodeId := 1
  const TAIL: NodeId := 2

  /** The payload `T{}` of a sentinel. */
  const NO_ELEM: Elem := Elem(0, 0)

  datatype Status =
    | Private   // allocated, not yet reachable by any other thread
    | Linked    // between the root and the tail
    | Unlinked  // taken out of the chain, still readable by whoever holds it

  /**
    `key`, `elem`, `next` and `mark` are the fields of the node; `next` and `mark` are one atomic word.
    The rest is history: when the node was linked in and unlinked, and which thread last wrote its
    word and when (for a private node, the thread that allocated it).
  */
  datatype Node = Node(key: nat, elem: Elem, next: NodeId, mark: bool,
                       status: Status, born: nat, died: nat, writer: Tid, wroteAt: nat)

  /** `clock` ticks at every write to a shared word; `nextId` is the next id to allocate. */
  datatype Heap = Heap(nodes: map<NodeId, Node>, clock: nat, nextId: NodeId)

  ghost predicate Lk(h: Heap, n: NodeId) { n in h.nodes && h.nodes[n].status.Linked? }

  ghost predicate Un(h: Heap, n: NodeId) { n in h.nodes && h.nodes[n].status.Unlinked? }

  ghost predicate Pub(h: Heap, n: NodeId) { Lk(h, n) || Un(h, n) }

  ghost predicate Mine(h: Heap, n: NodeId, t: Tid) {
    n in h.nodes && h.nodes[n].status.Private? && h.nodes[n].writer == t
  }

  ghost predicate Before(a: Node, b: Node) {
    a.key < b.key || (a.key == b.key && a.born < b.born)
  }

  ghost predicate Lt(h: Heap, x: NodeId, y: NodeId) {
    x in h.nodes && y in h.nodes && Before(h.nodes[x], h.nodes[y])
  }

  ghost predicate Le(h: Heap, x: NodeId, y: NodeId) { x == y || Lt(h, x, y) }

  ghost function Nx(h: Heap, n: NodeId): NodeId { if n in h.nodes then h.nodes[n].next else NULL }

  /** `y` was linked in before time `u` and had not been unlinked by then. */
  ghost predicate Alive(h: Heap, y: NodeId, u: nat) {
    y in h.nodes && h.nodes[y].born < u &&
    (h.nodes[y].status.Linked? || (h.nodes[y].status.Unlinked? && u < h.nodes[y].died))
  }

  ghost predicate Same(h: Heap, x: NodeId, y: NodeId) {
    x in h.nodes && y in h.nodes && h.nodes[x].key == h.nodes[y].key && h.nodes[x].elem == h.nodes[y].elem
  }

  // ----- the invariant -----

  ghost predicate Ends(h: Heap) {
    && Lk(h, ROOT) && h.nodes[ROOT].key == 0 && h.nodes[ROOT].born == 0
    && Lk(h, TAIL) && h.nodes[TAIL].key == TAIL_KEY && h.nodes[TAIL].next == NULL && !h.nodes[TAIL].mark
    && TAIL < h.nextId && forall n :: n in h.nodes ==> NULL < n < h.nextId
  }

  ghost predicate SameBirth(h: Heap, x: NodeId, y: NodeId) {
    x in h.nodes && y in h.nodes && h.nodes[x].born == h.nodes[y].born
  }

  /** Births are distinct and past. */
  ghost predicate Births(h: Heap) {
    && (forall n :: Pub(h, n) ==> h.nodes[n].born < h.clock)
    && (forall x, y {:trigger SameBirth(h, x, y)} :: Pub(h, x) && Pub(h, y) && SameBirth(h, x, y) ==> x == y)
  }

  /** Which keys and payloads there are, and that only ordinary nodes are ever marked. */
  ghost predicate KeyOk(n: NodeId, d: Node) {
    if n == TAIL then d.key == TAIL_KEY
    else if SentinelKeyForm(d.key) then d.elem == NO_ELEM && !d.mark && !d.status.Unlinked?
    else d.key == OrdinaryKey(d.elem.code)
  }

  ghost predicate Kinds(h: Heap) { forall n :: n in h.nodes ==> KeyOk(n, h.nodes[n]) }

  /** Private nodes are unmarked, unlinked ones marked; marks and unlinkings are past. */
  ghost predicate Marks(h: Heap) {
    && (forall n :: n in h.nodes && h.nodes[n].mark ==> !h.nodes[n].status.Private? && h.nodes[n].wroteAt < h.clock)
    && (forall n :: Un(h, n) ==> h.nodes[n].mark && h.nodes[n].born < h.nodes[n].died < h.clock)
  }

  /** A linked node's successor is linked, and further on. */
  ghost predicate Links(h: Heap) {
    forall n {:trigger Nx(h, n)} :: Lk(h, n) && n != TAIL ==> Lk(h, Nx(h, n)) && Lt(h, n, Nx(h, n))
  }

  /** An unlinked node still leads to what was linked, and further on, when it was unlinked. */
  ghost predicate FrozenLinks(h: Heap) {
    forall n {:trigger Nx(h, n)} :: Un(h, n) ==> Alive(h, Nx(h, n), h.nodes[n].died) && Lt(h, n, Nx(h, n))
  }

  /** Nothing is linked strictly between a linked node and its successor. */
  ghost predicate Sorted(h: Heap) {
    forall x, y {:trigger Nx(h, x), Lt(h, x, y)} ::
      Lk(h, x) && x != TAIL && Lk(h, y) && Lt(h, x, y) ==> Le(h, Nx(h, x), y)
  }

  /** Nothing that was linked when `x` was unlinked lay strictly between `x` and its successor. */
  ghost predicate FrozenSorted(h: Heap) {
    forall x, y {:trigger Nx(h, x), Lt(h, x, y)} ::
      Un(h, x) && Alive(h, y, h.nodes[x].died) && Lt(h, x, y) ==> Le(h, Nx(h, x), y)
  }

  /** No two linked nodes, marked or not, carry the same key and payload ... */
  ghost predicate Unique(h: Heap) {
    forall x, y {:trigger Same(h, x, y)} :: Lk(h, x) && Lk(h, y) && Same(h, x, y) ==> x == y
  }

  /** ... and none did when `x` was unlinked. */
  ghost predicate FrozenUnique(h: Heap) {
    forall x, y {:trigger Same(h, x, y)} :: Un(h, x) && Alive(h, y, h.nodes[x].died) ==> !Same(h, x, y)
  }

  ghost predicate HeapInv(h: Heap) {
    && Ends(h) && Births(h) && Kinds(h) && Marks(h)
    && Links(h) && Sorted(h) && Unique(h)
    && FrozenLinks(h) && FrozenSorted(h) && FrozenUnique(h)
  }

  // ----- the writes -----

  /** `new Node{...}`: private to the thread until it is linked in. */
  function Alloc(h: Heap, key: nat, elem: Elem, next: NodeId, t: Tid): Heap {
    h.(nodes := h.nodes[h.nextId := Node(key, elem, next, false, Private, 0, 0, t, 0)], nextId := h.nextId + 1)
  }

  /** `node->next.Store(curr, false)` on a node that is still private. */
  function StoreNext(h: Heap, n: NodeId, next: NodeId): Heap
    requires n in h.nodes
  {
    h.(nodes := h.nodes[n := h.nodes[n].(next := next)])
  }

  /** The word of `n`, after thread `t` has written it at this tick. */
  function Written(h: Heap, n: NodeId, next: NodeId, mark: bool, t: Tid): Node
    requires n in h.nodes
  {
    h.nodes[n].(next := next, mark := mark, writer := t, wroteAt := h.clock)
  }

  /** The successful CAS of `p`'s word that links `n` in behind `p`. */
  function Publish(h: Heap, p: NodeId, n: NodeId, t: Tid): Heap
    requires p in h.nodes && n in h.nodes
  {
    h.(nodes := h.nodes[p := Written(h, p, n, false, t)][n := h.nodes[n].(status := Linked, born := h.clock)],
       clock := h.clock + 1)
  }

  /** The successful CAS of `c`'s own word that marks it. */
  function MarkNode(h: Heap, c: NodeId, t: Tid): Heap
    requires c in h.nodes
  {
    h.(nodes := h.nodes[c := Written(h, c, h.nodes[c].next, true, t)], clock := h.clock + 1)
  }

  /** The successful CAS of `p`'s word that swings it past the marked node `c`, to `succ`. */
  function Unlink(h: Heap, p: NodeId, c: NodeId, succ: NodeId, t: Tid): Heap
    requires p in h.nodes && c in h.nodes
  {
    h.(nodes := h.nodes[p := Written(h, p, succ, false, t)]
                       [c := h.nodes[c].(status := Unlinked, died := h.clock)],
       clock := h.clock + 1)
  }

  /** `CompareAndSet(expected, false, ...)` would succeed on `p`'s word. */
  predicate CanSwing(h: Heap, p: NodeId, expected: NodeId) {
    p in h.nodes && h.nodes[p].next == expected && !h.nodes[p].mark
  }

  // ----- when each write may happen, and what it keeps -----

  ghost predicate CanPublish(h: Heap, p: NodeId, n: NodeId, t: Tid) {
    && Lk(h, p) && CanSwing(h, p, Nx(h, n)) && Mine(h, n, t) && n != TAIL
    && Lk(h, Nx(h, n)) && h.nodes[p].key <= h.nodes[n].key < h.nodes[Nx(h, n)].key
    && forall x :: Lk(h, x) ==> !Same(h, x, n)
  }

  ghost predicate CanMark(h: Heap, c: NodeId) {
    Lk(h, c) && c != TAIL && !h.nodes[c].mark && !SentinelKeyForm(h.nodes[c].key)
  }

  ghost predicate CanUnlink(h: Heap, p: NodeId, c: NodeId, succ: NodeId) {
    Lk(h, p) && CanSwing(h, p, c) && c in h.nodes && h.nodes[c].mark && h.nodes[c].next == succ && p != TAIL
  }

  lemma Total(h: Heap, x: NodeId, y: NodeId)
    requires Births(h) && Pub(h, x) && Pub(h, y)
    ensures x == y || Lt(h, x, y) || Lt(h, y, x)
  {
    assert SameBirth(h, x, y) ==> x == y;
  }

  /** `k` differs from `h` in private nodes only. */
  ghost predicate SamePublished(h: Heap, k: Heap) {
    && k.clock == h.clock
    && (forall x :: Pub(k, x) ==> Pub(h, x) && k.nodes[x] == h.nodes[x])
    && (forall x :: Pub(h, x) ==> Pub(k, x))
  }

  lemma SamePublishedOrder(h: Heap, k: Heap)
    requires SamePublished(h, k) && Births(h) && Links(h) && Sorted(h) && Unique(h)
    ensures Births(k) && Links(k) && Sorted(k) && Unique(k)
  {
    assert Births(k) by {
      assert forall x, y :: Pub(k, x) && Pub(k, y) && SameBirth(k, x, y) ==> SameBirth(h, x, y);
    }
    assert Links(k) by {
      forall n | Lk(k, n) && n != TAIL
        ensures Lk(k, Nx(k, n)) && Lt(k, n, Nx(k, n))
      {
        assert Pub(k, n) && Nx(k, n) == Nx(h, n) && Pub(h, Nx(h, n));
      }
    }
    assert Sorted(k) by {
      forall x, y | Lk(k, x) && x != TAIL && Lk(k, y) && Lt(k, x, y)
        ensures Le(k, Nx(k, x), y)
      {
        assert Pub(k, x) && Pub(k, y) && Lt(h, x, y) && Le(h, Nx(h, x), y);
        assert Pub(h, Nx(h, x));
      }
    }
    assert Unique(k) by {
      assert forall x, y :: Pub(k, x) && Pub(k, y) && Same(k, x, y) ==> Same(h, x, y);
    }
  }

  lemma SamePublishedFrozen(h: Heap, k: Heap)
    requires SamePublished(h, k) && FrozenLinks(h) && FrozenSorted(h) && FrozenUnique(h)
    ensures FrozenLinks(k) && FrozenSorted(k) && FrozenUnique(k)
  {
    assert FrozenLinks(k) by {
      forall n | Un(k, n)
        ensures Alive(k, Nx(k, n), k.nodes[n].died) && Lt(k, n, Nx(k, n))
      {
        assert Pub(k, n) && Nx(k, n) == Nx(h, n) && Pub(h, Nx(h, n));
      }
    }
    assert FrozenSorted(k) by {
      forall x, y | Un(k, x) && Alive(k, y, k.nodes[x].died) && Lt(k, x, y)
        ensures Le(k, Nx(k, x), y)
      {
        assert Pub(k, x) && Pub(k, y) && Lt(h, x, y) && Le(h, Nx(h, x), y);
        assert Pub(h, Nx(h, x));
      }
    }
    assert FrozenUnique(k) by {
      forall x, y | Un(k, x) && Alive(k, y, k.nodes[x].died)
        ensures !Same(k, x, y)
      {
        assert Pub(k, x) && Pub(k, y) && !Same(h, x, y);
      }
    }
  }

  lemma SamePublishedBasics(h: Heap, k: Heap)
    requires SamePublished(h, k) && Ends(h) && Kinds(h) && Marks(h)
    requires TAIL < k.nextId
    requires forall x :: x in k.nodes ==>
      NULL < x < k.nextId && KeyOk(x, k.nodes[x]) && (k.nodes[x].status.Private? ==> !k.nodes[x].mark)
    ensures Ends(k) && Kinds(k) && Marks(k)
  {
    hide KeyOk;
    assert Pub(k, ROOT) && Pub(k, TAIL);
    assert Marks(k) by {
      assert forall x :: x in k.nodes && k.nodes[x].mark ==> Pub(k, x);
      assert forall x :: Un(k, x) ==> Pub(k, x);
    }
  }

  lemma StoreKeeps(h: Heap, n: NodeId, next: NodeId)
    requires HeapInv(h) && n in h.nodes && h.nodes[n].status.Private?
    ensures HeapInv(StoreNext(h, n, next))
  {
    hide Sorted, FrozenSorted, Links, FrozenLinks, Unique, FrozenUnique, Births, OrdinaryKey, OrdinaryKeyForm,
      SentinelKeyForm;
    var k := StoreNext(h, n, next);
    SamePublishedOrder(h, k);
    SamePublishedFrozen(h, k);
    SamePublishedBasics(h, k);
  }

  lemma AllocKeeps(h: Heap, key: nat, elem: Elem, next: NodeId, t: Tid)
    requires HeapInv(h)
    requires KeyOk(h.nextId, Node(key, elem, next, false, Private, 0, 0, t, 0))
    ensures HeapInv(Alloc(h, key, elem, next, t))
  {
    hide Sorted, FrozenSorted, Links, FrozenLinks, Unique, FrozenUnique, Births, OrdinaryKey, OrdinaryKeyForm,
      SentinelKeyForm;
    var k := Alloc(h, key, elem, next, t);
    SamePublishedOrder(h, k);
    SamePublishedFrozen(h, k);
    SamePublishedBasics(h, k);
  }

  lemma MarkKeeps(h: Heap, c: NodeId, t: Tid)
    requires HeapInv(h) && CanMark(h, c)
    ensures HeapInv(MarkNode(h, c, t))
  {
    var k := MarkNode(h, c, t);
    MarkBasics(h, c, t);
    SameOrder(h, k) by {
      hide Kinds, Marks, Ends, Sorted, FrozenSorted, Links, FrozenLinks, Unique, FrozenUnique, Births;
    }
  }

  lemma MarkBasics(h: Heap, c: NodeId, t: Tid)
    requires Ends(h) && Kinds(h) && Marks(h) && CanMark(h, c)
    ensures Ends(MarkNode(h, c, t)) && Kinds(MarkNode(h, c, t)) && Marks(MarkNode(h, c, t))
    ensures SameShape(h, MarkNode(h, c, t))
  {
    hide OrdinaryKey;
  }

  /** `k` has the nodes of `h` with the same fields, but for marks and the history of marks. */
  ghost predicate SameShape(h: Heap, k: Heap) {
    && h.clock <= k.clock
    && (forall x :: x in k.nodes <==> x in h.nodes)
    && (forall x :: x in h.nodes ==>
          && k.nodes[x].key == h.nodes[x].key && k.nodes[x].elem == h.nodes[x].elem
          && k.nodes[x].next == h.nodes[x].next && k.nodes[x].status == h.nodes[x].status
          && k.nodes[x].born == h.nodes[x].born && k.nodes[x].died == h.nodes[x].died)
  }

  lemma SameOrder(h: Heap, k: Heap)
    requires SameShape(h, k) && Births(h) && Links(h) && Sorted(h) && Unique(h)
    requires FrozenLinks(h) && FrozenSorted(h) && FrozenUnique(h)
    ensures Births(k) && Links(k) && Sorted(k) && Unique(k)
    ensures FrozenLinks(k) && FrozenSorted(k) && FrozenUnique(k)
  {
    assert Births(k) by {
      assert forall x, y :: SameBirth(k, x, y) ==> SameBirth(h, x, y);
    }
    assert Links(k) && FrozenLinks(k) by {
      assert forall n :: n in h.nodes ==> Nx(k, n) == Nx(h, n);
      assert forall x, y :: Lt(h, x, y) ==> Lt(k, x, y);
    }
    assert Sorted(k) by {
      forall x, y | Lk(k, x) && x != TAIL && Lk(k, y) && Lt(k, x, y)
        ensures Le(k, Nx(k, x), y)
      {
        assert Lt(h, x, y) && Le(h, Nx(h, x), y);
      }
    }
    assert FrozenSorted(k) by {
      forall x, y | Un(k, x) && Alive(k, y, k.nodes[x].died) && Lt(k, x, y)
        ensures Le(k, Nx(k, x), y)
      {
        assert Alive(h, y, h.nodes[x].died) && Lt(h, x, y) && Le(h, Nx(h, x), y);
      }
    }
    assert Unique(k) && FrozenUnique(k) by {
      assert forall x, y :: Same(k, x, y) ==> Same(h, x, y);
      assert forall y, u :: Alive(k, y, u) ==> Alive(h, y, u);
    }
  }

  // ----- linking a node in -----

  lemma PublishKeeps(h: Heap, p: NodeId, n: NodeId, t: Tid)
    requires HeapInv(h) && CanPublish(h, p, n, t)
    ensures HeapInv(Publish(h, p, n, t))
  {
    var k := Publish(h, p, n, t);
    PublishEnds(h, p, n);
    PublishBasics(h, p, n, t);
    PublishOrder(h, p, n, t);
    PublishSorted(h, p, n, t);
    PublishFrozen(h, p, n, t);
  }

  lemma PublishBasics(h: Heap, p: NodeId, n: NodeId, t: Tid)
    requires Ends(h) && Kinds(h) && Marks(h) && CanPublish(h, p, n, t) && p != n && p != TAIL && n != TAIL && n != ROOT
    ensures var k := Publish(h, p, n, t); Ends(k) && Kinds(k) && Marks(k)
  {
    hide OrdinaryKey, OrdinaryKeyForm, SentinelKeyForm, Same;
    var k := Publish(h, p, n, t);
    assert forall x :: x in k.nodes && x != p && x != n ==> k.nodes[x] == h.nodes[x];
    assert Kinds(k) by {
      assert KeyOk(p, h.nodes[p]) && KeyOk(n, h.nodes[n]);
    }
    assert Marks(k) by {
      assert forall x :: Un(k, x) ==> Un(h, x);
    }
  }

  lemma PublishEnds(h: Heap, p: NodeId, n: NodeId)
    requires Ends(h) && Kinds(h) && Lk(h, p) && Nx(h, p) == Nx(h, n)
    requires n in h.nodes && h.nodes[n].status.Private?
    requires Nx(h, n) in h.nodes && h.nodes[p].key <= h.nodes[n].key < h.nodes[Nx(h, n)].key
    ensures n != ROOT && n != TAIL && p != n && p != TAIL
  {
    assert KeyOk(Nx(h, n), h.nodes[Nx(h, n)]);
  }

  lemma PublishOrder(h: Heap, p: NodeId, n: NodeId, t: Tid)
    requires CanPublish(h, p, n, t) && p != n && p != TAIL
    requires Births(h) && Links(h) && Unique(h)
    ensures var k := Publish(h, p, n, t); Births(k) && Links(k) && Unique(k)
  {
    var k := Publish(h, p, n, t);
    assert Births(k) by {
      assert forall x, y :: x != n && y != n && SameBirth(k, x, y) ==> SameBirth(h, x, y);
    }
    assert Links(k) by {
      forall x | Lk(k, x) && x != TAIL
        ensures Lk(k, Nx(k, x)) && Lt(k, x, Nx(k, x))
      {
        if x != n && x != p {
          assert Nx(k, x) == Nx(h, x) && Lk(h, Nx(h, x)) && Lt(h, x, Nx(h, x));
        }
      }
    }
    assert Unique(k) by {
      forall x, y | Lk(k, x) && Lk(k, y) && Same(k, x, y)
        ensures x == y
      {
        assert Same(h, x, y) && (x != n ==> Lk(h, x)) && (y != n ==> Lk(h, y));
        assert x == n && y != n ==> Same(h, y, n);
      }
    }
  }

  lemma PublishSorted(h: Heap, p: NodeId, n: NodeId, t: Tid)
    requires CanPublish(h, p, n, t) && p != n && p != TAIL
    requires Births(h) && Links(h) && Sorted(h)
    ensures Sorted(Publish(h, p, n, t))
  {
    var k := Publish(h, p, n, t);
    var c := Nx(h, n);
    assert Lt(k, p, n) && Lt(k, n, c);
    forall x, y | Lk(k, x) && x != TAIL && Lk(k, y) && Lt(k, x, y)
      ensures Le(k, Nx(k, x), y)
    {
      if x == n || x == p {
        if y != n {
          assert Lk(h, y) && Lt(h, p, y) && Le(h, Nx(h, p), y);
        }
      } else if y == n {
        Total(h, x, p);
        assert Lt(h, p, x) ==> Le(h, Nx(h, p), x);
        if Lt(h, x, p) {
          assert Le(h, Nx(h, x), p);
        }
      } else {
        assert Lt(h, x, y) && Le(h, Nx(h, x), y);
      }
    }
  }

  lemma PublishFrozen(h: Heap, p: NodeId, n: NodeId, t: Tid)
    requires CanPublish(h, p, n, t) && p != n
    requires FrozenLinks(h) && FrozenSorted(h) && FrozenUnique(h) && Marks(h)
    ensures var k := Publish(h, p, n, t); FrozenLinks(k) && FrozenSorted(k) && FrozenUnique(k)
  {
    var k := Publish(h, p, n, t);
    assert FrozenLinks(k) by {
      forall x | Un(k, x)
        ensures Alive(k, Nx(k, x), k.nodes[x].died) && Lt(k, x, Nx(k, x))
      {
        assert Un(h, x) && Nx(k, x) == Nx(h, x) && Alive(h, Nx(h, x), h.nodes[x].died) && Lt(h, x, Nx(h, x));
      }
    }
    assert FrozenSorted(k) by {
      forall x, y | Un(k, x) && Alive(k, y, k.nodes[x].died) && Lt(k, x, y)
        ensures Le(k, Nx(k, x), y)
      {
        assert Un(h, x) && Alive(h, y, h.nodes[x].died) && Lt(h, x, y) && Le(h, Nx(h, x), y);
        assert Alive(h, Nx(h, x), h.nodes[x].died);
      }
    }
    assert FrozenUnique(k) by {
      forall x, y | Un(k, x) && Alive(k, y, k.nodes[x].died)
        ensures !Same(k, x, y)
      {
        assert Un(h, x) && Alive(h, y, h.nodes[x].died) && !Same(h, x, y);
      }
    }
  }

  // ----- taking a node out -----

  lemma UnlinkKeeps(h: Heap, p: NodeId, c: NodeId, succ: NodeId, t: Tid)
    requires HeapInv(h) && CanUnlink(h, p, c, succ)
    ensures HeapInv(Unlink(h, p, c, succ, t))
  {
    var k := Unlink(h, p, c, succ, t);
    UnlinkEnds(h, p, c, succ);
    UnlinkBasics(h, p, c, succ, t);
    UnlinkOrder(h, p, c, succ, t);
    UnlinkSorted(h, p, c, succ, t);
    UnlinkFrozen(h, p, c, succ, t);
  }

  lemma UnlinkBasics(h: Heap, p: NodeId, c: NodeId, succ: NodeId, t: Tid)
    requires Ends(h) && Kinds(h) && Marks(h) && Births(h) && CanUnlink(h, p, c, succ) && Lk(h, c) && p != c && c != ROOT
    requires c != TAIL
    ensures var k := Unlink(h, p, c, succ, t); Ends(k) && Kinds(k) && Marks(k)
  {
    hide OrdinaryKey, OrdinaryKeyForm, SentinelKeyForm;
    var k := Unlink(h, p, c, succ, t);
    assert forall x :: x in k.nodes && x != p && x != c ==> k.nodes[x] == h.nodes[x];
    assert Kinds(k) by {
      assert KeyOk(p, h.nodes[p]) && KeyOk(c, h.nodes[c]);
    }
    assert Marks(k) by {
      assert forall x :: Un(k, x) && x != c ==> Un(h, x);
    }
  }

  lemma UnlinkEnds(h: Heap, p: NodeId, c: NodeId, succ: NodeId)
    requires Ends(h) && Kinds(h) && Links(h) && CanUnlink(h, p, c, succ)
    ensures p != c && c != ROOT && c != TAIL && Lk(h, c) && Lt(h, p, c) && Lk(h, Nx(h, c)) && Lt(h, c, Nx(h, c))
  {
    assert Nx(h, p) == c;
    assert KeyOk(c, h.nodes[c]) && KeyOk(ROOT, h.nodes[ROOT]);
  }

  lemma UnlinkOrder(h: Heap, p: NodeId, c: NodeId, succ: NodeId, t: Tid)
    requires CanUnlink(h, p, c, succ) && p != c && c != TAIL && Lk(h, c) && Lt(h, p, c)
    requires Births(h) && Links(h) && Unique(h) && Sorted(h)
    ensures var k := Unlink(h, p, c, succ, t); Births(k) && Links(k) && Unique(k)
  {
    var k := Unlink(h, p, c, succ, t);
    assert Births(k) by {
      assert forall x, y :: SameBirth(k, x, y) ==> SameBirth(h, x, y);
    }
    assert Links(k) by {
      forall x | Lk(k, x) && x != TAIL
        ensures Lk(k, Nx(k, x)) && Lt(k, x, Nx(k, x))
      {
        assert Lk(h, Nx(h, x)) && Lt(h, x, Nx(h, x));
        if x == p {
          assert Lk(h, Nx(h, c)) && Lt(h, c, Nx(h, c));
        } else {
          SoleSuccessor(h, p, c, x);
        }
      }
    }
    assert Unique(k) by {
      assert forall x, y :: Lk(k, x) && Lk(k, y) && Same(k, x, y) ==> Same(h, x, y);
    }
  }

  /** A node is the successor of one linked node only. */
  lemma SoleSuccessor(h: Heap, p: NodeId, c: NodeId, x: NodeId)
    requires Births(h) && Links(h) && Sorted(h)
    requires Lk(h, p) && p != TAIL && Nx(h, p) == c && Lk(h, x) && x != TAIL && x != p
    ensures Nx(h, x) != c
  {
    assert Lt(h, p, Nx(h, p)) && Lt(h, x, Nx(h, x));
    Total(h, x, p);
    if Lt(h, x, p) {
      assert Le(h, Nx(h, x), p);
    } else {
      assert Le(h, Nx(h, p), x);
    }
  }

  lemma UnlinkSorted(h: Heap, p: NodeId, c: NodeId, succ: NodeId, t: Tid)
    requires CanUnlink(h, p, c, succ) && p != c && c != TAIL && Lk(h, c) && Lt(h, p, c)
    requires Links(h) && Sorted(h)
    ensures Sorted(Unlink(h, p, c, succ, t))
  {
    var k := Unlink(h, p, c, succ, t);
    assert Lt(h, c, Nx(h, c));
    forall x, y | Lk(k, x) && x != TAIL && Lk(k, y) && Lt(k, x, y)
      ensures Le(k, Nx(k, x), y)
    {
      assert Lt(h, x, y) && Le(h, Nx(h, x), y);
      if x == p {
        assert Lt(h, c, y) && Le(h, Nx(h, c), y);
      }
    }
  }

  lemma UnlinkFrozen(h: Heap, p: NodeId, c: NodeId, succ: NodeId, t: Tid)
    requires CanUnlink(h, p, c, succ) && p != c && c != TAIL && Lk(h, c) && Marks(h)
    requires Births(h) && Links(h) && Sorted(h) && Unique(h) && FrozenLinks(h) && FrozenSorted(h) && FrozenUnique(h)
    ensures var k := Unlink(h, p, c, succ, t); FrozenLinks(k) && FrozenSorted(k) && FrozenUnique(k)
  {
    var k := Unlink(h, p, c, succ, t);
    assert FrozenLinks(k) by {
      forall x | Un(k, x)
        ensures Alive(k, Nx(k, x), k.nodes[x].died) && Lt(k, x, Nx(k, x))
      {
        assert Nx(k, x) == Nx(h, x) && Lt(h, x, Nx(h, x));
      }
    }
    assert FrozenSorted(k) by {
      forall x, y | Un(k, x) && Alive(k, y, k.nodes[x].died) && Lt(k, x, y)
        ensures Le(k, Nx(k, x), y)
      {
        assert Nx(k, x) == Nx(h, x) && Lt(h, x, y);
        if x != c {
          assert Un(h, x) && Alive(h, y, h.nodes[x].died);
        }
        assert Le(h, Nx(h, x), y);
      }
    }
    assert FrozenUnique(k) by {
      forall x, y | Un(k, x) && Alive(k, y, k.nodes[x].died)
        ensures !Same(k, x, y)
      {
        if x != c {
          assert Un(h, x) && Alive(h, y, h.nodes[x].died);
        }
        assert !Same(h, x, y);
      }
    }
  }
}
