/**
  The chained hash tables of the lock-based sets: a sequence of buckets, each holding the elements whose
  hash code leaves the bucket's index as remainder, and the rehash that all of these sets share.
*/
module Tables {
  import opened Common

  type Bucket = seq<Elem>
  type Table = seq<Bucket>

  /** The load factor, kLoadFactorNumerator over kLoadFactorDenominator, of a capacity. */
  function Limit(capacity: nat): nat { capacity * 3 / 4 }

  /** A size is over the limit exactly when it is more than three quarters of the capacity. */
  lemma LimitIsThreeQuarters(n: int, c: nat)
    ensures n > Limit(c) <==> 4 * n > 3 * c
  {
  }

  /** Doubling a capacity makes room for one more element at least. */
  lemma RoomForOneMore(c: nat, d: nat)
    ensures c <= d ==> Limit(c) <= Limit(d)
    ensures Limit(c) <= Limit(2 * c) && (c > 0 ==> Limit(c) + 1 <= Limit(2 * c))
  {
  }

  ghost predicate NoDuplicates(b: Bucket) { forall i, j :: 0 <= i < j < |b| ==> b[i] != b[j] }

  /** Every element is in the bucket for its hash code, once. */
  ghost predicate Placed(table: Table) {
    && |table| > 0
    && (forall i :: 0 <= i < |table| ==> NoDuplicates(table[i]))
    && forall i, e {:trigger e in table[i]} :: 0 <= i < |table| && e in table[i] ==> e.code % |table| == i
  }

  ghost function Elements(table: Table): set<Elem> {
    set i, e | 0 <= i < |table| && e in table[i] :: e
  }

  /** An element is in the table exactly when it is in the one bucket it can be in. */
  lemma InItsBucket(table: Table, e: Elem)
    requires Placed(table)
    ensures e.code % |table| < |table|
    ensures e in Elements(table) <==> e in table[e.code % |table|]
  {
    assert e in Elements(table) ==> exists i :: 0 <= i < |table| && e in table[i];
  }

  lemma EmptyTable(capacity: nat)
    requires capacity > 0
    ensures var table := seq(capacity, _ => []); Placed(table) && Elements(table) == {}
  {
  }

  lemma Inserted(table: Table, e: Elem)
    requires Placed(table) && e !in Elements(table)
    ensures var i := e.code % |table|; var to := table[i := table[i] + [e]];
            Placed(to) && Elements(to) == Elements(table) + {e}
  {
    InItsBucket(table, e);
    var i := e.code % |table|;
    var to := table[i := table[i] + [e]];
    assert e in to[i];
    forall x | x in Elements(table)
      ensures x in Elements(to)
    {
      var j :| 0 <= j < |table| && x in table[j];
      assert x in to[j];
    }
    forall x | x in Elements(to)
      ensures x in Elements(table) + {e}
    {
      var j :| 0 <= j < |to| && x in to[j];
      assert j != i ==> x in table[j];
      assert j == i ==> x in table[i] || x == e;
    }
  }

  /** `std::ranges::find`: the index of the first occurrence, or the length. */
  function IndexOf(b: Bucket, e: Elem): (k: nat)
    ensures k <= |b| && (k < |b| ==> b[k] == e) && (k == |b| <==> e !in b)
  {
    if b == [] then 0 else if b[0] == e then 0 else 1 + IndexOf(b[1..], e)
  }

  /** The bucket without its `k`th element, as `erase` leaves it. */
  function Erased(b: Bucket, k: nat): Bucket
    requires k < |b|
  {
    b[..k] + b[k + 1..]
  }

  lemma ErasedBucket(b: Bucket, k: nat, x: Elem)
    requires k < |b| && NoDuplicates(b)
    ensures NoDuplicates(Erased(b, k)) && (x in Erased(b, k) <==> x in b && x != b[k])
  {
    var c := Erased(b, k);
    assert forall j :: 0 <= j < |c| ==> c[j] == if j < k then b[j] else b[j + 1];
    if x in b && x != b[k] {
      var j :| 0 <= j < |b| && b[j] == x;
      assert c[if j < k then j else j - 1] == x;
    }
  }

  lemma Removed(table: Table, e: Elem, k: nat)
    requires Placed(table)
    requires var i := e.code % |table|; k < |table[i]| && table[i][k] == e
    ensures var i := e.code % |table|; var to := table[i := Erased(table[i], k)];
            Placed(to) && e in Elements(table) && Elements(to) == Elements(table) - {e}
  {
    hide Erased, NoDuplicates;
    var i := e.code % |table|;
    var to := table[i := Erased(table[i], k)];
    forall x
      ensures NoDuplicates(to[i]) && (x in to[i] <==> x in table[i] && x != e)
    {
      ErasedBucket(table[i], k, x);
    }
    assert e in table[i];
    forall x
      ensures x in Elements(to) <==> x in Elements(table) && x != e
    {
      if x in Elements(table) && x != e {
        var j :| 0 <= j < |table| && x in table[j];
        assert x in to[j];
      }
      if x in Elements(to) {
        var j :| 0 <= j < |to| && x in to[j];
        assert x in table[j];
      }
    }
  }

  // ----- rehashing -----

  /** The elements in the order in which the rehash loops visit them. */
  function Flat(table: Table): seq<Elem> {
    if table == [] then [] else Flat(table[..|table| - 1]) + table[|table| - 1]
  }

  /** Those of `visited` that belong in bucket `h` of `capacity`, in order. */
  function Selected(visited: seq<Elem>, capacity: nat, h: nat): (b: Bucket)
    requires capacity > 0
  {
    if visited == [] then []
    else
      var last := visited[|visited| - 1];
      var before := Selected(visited[..|visited| - 1], capacity, h);
      if last.code % capacity == h then before + [last] else before
  }

  function Rehash(table: Table, capacity: nat): (to: Table)
    requires capacity > 0
    ensures |to| == capacity
  {
    seq(capacity, h requires 0 <= h < capacity => Selected(Flat(table), capacity, h))
  }

  lemma {:induction false} InSelected(visited: seq<Elem>, capacity: nat, h: nat, e: Elem)
    requires capacity > 0
    ensures e in Selected(visited, capacity, h) <==> e in visited && e.code % capacity == h
  {
    if visited != [] {
      var init, last := visited[..|visited| - 1], visited[|visited| - 1];
      InSelected(init, capacity, h, e);
      assert visited == init + [last];
    }
  }

  lemma {:induction false} SelectedOnce(visited: seq<Elem>, capacity: nat, h: nat)
    requires capacity > 0 && NoDuplicates(visited)
    ensures NoDuplicates(Selected(visited, capacity, h))
  {
    if visited != [] {
      var init, last := visited[..|visited| - 1], visited[|visited| - 1];
      SelectedOnce(init, capacity, h);
      InSelected(init, capacity, h, last);
      assert last !in init;
    }
  }

  lemma {:induction false} InFlat(table: Table, e: Elem)
    ensures e in Flat(table) <==> exists i :: 0 <= i < |table| && e in table[i]
  {
    if table != [] {
      var init := table[..|table| - 1];
      InFlat(init, e);
      assert forall i :: 0 <= i < |init| ==> init[i] == table[i];
    }
  }

  /** Buckets without duplicates that share no element. */
  ghost predicate Apart(table: Table) {
    && (forall i :: 0 <= i < |table| ==> NoDuplicates(table[i]))
    && forall i, j, e {:trigger e in table[i], e in table[j]} ::
         0 <= i < |table| && 0 <= j < |table| && e in table[i] && e in table[j] ==> i == j
  }

  lemma {:induction false} FlatOnce(table: Table)
    requires Apart(table)
    ensures NoDuplicates(Flat(table))
  {
    if table != [] {
      var n := |table| - 1;
      var init := table[..n];
      assert forall i :: 0 <= i < |init| ==> init[i] == table[i];
      FlatOnce(init);
      forall e | e in Flat(init)
        ensures e !in table[n]
      {
        InFlat(init, e);
      }
      Joined(Flat(init), table[n]);
    }
  }

  lemma Joined(a: seq<Elem>, b: seq<Elem>)
    requires NoDuplicates(a) && NoDuplicates(b) && forall e :: e in a ==> e !in b
    ensures NoDuplicates(a + b)
  {
    var c := a + b;
    forall i, j | 0 <= i < j < |c|
      ensures c[i] != c[j]
    {
      if i < |a| <= j {
        assert c[i] in a && c[j] in b;
      }
    }
  }

  /** Rehashing puts exactly the old elements, once each, where the new capacity wants them. */
  lemma RehashKeeps(table: Table, capacity: nat)
    requires Placed(table) && capacity > 0
    ensures Placed(Rehash(table, capacity)) && Elements(Rehash(table, capacity)) == Elements(table)
  {
    hide Flat, Selected, NoDuplicates;
    var to := Rehash(table, capacity);
    FlatOnce(table);
    forall h | 0 <= h < capacity
      ensures NoDuplicates(to[h])
    {
      SelectedOnce(Flat(table), capacity, h);
    }
    forall h, e | 0 <= h < capacity
      ensures e in to[h] <==> e in Flat(table) && e.code % capacity == h
    {
      InSelected(Flat(table), capacity, h, e);
    }
    forall e
      ensures e in Elements(to) <==> e in Elements(table)
    {
      InFlat(table, e);
      assert e in Flat(table) ==> e in to[e.code % capacity];
    }
  }
}
