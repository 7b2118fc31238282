/** HashSetSequential (src/HashSetSequential.h): a hash table on the heap, updated in place. */
module SequentialSet {
  import opened Common
  import opened Tables

  /** `std::ranges::find`: the index of the first occurrence, or the length. */
  method Find(bucket: Bucket, e: Elem) returns (k: nat)
    ensures k <= |bucket| && e !in bucket[..k] && (k < |bucket| ==> bucket[k] == e)
  {
    k := 0;
    while k < |bucket| && bucket[k] != e
      invariant k <= |bucket| && e !in bucket[..k]
    {
      k := k + 1;
    }
  }

  /** What the rehash has built once it has visited the elements of `visited`. */
  ghost predicate Built(to: Table, visited: seq<Elem>) {
    |to| > 0 && forall h :: 0 <= h < |to| ==> to[h] == Selected(visited, |to|, h)
  }

  lemma BuiltOne(to: Table, visited: seq<Elem>, e: Elem)
    requires Built(to, visited)
    ensures var h := e.code % |to|; Built(to[h := to[h] + [e]], visited + [e])
  {
    var h := e.code % |to|;
    var next := to[h := to[h] + [e]];
    var all := visited + [e];
    assert all[..|all| - 1] == visited;
    forall i | 0 <= i < |next|
      ensures next[i] == Selected(all, |next|, i)
    {
      assert to[i] == Selected(visited, |to|, i);
    }
  }

  lemma BuiltNone(to: Table, table: Table)
    requires |to| > 0 && forall h :: 0 <= h < |to| ==> to[h] == []
    ensures Built(to, Flat(table[..0]))
  {
  }

  lemma PlacedIsTable(table: Table)
    requires Placed(table)
    ensures |table| > 0
  {
  }

  lemma BuiltAll(to: Table, table: Table)
    requires Built(to, Flat(table))
    ensures to == Rehash(table, |to|)
  {
  }

  lemma FlatNext(table: Table, i: nat)
    requires i < |table|
    ensures Flat(table[..i + 1]) == Flat(table[..i]) + table[i]
  {
    assert table[..i + 1][..i] == table[..i];
  }

  class HashSetSequential {
    var table: array<Bucket>
    var setSize: nat

    ghost predicate Valid()
      reads this, table
    {
      && Placed(table[..])
      && setSize == |Elements(table[..])|
      && 4 * setSize <= 3 * table.Length
    }

    ghost function Contents(): set<Elem>
      reads this, table
    {
      Elements(table[..])
    }

    constructor (initialCapacity: nat)
      ensures Valid() && fresh(table) && Contents() == {}
      ensures table.Length == if initialCapacity == 0 then 1 else initialCapacity
    {
      var capacity := if initialCapacity < 1 then 1 else initialCapacity;
      table := new Bucket[capacity](_ => []);
      setSize := 0;
      new;
      EmptyTable(capacity);
      assert table[..] == seq(capacity, _ => []);
    }

    predicate Policy()
      reads this
    {
      setSize > Limit(table.Length)
    }

    /**
      Adds `e` unless it is there. The table grows exactly when the load factor, three quarters, would be
      exceeded, to twice its size, and the load factor holds afterwards.
    */
    method Add(e: Elem) returns (added: bool)
      requires Valid()
      modifies this, table
      ensures Valid() && (table == old(table) || fresh(table))
      ensures added <==> e !in old(Contents())
      ensures Contents() == old(Contents()) + {e}
      ensures table.Length == if 4 * |Contents()| > 3 * old(table.Length) then 2 * old(table.Length)
              else old(table.Length)
      ensures !added ==> table == old(table) && table[..] == old(table[..])
    {
      hide Elements;
      InItsBucket(table[..], e);
      var h := e.code % table.Length;
      var bucket := table[h];
      var k := Find(bucket, e);
      if k != |bucket| {
        return false;
      }
      Inserted(table[..], e);
      ghost var to := table[..][h := bucket + [e]];
      table[h] := bucket + [e];
      assert table[..] == to;
      setSize := setSize + 1;
      LimitIsThreeQuarters(setSize, table.Length);
      if Policy() {
        Resize();
      }
      added := true;
    }

    /** Removes `e` if it is there; the table never shrinks. */
    method Remove(e: Elem) returns (removed: bool)
      requires Valid()
      modifies this`setSize, table
      ensures Valid()
      ensures removed <==> e in old(Contents())
      ensures Contents() == old(Contents()) - {e}
      ensures !removed ==> table[..] == old(table[..])
    {
      InItsBucket(table[..], e);
      var h := e.code % table.Length;
      var bucket := table[h];
      var k := Find(bucket, e);
      if k == |bucket| {
        return false;
      }
      Removed(table[..], e, k);
      ghost var to := table[..][h := Erased(bucket, k)];
      table[h] := Erased(bucket, k);
      assert table[..] == to;
      setSize := setSize - 1;
      removed := true;
    }

    method Contains(e: Elem) returns (found: bool)
      requires Valid()
      ensures found <==> e in Contents()
    {
      InItsBucket(table[..], e);
      var bucket := table[e.code % table.Length];
      var k := Find(bucket, e);
      found := k != |bucket|;
    }

    method Size() returns (n: nat)
      requires Valid()
      ensures n == |Contents()|
    {
      n := setSize;
    }

    /** Moves every element to a table of twice the size. */
    method Resize()
      requires Placed(table[..])
      modifies this`table
      ensures fresh(table) && table[..] == Rehash(old(table[..]), 2 * old(table.Length))
      ensures Placed(table[..]) && Contents() == old(Contents())
    {
      hide Flat, Built, Placed, Elements, Rehash;
      assert table.Length > 0 by { PlacedIsTable(table[..]); }
      var newCapacity := 2 * table.Length;
      var newTable := new Bucket[newCapacity](_ => []);
      ghost var from := table[..];
      var i := 0;
      BuiltNone(newTable[..], from);
      while i < table.Length
        invariant 0 <= i <= table.Length && table[..] == from
        invariant Built(newTable[..], Flat(from[..i]))
        modifies newTable
      {
        var bucket := table[i];
        var j := 0;
        assert Flat(from[..i]) + bucket[..0] == Flat(from[..i]);
        while j < |bucket|
          invariant 0 <= j <= |bucket| && table[..] == from
          invariant Built(newTable[..], Flat(from[..i]) + bucket[..j])
        {
          var e := bucket[j];
          var h := e.code % newCapacity;
          BuiltOne(newTable[..], Flat(from[..i]) + bucket[..j], e);
          assert bucket[..j] + [e] == bucket[..j + 1];
          ghost var to := newTable[..][h := newTable[h] + [e]];
          newTable[h] := newTable[h] + [e];
          assert newTable[..] == to;
          assert (Flat(from[..i]) + bucket[..j]) + [e] == Flat(from[..i]) + bucket[..j + 1];
          j := j + 1;
        }
        assert bucket[..j] == bucket;
        FlatNext(from, i);
        i := i + 1;
      }
      assert from[..i] == from;
      BuiltAll(newTable[..], from);
      RehashKeeps(from, newCapacity);
      table := newTable;
    }
  }
}
