/**
  The split-ordered key space (src/BucketList.h:19-27, 176-199 and src/HashSetLockFree.h:57-61,
  110-112): keys are bit-reversed hash codes, so that the elements of a bucket stay contiguous, right
  behind the bucket's sentinel, whichever power of two the number of buckets is.
*/
module SplitOrder {
  import opened Bits

  const WORD_BITS: nat := 64
  const CODE_BITS: nat := 62           // what kKeyMask keeps of a hash code
  const TAIL_KEY: nat := 0xFFFF_FFFF_FFFF_FFFF

  ghost predicate SentinelKeyForm(k: nat) { k % 4 == 0 && k < TAIL_KEY }

  ghost predicate OrdinaryKeyForm(k: nat) { k % 4 == 1 && k < TAIL_KEY }

  /** The word that is reversed for an ordinary key: the masked code with kOrdinaryKeyBit set. */
  function OrdinaryWord(code: nat): nat { Low(code, CODE_BITS) + 2 * Pow2(CODE_BITS) }

  /** MakeOrdinaryKey, for an element whose hash code is `code`. */
  function OrdinaryKey(code: nat): (k: nat)
    ensures OrdinaryKeyForm(k)
  {
    WordSize();
    KeyForm(code, 2, CODE_BITS);
    Rev(WORD_BITS, OrdinaryWord(code))
  }

  /** MakeSentinelKey, for a bucket index. */
  function SentinelKey(index: nat): (k: nat)
    ensures SentinelKeyForm(k)
  {
    WordSize();
    KeyForm(index, 0, CODE_BITS);
    Rev(WORD_BITS, Low(index, CODE_BITS))
  }

  lemma WordSize()
    ensures Pow2(WORD_BITS) == TAIL_KEY + 1
  {
    assert Pow2(4) == 0x10;
    assert Pow2(8) == 0x100 by { Pow2Add(4, 4); }
    assert Pow2(16) == 0x1_0000 by { Pow2Add(8, 8); }
    assert Pow2(32) == 0x1_0000_0000 by { Pow2Add(16, 16); }
    assert Pow2(64) == 0x1_0000_0000_0000_0000 by { Pow2Add(32, 32); }
  }

  /** The bottom two bits of a reversed word are its top two, swapped. */
  lemma BottomBits(n: nat, j: nat)
    ensures Rev(j + 2, n) % 4 == Rev(2, Shr(n, j))
  {
    RevSplit(j, j + 2, n);
    Mod4(Rev(j, n), Rev(2, Shr(n, j)));
  }

  lemma Mod4(a: nat, b: nat)
    requires b < Pow2(2)
    ensures (a * Pow2(2) + b) % 4 == b
  {
    assert Pow2(2) == 4;
  }

  /** A word made of the low bits of a code and something above them. */
  lemma TopBits(code: nat, top: nat, j: nat)
    ensures Shr(Low(code, j) + top * Pow2(j), j) == top
  {
    ShrLow(code, j);
    ShrLow(Low(code, j) + top * Pow2(j), j);
    DivMod(Low(code, j) + top * Pow2(j), top, Pow2(j), Low(code, j));
  }

  /** What kKeyMask and kOrdinaryKeyBit put in the top two bits ends up in the bottom two. */
  lemma KeyForm(code: nat, top: nat, j: nat)
    requires top == 0 || top == 2
    ensures Rev(j + 2, Low(code, j) + top * Pow2(j)) % 4 == if top == 2 then 1 else 0
  {
    TopBits(code, top, j);
    BottomBits(Low(code, j) + top * Pow2(j), j);
    assert Rev(2, top) == if top == 2 then 1 else 0;
  }

  // ----- buckets are intervals of keys -----

  /** The bucket of a hash code when there are `Pow2(k)` buckets: its low `k` bits, which are its
      remainder by the capacity. */
  function BucketOf(code: nat, k: nat): nat { Low(code, k) }

  lemma BucketIsRemainder(code: nat, k: nat)
    ensures BucketOf(code, k) == code % Pow2(k) < Pow2(k)
  {
    ShrLow(code, k);
  }

  /** The keys that belong to bucket `b` when there are `Pow2(k)` buckets. */
  ghost predicate InBucket(key: nat, b: nat, k: nat)
    requires k <= WORD_BITS
  {
    SentinelKey(b) <= key < SentinelKey(b) + Pow2(WORD_BITS - k)
  }

  /** A reversed word lies in the interval of bucket `b` exactly when its low bits are `b`. */
  lemma ReversedInBucket(n: nat, b: nat, k: nat)
    requires k <= CODE_BITS && b < Pow2(k)
    ensures InBucket(Rev(WORD_BITS, n), b, k) <==> Low(n, k) == b
  {
    var unit := Pow2(WORD_BITS - k);
    LowBelow(b, k);
    Pow2Monotone(k, CODE_BITS);
    LowBelow(b, CODE_BITS);
    RevSplit(k, WORD_BITS, n);
    RevSplit(k, WORD_BITS, b);
    RevZero(WORD_BITS - k);
    assert SentinelKey(b) == Rev(k, b) * unit;
    SameMultiple(Rev(k, n), Rev(k, b), unit, Rev(WORD_BITS - k, Shr(n, k)));
    if Low(n, k) == b {
      RevLow(k, n);
    } else if Rev(k, n) == Rev(k, b) {
      RevInjective(k, n, b);
    }
  }

  lemma SameMultiple(a: nat, b: nat, unit: nat, rest: nat)
    requires rest < unit
    ensures b * unit <= a * unit + rest < b * unit + unit <==> a == b
  {
    SmallMultiple(a - b, unit);
    assert (a - b) * unit == a * unit - b * unit;
  }

  lemma LowBelow(b: nat, k: nat)
    requires b < Pow2(k)
    ensures Low(b, k) == b && Shr(b, k) == 0
  {
    ShrLow(b, k);
    DivMod(b, 0, Pow2(k), b);
  }

  /** The low bits of a word do not see what is added above them. */
  lemma HalfOfSum(n: nat, a: nat, j: nat)
    requires j > 0
    ensures (Low(n, j) + a * Pow2(j)) / 2 == Low(n / 2, j - 1) + a * Pow2(j - 1)
    ensures (Low(n, j) + a * Pow2(j)) % 2 == n % 2
  {
    Doubled(a, Pow2(j - 1));
  }

  lemma {:induction false} LowOfSum(n: nat, a: nat, j: nat, k: nat)
    requires k <= j
    ensures Low(Low(n, j) + a * Pow2(j), k) == Low(n, k)
  {
    if k > 0 {
      HalfOfSum(n, a, j);
      LowOfSum(n / 2, a, j - 1, k - 1);
    }
  }

  /**
    The split-order theorem, for every hash code and every power-of-two capacity the set allows: the
    sentinel of the element's bucket comes strictly before the element, the element before the tail,
    and the keys of bucket `b` -- elements and finer sentinels alike -- are exactly those in one
    interval that starts at the sentinel of `b`. So whatever capacity a thread last read, walking from
    the sentinel it picked passes nothing but keys of that bucket before it reaches the element.
  */
  lemma SplitOrderTheorem(code: nat, k: nat, c: nat, i: nat, b: nat)
    requires k <= CODE_BITS && i < Pow2(CODE_BITS) && b < Pow2(k)
    ensures SentinelKey(BucketOf(code, k)) < OrdinaryKey(code) < TAIL_KEY
    ensures InBucket(OrdinaryKey(c), b, k) <==> BucketOf(c, k) == b
    ensures InBucket(SentinelKey(i), b, k) <==> BucketOf(i, k) == b
  {
    OrdinaryInBucket(c, b, k);
    SentinelInBucket(i, b, k);
    SentinelBeforeElement(code, k);
  }

  lemma SentinelBeforeElement(code: nat, k: nat)
    requires k <= CODE_BITS
    ensures SentinelKey(BucketOf(code, k)) < OrdinaryKey(code)
  {
    BucketIsRemainder(code, k);
    OrdinaryInBucket(code, BucketOf(code, k), k);
    assert OrdinaryKey(code) % 4 != SentinelKey(BucketOf(code, k)) % 4;
  }

  lemma SentinelInBucket(i: nat, b: nat, k: nat)
    requires k <= CODE_BITS && i < Pow2(CODE_BITS) && b < Pow2(k)
    ensures InBucket(SentinelKey(i), b, k) <==> BucketOf(i, k) == b
  {
    LowBelow(i, CODE_BITS);
    ReversedInBucket(i, b, k);
  }

  lemma OrdinaryInBucket(c: nat, b: nat, k: nat)
    requires k <= CODE_BITS && b < Pow2(k)
    ensures InBucket(OrdinaryKey(c), b, k) <==> BucketOf(c, k) == b
  {
    var n := OrdinaryWord(c);
    assert Low(n, k) == BucketOf(c, k) by {
      LowOfSum(c, 2, CODE_BITS, k);
    }
    assert OrdinaryKey(c) == Rev(WORD_BITS, n);
    ReversedInBucket(n, b, k);
  }

  /** A walk that starts at the sentinel and has not passed the element has only met its bucket. */
  lemma OnlyBucketBetween(code: nat, k: nat, key: nat)
    requires k <= CODE_BITS
    requires SentinelKey(BucketOf(code, k)) <= key <= OrdinaryKey(code)
    ensures InBucket(key, BucketOf(code, k), k)
  {
    BucketIsRemainder(code, k);
    OrdinaryInBucket(code, BucketOf(code, k), k);
  }

  /** Different buckets have different sentinel keys. */
  lemma SentinelKeyInjective(i: nat, j: nat)
    requires i < Pow2(CODE_BITS) && j < Pow2(CODE_BITS)
    requires SentinelKey(i) == SentinelKey(j)
    ensures i == j
  {
    LowBelow(i, CODE_BITS);
    LowBelow(j, CODE_BITS);
    ReversedInBucket(i, j, CODE_BITS);
  }

  // ----- parent buckets -----

  /** std::bit_floor */
  function BitFloor(n: nat): (p: nat)
    requires n > 0
    ensures p <= n < 2 * p
  {
    if n == 1 then 1 else 2 * BitFloor(n / 2)
  }

  /** GetParentIndex */
  function ParentIndex(index: nat): (p: nat)
    requires index > 0
    ensures p < index
  {
    index - BitFloor(index)
  }

  lemma {:induction false} BitFloorIsPower(n: nat) returns (j: nat)
    requires n > 0
    ensures BitFloor(n) == Pow2(j) && Pow2(j) <= n < Pow2(j + 1)
  {
    if n == 1 {
      j := 0;
    } else {
      var i := BitFloorIsPower(n / 2);
      j := i + 1;
    }
  }

  /**
    A bucket's parent is the bucket its elements were in before the capacity last grew past it, and
    its sentinel lies strictly before the bucket's own -- so a sentinel can be spliced in by walking
    from the parent's.
  */
  lemma ParentComesFirst(index: nat)
    requires 0 < index < Pow2(CODE_BITS)
    ensures ParentIndex(index) == index % BitFloor(index)
    ensures SentinelKey(ParentIndex(index)) < SentinelKey(index)
  {
    var j := BitFloorIsPower(index);
    var p := ParentIndex(index);
    DivMod(index, 1, Pow2(j), p);
    if j >= CODE_BITS {
      Pow2Monotone(CODE_BITS, j);
    }
    LowBelow(index, CODE_BITS);
    BucketIsRemainder(index, j);
    ReversedInBucket(index, p, j);
    if SentinelKey(p) == SentinelKey(index) {
      SentinelKeyInjective(p, index);
    }
  }
}
