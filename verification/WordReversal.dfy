/**
  ReverseBits and the key constructors on 64-bit words, as src/BucketList.h:19-27 and 192-199 compute
  them, and the proof that they compute the numbers `SplitOrder` reasons about.
*/
module WordReversal {
  import opened Bits
  import opened SplitOrder
  import opened Numerals

  const KEY_MASK: bv64 := 0x3FFF_FFFF_FFFF_FFFF
  const ORDINARY_KEY_BIT: bv64 := 0x8000_0000_0000_0000

  /** std::byteswap */
  function ByteSwap(n: bv64): bv64 {
    (n << 56) | ((n & 0xFF00) << 40) | ((n & 0xFF_0000) << 24) | ((n & 0xFF00_0000) << 8) |
    ((n >> 8) & 0xFF00_0000) | ((n >> 24) & 0xFF_0000) | ((n >> 40) & 0xFF00) | (n >> 56)
  }

  /** Swap neighbouring bits, then pairs, then nibbles, then bytes. */
  function ReverseBits(n: bv64): bv64 {
    var m1: bv64 := 0x5555_5555_5555_5555;
    var m2: bv64 := 0x3333_3333_3333_3333;
    var m4: bv64 := 0x0F0F_0F0F_0F0F_0F0F;
    var a := ((n >> 1) & m1) | ((n & m1) << 1);
    var b := ((a >> 2) & m2) | ((a & m2) << 2);
    var c := ((b >> 4) & m4) | ((b & m4) << 4);
    ByteSwap(c)
  }

  function MakeOrdinaryKey(hash: bv64): bv64 { ReverseBits((hash & KEY_MASK) | ORDINARY_KEY_BIT) }

  function MakeSentinelKey(code: bv64): bv64 { ReverseBits(code & KEY_MASK) }

  // ----- words as bit sequences, least significant bit first -----

  predicate Bit(n: bv64, i: bv6) { (n >> i) & 1 == 1 }

  function Index(i: nat): (p: bv6)
    requires i < 64
    ensures p as nat == i
  {
    if i == 0 then 0
    else
      Successor(Index(i - 1));
      Index(i - 1) + 1
  }

  lemma Successor(p: bv6)
    ensures p as nat < 63 ==> (p + 1) as nat == p as nat + 1
  {
  }

  predicate BitAt(n: bv64, i: nat)
    requires i < 64
  {
    Bit(n, Index(i))
  }

  function BitSeq(n: bv64): (s: seq<bool>)
    ensures |s| == 64
  {
    seq(64, i requires 0 <= i < 64 => BitAt(n, i))
  }

  /** The unsigned number a word stands for. */
  function ValueOf(n: bv64): nat { Value(BitSeq(n)) }

  // ----- the three words, bit by bit -----

  lemma ReversedBit(n: bv64, i: bv6)
    ensures Bit(ReverseBits(n), i) == Bit(n, 63 - i)
  {
  }

  lemma MirrorIndex(i: bv6, j: bv6)
    requires i as nat + j as nat == 63
    ensures j == 63 - i
  {
    assert (63 - i) as nat == 63 - i as nat;
    assert j == (j as nat) as bv6;
    assert 63 - i == ((63 - i) as nat) as bv6;
  }

  lemma KeyBits(hash: bv64, i: bv6)
    ensures Bit((hash & KEY_MASK) | ORDINARY_KEY_BIT, i) == if i < 62 then Bit(hash, i) else i == 63
    ensures Bit(hash & KEY_MASK, i) == (i < 62 && Bit(hash, i))
  {
  }

  lemma IndexOrder(i: bv6, j: bv6)
    ensures i < j <==> i as nat < j as nat
    ensures i == j <==> i as nat == j as nat
  {
  }

  lemma MirroredIndex(m: bv64, n: bv64, i: nat)
    requires i < 64
    requires forall p: bv6 :: Bit(m, p) == Bit(n, 63 - p)
    ensures BitAt(m, i) == BitAt(n, 63 - i)
  {
    var p, q := Index(i), Index(63 - i);
    MirrorIndex(p, q);
    assert Bit(m, p) == Bit(n, 63 - p);
  }

  lemma MirroredWord(m: bv64, n: bv64)
    requires forall p: bv6 :: Bit(m, p) == Bit(n, 63 - p)
    ensures BitSeq(m) == Backwards(BitSeq(n))
  {
    forall i: nat | i < 64
      ensures BitAt(m, i) == BitAt(n, 63 - i)
    {
      MirroredIndex(m, n, i);
    }
    MirroredSeq(BitSeq(m), BitSeq(n));
  }

  lemma ReversedSeq(n: bv64)
    ensures BitSeq(ReverseBits(n)) == Backwards(BitSeq(n))
  {
    forall p: bv6
      ensures Bit(ReverseBits(n), p) == Bit(n, 63 - p)
    {
      ReversedBit(n, p);
    }
    MirroredWord(ReverseBits(n), n);
  }

  lemma KeyIndex(hash: bv64, i: nat)
    requires i < 64
    ensures BitAt((hash & KEY_MASK) | ORDINARY_KEY_BIT, i) == if i < 62 then BitAt(hash, i) else i == 63
    ensures BitAt(hash & KEY_MASK, i) == (i < 62 && BitAt(hash, i))
  {
    var p := Index(i);
    KeyBits(hash, p);
    IndexOrder(p, 62);
    IndexOrder(p, 63);
  }

  lemma MaskedWord(m: bv64, hash: bv64, top: bool)
    requires forall i: nat :: i < 64 ==> BitAt(m, i) == if i < 62 then BitAt(hash, i) else top && i == 63
    ensures BitSeq(m) == BitSeq(hash)[..62] + [false, top]
  {
  }

  lemma MaskedSeqs(hash: bv64)
    ensures BitSeq((hash & KEY_MASK) | ORDINARY_KEY_BIT) == BitSeq(hash)[..62] + [false, true]
    ensures BitSeq(hash & KEY_MASK) == BitSeq(hash)[..62] + [false, false]
  {
    forall i: nat | i < 64
      ensures BitAt((hash & KEY_MASK) | ORDINARY_KEY_BIT, i) == if i < 62 then BitAt(hash, i) else i == 63
      ensures BitAt(hash & KEY_MASK, i) == (i < 62 && BitAt(hash, i))
    {
      KeyIndex(hash, i);
    }
    MaskedWord((hash & KEY_MASK) | ORDINARY_KEY_BIT, hash, true);
    MaskedWord(hash & KEY_MASK, hash, false);
  }

  /**
    ReverseBits takes bit `i` to position 63 - `i`, for all 64 bits; as a number that is `Rev`; and it undoes
    itself.
  */
  lemma ReverseBitsIsExact(n: bv64)
    ensures forall i: bv6 :: Bit(ReverseBits(n), i) == Bit(n, 63 - i)
    ensures ValueOf(ReverseBits(n)) == Rev(WORD_BITS, ValueOf(n))
    ensures ReverseBits(ReverseBits(n)) == n
  {
    forall i: bv6
      ensures Bit(ReverseBits(n), i) == Bit(n, 63 - i)
    {
      ReversedBit(n, i);
    }
    ReversedSeq(n);
    ValueBackwards(BitSeq(n));
  }

  /** The words that MakeOrdinaryKey and MakeSentinelKey return are the keys of `SplitOrder`. */
  lemma KeysAreSplitOrderKeys(hash: bv64)
    ensures ValueOf(MakeOrdinaryKey(hash)) == OrdinaryKey(ValueOf(hash))
    ensures ValueOf(MakeSentinelKey(hash)) == SentinelKey(ValueOf(hash))
  {
    OrdinaryCase(hash, (hash & KEY_MASK) | ORDINARY_KEY_BIT);
    SentinelCase(hash, hash & KEY_MASK);
  }

  lemma OrdinaryCase(hash: bv64, m: bv64)
    requires m == (hash & KEY_MASK) | ORDINARY_KEY_BIT
    ensures ValueOf(ReverseBits(m)) == OrdinaryKey(ValueOf(hash))
  {
    ReverseBitsIsExact(m);
    OrdinaryNumber(BitSeq(hash), BitSeq(m)) by { MaskedSeqs(hash); }
  }

  lemma SentinelCase(hash: bv64, m: bv64)
    requires m == hash & KEY_MASK
    ensures ValueOf(ReverseBits(m)) == SentinelKey(ValueOf(hash))
  {
    ReverseBitsIsExact(m);
    SentinelNumber(BitSeq(hash), BitSeq(m)) by { MaskedSeqs(hash); }
  }

  lemma OrdinaryNumber(s: seq<bool>, r: seq<bool>)
    requires |s| == 64 && r == s[..62] + [false, true]
    ensures Rev(WORD_BITS, Value(r)) == OrdinaryKey(Value(s))
  {
    assert Value(r) == OrdinaryWord(Value(s)) by { MaskedValue(s, true, CODE_BITS); }
  }

  lemma SentinelNumber(s: seq<bool>, r: seq<bool>)
    requires |s| == 64 && r == s[..62] + [false, false]
    ensures Rev(WORD_BITS, Value(r)) == SentinelKey(Value(s))
  {
    MaskedValue(s, false, CODE_BITS);
  }
}
