/** Sequences of bits, least significant bit first, and the numbers they stand for. */
module Numerals {
  import opened Bits

  function Value(s: seq<bool>): nat {
    if s == [] then 0 else (if s[0] then 1 else 0) + 2 * Value(s[1..])
  }

  function Backwards(s: seq<bool>): (r: seq<bool>)
    ensures |r| == |s|
  {
    if s == [] then [] else Backwards(s[1..]) + [s[0]]
  }

  lemma {:induction false} BackwardsAt(s: seq<bool>, i: nat)
    requires i < |s|
    ensures Backwards(s)[i] == s[|s| - 1 - i]
  {
    if i < |s| - 1 {
      BackwardsAt(s[1..], i);
    }
  }

  lemma {:induction false} ValueOfConcat(s: seq<bool>, t: seq<bool>)
    ensures Value(s + t) == Value(s) + Pow2(|s|) * Value(t)
  {
    if s == [] {
      assert s + t == t;
    } else {
      assert (s + t)[1..] == s[1..] + t;
      ValueOfConcat(s[1..], t);
      DoubleProduct(Pow2(|s| - 1), Value(t));
    }
  }

  lemma DoubleProduct(a: nat, b: nat)
    ensures (2 * a) * b == 2 * (a * b)
  {
  }

  lemma {:induction false} LowOfValue(s: seq<bool>, k: nat)
    requires k <= |s|
    ensures Low(Value(s), k) == Value(s[..k])
  {
    if k > 0 {
      LowOfValue(s[1..], k - 1);
      assert s[..k][1..] == s[1..][..k - 1];
      assert Value(s) / 2 == Value(s[1..]);
    }
  }

  /** Reading a bit sequence backwards reverses the number. */
  lemma {:induction false} ValueBackwards(s: seq<bool>)
    ensures Value(Backwards(s)) == Rev(|s|, Value(s))
  {
    if s != [] {
      ValueBackwards(s[1..]);
      ValueOfConcat(Backwards(s[1..]), [s[0]]);
      assert Value([s[0]]) == if s[0] then 1 else 0;
    }
  }

  lemma MirroredSeq(s: seq<bool>, t: seq<bool>)
    requires |s| == |t|
    requires forall i :: 0 <= i < |s| ==> s[i] == t[|t| - 1 - i]
    ensures s == Backwards(t)
  {
    forall i: nat | i < |s|
      ensures s[i] == Backwards(t)[i]
    {
      BackwardsAt(t, i);
    }
  }

  /** The top two bits of a masked word, as a number. */
  lemma MaskedValue(s: seq<bool>, top: bool, k: nat)
    requires k <= |s|
    ensures Value(s[..k] + [false, top]) == Low(Value(s), k) + (if top then 2 * Pow2(k) else 0)
  {
    LowOfValue(s, k);
    ValueOfConcat(s[..k], [false, top]);
    TwoBits(top, Pow2(k));
  }

  lemma TwoBits(top: bool, p: nat)
    ensures p * Value([false, top]) == if top then 2 * p else 0
  {
    assert [top][1..] == [];
    assert Value([top]) == if top then 1 else 0;
    assert [false, top][1..] == [top];
    assert Value([false, top]) == if top then 2 else 0;
  }
}
