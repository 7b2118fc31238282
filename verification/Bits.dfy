/** Powers of two, and the reversal of the low bits of a natural number. */
module Bits {
  function Pow2(k: nat): (p: nat)
    ensures p >= 1
  {
    if k == 0 then 1 else 2 * Pow2(k - 1)
  }

  /** The number whose `w` bits are the low `w` bits of `n` in the opposite order. */
  function Rev(w: nat, n: nat): (r: nat)
    ensures r < Pow2(w)
  {
    if w == 0 then 0
    else (if n % 2 == 1 then Pow2(w - 1) else 0) + Rev(w - 1, n / 2)
  }

  lemma {:induction false} Pow2Add(a: nat, b: nat)
    ensures Pow2(a + b) == Pow2(a) * Pow2(b)
  {
    if a > 0 {
      Pow2Add(a - 1, b);
      assert Pow2(a + b) == 2 * Pow2(a - 1 + b);
    }
  }

  lemma {:induction false} Pow2Monotone(a: nat, b: nat)
    requires a <= b
    ensures Pow2(a) <= Pow2(b)
  {
    Pow2Add(a, b - a);
    assert Pow2(a) * Pow2(b - a) >= Pow2(a) * 1;
  }

  lemma SmallMultiple(k: int, d: nat)
    ensures 0 - d < k * d < d ==> k == 0
  {
    if k >= 1 {
      assert k * d >= 1 * d;
    } else if k <= -1 {
      assert k * d <= -1 * d;
    }
  }

  lemma DivMod(n: nat, q: nat, d: nat, r: nat)
    requires n == q * d + r && r < d
    ensures n / d == q && n % d == r
  {
    SmallMultiple(n / d - q, d);
    assert (n / d - q) * d == (n / d) * d - q * d;
  }

  /** `n >> k` and `n & (2^k - 1)`, bit by bit. */
  function Shr(n: nat, k: nat): nat { if k == 0 then n else Shr(n / 2, k - 1) }

  function Low(n: nat, k: nat): nat { if k == 0 then 0 else 2 * Low(n / 2, k - 1) + n % 2 }

  /** They are quotient and remainder by a power of two. */
  lemma {:induction false} ShrLowSum(n: nat, k: nat)
    ensures n == Shr(n, k) * Pow2(k) + Low(n, k)
    ensures Low(n, k) < Pow2(k)
  {
    if k > 0 {
      ShrLowSum(n / 2, k - 1);
      Doubled(Shr(n, k), Pow2(k - 1));
    }
  }

  lemma Doubled(q: nat, p: nat)
    ensures q * (2 * p) == 2 * (q * p)
  {
  }

  lemma ShrLow(n: nat, k: nat)
    ensures n == Shr(n, k) * Pow2(k) + Low(n, k)
    ensures Low(n, k) < Pow2(k)
    ensures Shr(n, k) == n / Pow2(k) && Low(n, k) == n % Pow2(k)
  {
    ShrLowSum(n, k);
    DivMod(n, Shr(n, k), Pow2(k), Low(n, k));
  }

  /** The high part of a reversal is the reversal of the low part, and the other way round. */
  lemma {:induction false} RevSplit(k: nat, w: nat, n: nat)
    requires k <= w
    ensures Rev(w, n) == Rev(k, n) * Pow2(w - k) + Rev(w - k, Shr(n, k))
  {
    if k > 0 {
      RevSplit(k - 1, w - 1, n / 2);
      var top := if n % 2 == 1 then Pow2(k - 1) else 0;
      Pow2Add(k - 1, w - k);
      Distribute(top, Rev(k - 1, n / 2), Pow2(w - k));
    }
  }

  lemma Distribute(a: nat, b: nat, c: nat)
    ensures (a + b) * c == a * c + b * c
  {
  }

  /** Reversal of `k` bits reads the low `k` bits and nothing else ... */
  lemma {:induction false} RevLow(k: nat, n: nat)
    ensures Rev(k, Low(n, k)) == Rev(k, n)
  {
    if k > 0 {
      RevLow(k - 1, n / 2);
    }
  }

  /** ... and loses none of them. */
  lemma {:induction false} RevInjective(k: nat, a: nat, b: nat)
    requires Rev(k, a) == Rev(k, b)
    ensures Low(a, k) == Low(b, k)
  {
    if k > 0 {
      RevInjective(k - 1, a / 2, b / 2);
    }
  }

  /** Reversing twice gives the low bits back. */
  lemma {:induction false} RevTwice(k: nat, n: nat)
    ensures Rev(k, Rev(k, n)) == Low(n, k)
  {
    if k > 0 {
      RevTwice(k - 1, n / 2);
      RevLast(k - 1, n % 2, Rev(k - 1, n / 2));
    }
  }

  /** The last bit to be reversed comes out first. */
  lemma {:induction false} RevLast(k: nat, bit: nat, n: nat)
    requires bit < 2 && n < Pow2(k)
    ensures Rev(k + 1, (if bit == 1 then Pow2(k) else 0) + n) == 2 * Rev(k, n) + bit
  {
    if k > 0 {
      RevLast(k - 1, bit, n / 2);
      assert ((if bit == 1 then Pow2(k) else 0) + n) / 2 == (if bit == 1 then Pow2(k - 1) else 0) + n / 2;
    }
  }

  lemma {:induction false} RevZero(w: nat)
    ensures Rev(w, 0) == 0
  {
    if w > 0 {
      RevZero(w - 1);
    }
  }
}
