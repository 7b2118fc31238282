/** Names shared by every model in this project. */
module Common {
  datatype Option<+T> = None | Some(value: T)

  /** A thread. Every machine below is stated for an arbitrary finite set of them. */
  type Tid = nat

  /** A node of the lock-free list; one id stands for one allocation. */
  type NodeId = nat

  /**
    An element as the sets see it: its identity under `==`, and what `std::hash` returns for it.
    Equal elements have equal codes, and any number of different elements may share one.
  */
  datatype Elem = Elem(value: int, code: nat)

  // ----- a plain set, as every one of the sets should behave -----

  datatype Op = OpAdd | OpRemove | OpContains

  /** What an operation answers on set `A` ... */
  function Answer(op: Op, e: Elem, A: set<Elem>): bool {
    match op
    case OpAdd => e !in A
    case OpRemove => e in A
    case OpContains => e in A
  }

  /** ... and what it leaves. */
  function After(op: Op, e: Elem, A: set<Elem>): set<Elem> {
    match op
    case OpAdd => A + {e}
    case OpRemove => A - {e}
    case OpContains => A
  }

  function One(b: bool): nat { if b then 1 else 0 }

  /** Two sets of threads that agree but for `t` differ in size by at most one. */
  lemma OneMoreOrLess(A: set<Tid>, B: set<Tid>, t: Tid)
    requires forall u :: u != t ==> (u in A <==> u in B)
    ensures |B| == |A| + (if t in B then 1 else 0) - (if t in A then 1 else 0)
  {
    assert A - {t} == B - {t};
    assert t in A ==> A == (A - {t}) + {t};
    assert t in B ==> B == (B - {t}) + {t};
    assert t !in A ==> A == A - {t};
    assert t !in B ==> B == B - {t};
  }

  /** Threads with different elements are no more than there are elements for them. */
  lemma {:induction false} NoMoreThan(A: set<Tid>, elems: map<Tid, Elem>, E: set<Elem>)
    requires forall t :: t in A ==> t in elems && elems[t] in E
    requires forall t, u :: t in A && u in A && elems[t] == elems[u] ==> t == u
    ensures |A| <= |E|
  {
    if t :| t in A {
      NoMoreThan(A - {t}, elems, E - {elems[t]});
    }
  }

  // ----- sums over threads -----

  ghost function Sum(f: map<Tid, nat>): nat
    decreases |f|
  {
    if f == map[] then 0
    else
      var t :| t in f;
      assert |f - {t}| < |f| by { Fewer(f, t); }
      f[t] + Sum(f - {t})
  }

  lemma Fewer(f: map<Tid, nat>, t: Tid)
    requires t in f
    ensures |f - {t}| == |f| - 1 && (f - {t}).Keys == f.Keys - {t}
  {
    var g := f - {t};
    assert g.Keys == f.Keys - {t};
    assert |g.Keys| == |g| && |f.Keys| == |f|;
  }

  /** Any summand can be taken out. */
  lemma {:induction false} SumAt(f: map<Tid, nat>, t: Tid)
    requires t in f
    ensures Sum(f) == f[t] + Sum(f - {t})
    decreases |f|
  {
    var u :| u in f && Sum(f) == f[u] + Sum(f - {u});
    if u != t {
      Fewer(f, t);
      Fewer(f, u);
      SumAt(f - {u}, t);
      SumAt(f - {t}, u);
      assert f - {u} - {t} == f - {t} - {u};
    }
  }

  lemma SumChanged(f: map<Tid, nat>, t: Tid, n: nat)
    requires t in f
    ensures Sum(f[t := n]) == Sum(f) - f[t] + n && f[t] <= Sum(f)
  {
    SumAt(f, t);
    SumAt(f[t := n], t);
    assert f[t := n] - {t} == f - {t};
  }

  lemma OneMoreTimes(n: nat, m: nat)
    ensures (n + 1) * m == n * m + m
  {
  }

  lemma MoreTimes(a: nat, b: nat, m: nat)
    requires a <= b
    ensures a * m <= b * m
  {
  }

  lemma OneLess(b: nat, b': nat, k: nat)
    requires b' < b
    ensures b' * k + k <= b * k
  {
    MoreTimes(b' + 1, b, k);
    OneMoreTimes(b', k);
  }

  /** What `n` threads have left to do at most, if each has `m`; and then more than that, `b` times. */
  function Times(n: nat, m: nat): nat { n * m }

  function Price(b: nat, n: nat, m: nat): nat { b * (n * m + 1) }

  lemma {:induction false} SumBound(f: map<Tid, nat>, m: nat)
    requires forall t :: t in f ==> f[t] <= m
    ensures Sum(f) <= |f| * m
    decreases |f|
  {
    if f != map[] {
      var t :| t in f;
      var g := f - {t};
      SumAt(f, t);
      Fewer(f, t);
      SumBound(g, m);
      OneMoreTimes(|g|, m);
    }
  }
}
