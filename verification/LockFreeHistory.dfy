/**
  One sequential history of a whole run of the lock-free set: legal for a set, with one entry for every
  call that is about to return, and in the order of the calls wherever one returned before another was made.
*/
module LockFreeHistory {
  import opened Common
  import opened SplitOrder
  import opened SetHistory
  import opened LockFreeSet
  import opened LockFreeSteps
  import opened LockFreeSafety
  import opened LockFreeLinear
  import opened Linearizability

  /** An entry of the history, for the call made by step `call`; it takes its place at state `point`. */
  datatype Item = Item(call: nat, point: nat, entry: Entry)

  function Entries(items: seq<Item>): (log: seq<Entry>)
    ensures |log| == |items|
  {
    seq(|items|, x requires 0 <= x < |items| => items[x].entry)
  }

  lemma EntriesAdd(a: seq<Item>, b: Item)
    ensures Entries(a + [b]) == Entries(a) + [b.entry]
  {
  }

  /** Step `i` is a call. */
  ghost predicate IsCall(r: Run, i: nat)
    requires IsRun(r)
  {
    i < |r.events| && r.events[i].t in r.states[i].threads && r.states[i].threads[r.events[i].t].pc.Idle?
  }

  /** In state `j` the call made by step `i` is about to return `res`. */
  ghost predicate Returns(r: Run, i: nat, j: nat, res: bool)
    requires IsRun(r)
  {
    IsCall(r, i) && InCall(r, r.events[i].t, i, j) && At(r, j, r.events[i].t).pc == Leaving(res)
  }

  // ----- which call a thread is in -----

  ghost function CallOf(r: Run, t: Tid, k: nat): nat
    requires IsRun(r) && k < |r.states|
  {
    if k == 0 then 0
    else if r.events[k - 1].t == t && t in r.states[k - 1].threads && r.states[k - 1].threads[t].pc.Idle? then k - 1
    else CallOf(r, t, k - 1)
  }

  lemma {:induction false} CallOfIsCall(r: Run, t: Tid, k: nat)
    requires IsRun(r) && k < |r.states| && t in r.states[k].threads && !r.states[k].threads[t].pc.Idle?
    ensures var i := CallOf(r, t, k); i < k && IsCall(r, i) && r.events[i].t == t && InCall(r, t, i, k)
  {
    hide Next, Ready;
    if k > 0 {
      var s, e := r.states[k - 1], r.events[k - 1];
      assert IsStep(s, e, r.states[k]);
      if e.t != t {
        OthersKeepThread(s, e, r.states[k], t);
        CallOfIsCall(r, t, k - 1);
      } else if !s.threads[t].pc.Idle? {
        CallOfIsCall(r, t, k - 1);
      }
    }
  }

  lemma {:induction false} CallOfIsIt(r: Run, t: Tid, i: nat, k: nat)
    requires IsRun(r) && InCall(r, t, i, k)
    ensures CallOf(r, t, k) == i
  {
    hide Next, Ready, Init;
    if k > i + 1 {
      assert InCall(r, t, i, k - 1);
      CallOfIsIt(r, t, i, k - 1);
    }
  }

  // ----- calls that change nothing -----

  /**
    The call made by step `i` is about to return without having changed anything, and state `k` bears its
    answer out.
  */
  ghost predicate ReadsAt(r: Run, i: nat, j: nat, k: nat, res: bool)
    requires IsRun(r)
  {
    && Returns(r, i, j, res) && !Took(At(r, j, r.events[i].t)) && i < k <= j
    && var A := Abs(r.states[k].heap);
       res == Answer(r.events[i].op, r.events[i].elem, A) && A == After(r.events[i].op, r.events[i].elem, A)
  }

  ghost predicate IsRead(r: Run, i: nat)
    requires IsRun(r)
  {
    exists j, k, res :: ReadsAt(r, i, j, k, res)
  }

  /** A state that bears out the answer of a call that changes nothing. */
  ghost function PointOf(r: Run, i: nat): (k: nat)
    requires IsRun(r) && IsRead(r, i)
    ensures exists j, res :: ReadsAt(r, i, j, k, res)
  {
    var j, k, res :| ReadsAt(r, i, j, k, res);
    k
  }

  ghost predicate ReadIsAt(r: Run, i: nat, k: nat)
    requires IsRun(r)
  {
    IsRead(r, i) && PointOf(r, i) == k
  }

  lemma ReadIsRead(r: Run, i: nat, j: nat, res: bool)
    requires IsRun(r) && Returns(r, i, j, res) && !Took(At(r, j, r.events[i].t))
    ensures IsRead(r, i)
  {
    hide Next, Ready, Init, Abs;
    var t := r.events[i].t;
    var k := ReadTakesPlace(r, t, i, j, res);
    CallArguments(r, t, i, j);
    assert ReadsAt(r, i, j, k, res);
  }

  /** A call has one answer. */
  lemma {:induction false} SameAnswer(r: Run, i: nat, j: nat, l: nat, res: bool)
    requires IsRun(r) && Returns(r, i, j, res) && j <= l && IsCall(r, i) && InCall(r, r.events[i].t, i, l)
    ensures At(r, l, r.events[i].t) == At(r, j, r.events[i].t)
  {
    hide Next, Ready, Init;
    var t := r.events[i].t;
    if j < l {
      assert InCall(r, t, i, l - 1);
      SameAnswer(r, i, j, l - 1, res);
      var s, e := r.states[l - 1], r.events[l - 1];
      assert IsStep(s, e, r.states[l]);
      if e.t == t {
        LeavingEnds(s, t, e.op, e.elem);
      } else {
        InCallStep(s, e, r.states[l], t);
      }
    }
  }

  lemma OneAnswer(r: Run, i: nat, j: nat, l: nat, a: bool, b: bool)
    requires IsRun(r) && Returns(r, i, j, a) && Returns(r, i, l, b)
    ensures a == b && At(r, j, r.events[i].t) == At(r, l, r.events[i].t)
  {
    hide IsRun;
    if j <= l {
      SameAnswer(r, i, j, l, a);
    } else {
      SameAnswer(r, i, l, j, b);
    }
  }

  // ----- the history -----

  ghost function ReadItem(r: Run, i: nat, k: nat): Item
    requires IsRun(r) && i < |r.events| && k < |r.states|
  {
    var e := r.events[i];
    Item(i, k, Entry(e.t, e.op, e.elem, Answer(e.op, e.elem, Abs(r.states[k].heap))))
  }

  /** Those of the first `m` steps that are calls taking their place at state `k` without changing anything. */
  ghost function Reads(r: Run, k: nat, m: nat): seq<Item>
    requires IsRun(r) && k < |r.states| && m <= |r.events|
  {
    if m == 0 then []
    else Reads(r, k, m - 1) + if ReadIsAt(r, m - 1, k) then [ReadItem(r, m - 1, k)] else []
  }

  /** The change made by step `k`, if it makes one. */
  ghost function Change(r: Run, k: nat): seq<Item>
    requires IsRun(r) && k < |r.states|
  {
    if k < |r.events| && Effect(r.states[k], r.events[k].t) then
      var t := r.events[k].t;
      [Item(CallOf(r, t, k), k, Entry(t, r.states[k].threads[t].op, r.states[k].threads[t].elem, true))]
    else []
  }

  /** The history up to state `k`: at each state first the calls that it bears out, then the change made from there. */
  ghost function History(r: Run, k: nat): seq<Item>
    requires IsRun(r) && k <= |r.states|
  {
    if k == 0 then [] else History(r, k - 1) + Reads(r, k - 1, |r.events|) + Change(r, k - 1)
  }

  // ----- it is legal -----

  lemma {:induction false} ReadsAreLegal(r: Run, items: seq<Item>, k: nat, m: nat)
    requires IsRun(r) && k < |r.states| && m <= |r.events|
    requires Legal(Entries(items)) && Played(Entries(items)) == Abs(r.states[k].heap)
    ensures Legal(Entries(items + Reads(r, k, m))) && Played(Entries(items + Reads(r, k, m))) == Abs(r.states[k].heap)
  {
    hide IsRun, Legal, Played, Abs, IsRead, ReadsAt;
    if m == 0 {
      assert items + [] == items;
    } else {
      ReadsAreLegal(r, items, k, m - 1);
      if IsRead(r, m - 1) && PointOf(r, m - 1) == k {
        var x, before := ReadItem(r, m - 1, k), items + Reads(r, k, m - 1);
        assert items + Reads(r, k, m) == before + [x];
        EntriesAdd(before, x);
        ReadAnswers(r, m - 1);
        Logged(Entries(before), x.entry);
      } else {
        assert items + Reads(r, k, m) == items + Reads(r, k, m - 1);
      }
    }
  }

  lemma ReadAnswers(r: Run, i: nat)
    requires IsRun(r) && IsRead(r, i)
    ensures i < |r.events| && IsCall(r, i) && i < PointOf(r, i) < |r.states|
    ensures var A := Abs(r.states[PointOf(r, i)].heap); A == After(r.events[i].op, r.events[i].elem, A)
  {
    hide IsRun, Abs;
    var j, res :| ReadsAt(r, i, j, PointOf(r, i), res);
  }

  lemma ChangeIsLegal(r: Run, items: seq<Item>, k: nat)
    requires IsRun(r) && k < |r.events|
    requires Legal(Entries(items)) && Played(Entries(items)) == Abs(r.states[k].heap)
    ensures Legal(Entries(items + Change(r, k))) && Played(Entries(items + Change(r, k))) == Abs(r.states[k + 1].heap)
  {
    hide Next, Ready, Init, Inv, Legal, Played, Abs;
    Always(r, k);
    var s, e := r.states[k], r.events[k];
    assert IsStep(s, e, r.states[k + 1]);
    StepRefinesSet(s, e.t, e.op, e.elem);
    if Effect(s, e.t) {
      var x := Change(r, k)[0];
      EntriesAdd(items, x);
      Logged(Entries(items), x.entry);
    } else {
      assert items + Change(r, k) == items;
    }
  }

  /** The history up to state `k` leaves the set of state `k`. */
  lemma {:induction false} HistoryIsLegal(r: Run, k: nat)
    requires IsRun(r) && k < |r.states|
    ensures Legal(Entries(History(r, k))) && Played(Entries(History(r, k))) == Abs(r.states[k].heap)
  {
    hide Next, Ready, Init, Legal, Abs, Reads, Change;
    if k == 0 {
      EmptyAtFirst(r.states[0]);
    } else {
      HistoryIsLegal(r, k - 1);
      ReadsAreLegal(r, History(r, k - 1), k - 1, |r.events|);
      ChangeIsLegal(r, History(r, k - 1) + Reads(r, k - 1, |r.events|), k - 1);
    }
  }

  lemma EmptyAtFirst(s: State)
    requires Init(s)
    ensures Abs(s.heap) == {} && Legal(Entries([])) && Played(Entries([])) == {}
  {
    hide PowerOfTwo, OrdinaryKey;
    assert SentinelKeyForm(0) && forall n :: !Member(s.heap, n);
  }

  // ----- what its entries are -----

  /** The entry is that of a call, which takes its place at a state after it was made. */
  ghost predicate MadeBy(r: Run, x: Item)
    requires IsRun(r)
  {
    && IsCall(r, x.call) && x.call < x.point < |r.states|
    && x.entry.t == r.events[x.call].t && x.entry.op == r.events[x.call].op && x.entry.elem == r.events[x.call].elem
  }

  ghost predicate IsReadItem(r: Run, x: Item)
    requires IsRun(r)
  {
    MadeBy(r, x) && IsRead(r, x.call) && x.point == PointOf(r, x.call) && x == ReadItem(r, x.call, x.point)
  }

  ghost predicate IsChange(r: Run, x: Item)
    requires IsRun(r)
  {
    && MadeBy(r, x) && x.point < |r.events| && r.events[x.point].t == x.entry.t && x.entry.res
    && InCall(r, x.entry.t, x.call, x.point) && Effect(r.states[x.point], x.entry.t)
  }

  lemma {:induction false} ReadsAreReads(r: Run, k: nat, m: nat, a: nat)
    requires IsRun(r) && k < |r.states| && m <= |r.events| && a < |Reads(r, k, m)|
    ensures var x := Reads(r, k, m)[a]; IsReadItem(r, x) && x.point == k && x.call < m
    ensures forall b :: 0 <= b < a ==> Reads(r, k, m)[b].call < Reads(r, k, m)[a].call
  {
    hide IsRun, IsRead, ReadsAt;
    var before := Reads(r, k, m - 1);
    if a < |before| {
      ReadsAreReads(r, k, m - 1, a);
      assert forall b :: 0 <= b <= a ==> Reads(r, k, m)[b] == before[b];
    } else {
      ReadAnswers(r, m - 1);
      forall b | 0 <= b < a
        ensures Reads(r, k, m)[b].call < m - 1
      {
        ReadsAreReads(r, k, m - 1, b);
        assert Reads(r, k, m)[b] == before[b];
      }
    }
  }

  lemma ChangeIsChange(r: Run, k: nat)
    requires IsRun(r) && k < |r.states| && Change(r, k) != []
    ensures |Change(r, k)| == 1 && IsChange(r, Change(r, k)[0]) && Change(r, k)[0].point == k
  {
    hide Next, Ready, Init;
    var t := r.events[k].t;
    assert !r.states[k].threads[t].pc.Idle?;
    CallOfIsCall(r, t, k);
    CallArguments(r, t, CallOf(r, t, k), k);
  }

  /** The history up to state `k` consists of such entries, in the order of their places. */
  lemma {:induction false} HistoryItems(r: Run, k: nat, a: nat)
    requires IsRun(r) && k <= |r.states| && a < |History(r, k)|
    ensures var x := History(r, k)[a]; (IsReadItem(r, x) || IsChange(r, x)) && x.point < k
    ensures forall b :: 0 <= b < a ==> History(r, k)[b].point <= History(r, k)[a].point
  {
    hide IsRun, Reads, Change, IsReadItem, IsChange;
    var h, d, c := History(r, k - 1), Reads(r, k - 1, |r.events|), Change(r, k - 1);
    if a < |h| {
      HistoryItems(r, k - 1, a);
      assert forall b :: 0 <= b <= a ==> History(r, k)[b] == h[b];
    } else {
      if a < |h| + |d| {
        ReadsAreReads(r, k - 1, |r.events|, a - |h|);
      } else {
        ChangeIsChange(r, k - 1);
      }
      forall b | 0 <= b < a
        ensures History(r, k)[b].point <= k - 1
      {
        if b < |h| {
          HistoryItems(r, k - 1, b);
        } else if b < |h| + |d| {
          ReadsAreReads(r, k - 1, |r.events|, b - |h|);
        }
      }
    }
  }

  // ----- once for each call -----

  lemma {:induction false} EffectShows(r: Run, t: Tid, i: nat, p: nat, l: nat)
    requires IsRun(r) && InCall(r, t, i, l) && i < p < l && r.events[p].t == t && Effect(r.states[p], t)
    ensures Effects(r, t, i, l) > 0
  {
    hide Next, Ready, Init, Effect;
    if l > p + 1 {
      assert InCall(r, t, i, l - 1);
      EffectShows(r, t, i, p, l - 1);
    }
  }

  /** After its effect a call has taken its effect. */
  lemma EffectTook(r: Run, t: Tid, i: nat, p: nat, l: nat)
    requires IsRun(r) && InCall(r, t, i, l) && i < p < l && r.events[p].t == t && Effect(r.states[p], t)
    ensures Took(At(r, l, t))
  {
    hide IsRun, Effect, Took;
    EffectShows(r, t, i, p, l);
    EffectsCount(r, t, i, l);
  }

  lemma TookOrTakes(s: State, t: Tid)
    requires t in s.threads && Took(s.threads[t])
    ensures !Effect(s, t)
  {
  }

  lemma LeavingTakesNothing(s: State, t: Tid)
    requires t in s.threads && s.threads[t].pc.Leaving?
    ensures !Effect(s, t)
  {
  }

  /** A call has one effect. */
  lemma OneChange(r: Run, x: Item, y: Item)
    requires IsRun(r) && IsChange(r, x) && IsChange(r, y) && x.call == y.call
    ensures x.point == y.point
  {
    hide IsRun, Effect, Took;
    var t, i := x.entry.t, x.call;
    if x.point < y.point {
      EffectTook(r, t, i, x.point, y.point);
      TookOrTakes(r.states[y.point], t);
    } else if y.point < x.point {
      EffectTook(r, t, i, y.point, x.point);
      TookOrTakes(r.states[x.point], t);
    }
  }

  /** A call that changes nothing has none. */
  lemma NoChange(r: Run, x: Item, y: Item)
    requires IsRun(r) && IsReadItem(r, x) && IsChange(r, y)
    ensures x.call != y.call
  {
    hide IsRun, Effect, Took, Abs;
    if x.call == y.call {
      var t, i := y.entry.t, y.call;
      var j, k, res :| ReadsAt(r, i, j, k, res);
      if y.point < j {
        EffectTook(r, t, i, y.point, j);
      } else {
        SameAnswer(r, i, j, y.point, res);
        LeavingTakesNothing(r.states[y.point], t);
      }
    }
  }

  /** No call has two entries. */
  lemma {:induction false} OneEntryPerCall(r: Run, k: nat, a: nat, b: nat)
    requires IsRun(r) && k <= |r.states| && a < b < |History(r, k)|
    ensures History(r, k)[a].call != History(r, k)[b].call
  {
    hide IsRun, Reads, Change, IsReadItem, IsChange;
    var h, d := History(r, k - 1), Reads(r, k - 1, |r.events|);
    var x, y := History(r, k)[a], History(r, k)[b];
    if b < |h| {
      assert x == h[a] && y == h[b];
      OneEntryPerCall(r, k - 1, a, b);
    } else if |h| <= a && b < |h| + |d| {
      assert x == d[a - |h|] && y == d[b - |h|];
      ReadsAreReads(r, k - 1, |r.events|, b - |h|);
    } else {
      LastItems(r, k, a);
      LastItems(r, k, b);
      HistoryItems(r, k, a);
      HistoryItems(r, k, b);
      if a < |h| {
        HistoryItems(r, k - 1, a);
        assert x == h[a];
      }
      Differ(r, x, y, k - 1);
    }
  }

  /** What stands last in the history is from the last state; and the change is the very last. */
  lemma LastItems(r: Run, k: nat, b: nat)
    requires IsRun(r) && 0 < k <= |r.states| && b < |History(r, k)|
    ensures var h, d, y := History(r, k - 1), Reads(r, k - 1, |r.events|), History(r, k)[b];
            if b < |h| then y == h[b]
            else if b < |h| + |d| then y.point == k - 1 && IsReadItem(r, y)
            else y.point == k - 1 && IsChange(r, y) && b == |h| + |d|
  {
    hide IsRun, Reads, Change, IsReadItem, IsChange;
    var h, d := History(r, k - 1), Reads(r, k - 1, |r.events|);
    if b >= |h| + |d| {
      ChangeIsChange(r, k - 1);
    } else if b >= |h| {
      ReadsAreReads(r, k - 1, |r.events|, b - |h|);
    }
  }

  /** Two entries of the same call would have to be the same. */
  lemma Differ(r: Run, x: Item, y: Item, k: nat)
    requires IsRun(r) && (IsReadItem(r, x) || IsChange(r, x)) && (IsReadItem(r, y) || IsChange(r, y))
    requires y.point == k && (x.point < k || (IsReadItem(r, x) && IsChange(r, y)))
    ensures x.call != y.call
  {
    hide IsRun, IsRead, Effect;
    if x.call == y.call {
      if IsReadItem(r, x) && IsChange(r, y) {
        NoChange(r, x, y);
      } else if IsChange(r, x) && IsReadItem(r, y) {
        NoChange(r, y, x);
      } else if IsChange(r, x) && IsChange(r, y) {
        OneChange(r, x, y);
      }
    }
  }

  // ----- every completed call is there -----

  lemma {:induction false} HistoryHas(r: Run, k: nat, l: nat, x: Item)
    requires IsRun(r) && k < l <= |r.states| && (x in Reads(r, k, |r.events|) || x in Change(r, k))
    ensures x in History(r, l)
  {
    hide IsRun, Reads, Change;
    if k < l - 1 {
      HistoryHas(r, k, l - 1, x);
    }
  }

  lemma {:induction false} ReadsHas(r: Run, i: nat, m: nat)
    requires IsRun(r) && i < m <= |r.events| && IsRead(r, i) && PointOf(r, i) < |r.states|
    ensures ReadItem(r, i, PointOf(r, i)) in Reads(r, PointOf(r, i), m)
  {
    hide IsRun, IsRead;
    if i < m - 1 {
      ReadsHas(r, i, m - 1);
    }
  }

  lemma CompletedIsThere(r: Run, i: nat, j: nat, res: bool)
    requires IsRun(r) && Returns(r, i, j, res)
    ensures exists a :: 0 <= a < |History(r, |r.states|)| &&
              History(r, |r.states|)[a].call == i && History(r, |r.states|)[a].entry.res == res
  {
    hide IsRun, History, Reads, IsRead, Effect, Abs;
    var t, n := r.events[i].t, |r.states|;
    if !Took(At(r, j, t)) {
      ReadIsRead(r, i, j, res);
      ReadAnswers(r, i);
      var k := PointOf(r, i);
      ReadsHas(r, i, |r.events|);
      HistoryHas(r, k, n, ReadItem(r, i, k));
      ReadRight(r, i, j, res);
    } else {
      EffectsCount(r, t, i, j);
      var p := TheEffect(r, t, i, j);
      assert InCall(r, t, i, p);
      CallOfIsIt(r, t, i, p);
      EventBefore(r, p);
      HistoryHas(r, p, n, Change(r, p)[0]);
    }
  }

  lemma EventBefore(r: Run, p: nat)
    requires IsRun(r)
    ensures p < |r.states| - 1 ==> p < |r.events|
  {
    hide Next, Ready, Init;
  }

  lemma ReadRight(r: Run, i: nat, j: nat, res: bool)
    requires IsRun(r) && Returns(r, i, j, res) && IsRead(r, i) && PointOf(r, i) < |r.states|
    ensures ReadItem(r, i, PointOf(r, i)).entry.res == res
  {
    hide IsRun, Abs;
    var j', res' :| ReadsAt(r, i, j', PointOf(r, i), res');
    OneAnswer(r, i, j, j', res, res');
  }

  // ----- the order of the calls -----

  /** The call made by step `a` has returned before step `b`. */
  ghost predicate ReturnedBefore(r: Run, a: nat, b: nat)
    requires IsRun(r)
  {
    exists l, res :: a < l < b < |r.events| && r.events[l].t == r.events[a].t && Returns(r, a, l, res)
  }

  /** A call does not outlast its return. */
  lemma InCallEnds(r: Run, a: nat, l: nat, res: bool, p: nat)
    requires IsRun(r) && l < |r.events| && Returns(r, a, l, res) && r.events[l].t == r.events[a].t
    requires InCall(r, r.events[a].t, a, p)
    ensures p <= l
  {
    hide Next, Ready, Init;
    var e := r.events[l];
    assert IsStep(r.states[l], e, r.states[l + 1]);
    LeavingEnds(r.states[l], e.t, e.op, e.elem);
  }

  lemma InOrder(r: Run, x: Item, y: Item)
    requires IsRun(r) && (IsReadItem(r, x) || IsChange(r, x)) && MadeBy(r, y) && ReturnedBefore(r, x.call, y.call)
    ensures x.point < y.point
  {
    hide IsRun, Effect, Abs;
    var l, res :| x.call < l < y.call < |r.events| && r.events[l].t == r.events[x.call].t && Returns(r, x.call, l, res);
    if IsReadItem(r, x) {
      var j, res' :| ReadsAt(r, x.call, j, PointOf(r, x.call), res');
      InCallEnds(r, x.call, l, res, j);
    } else {
      InCallEnds(r, x.call, l, res, x.point);
    }
  }

  /**
    One history for the whole run: legal for a set, and leaving the set that the list holds in the end;
    with no call entered twice, every call that is about to return entered with its answer, and a call that
    has returned before another was made entered before it. Calls that have taken effect and not returned
    yet may be entered, too.
  */
  lemma OneHistory(r: Run) returns (items: seq<Item>)
    requires IsRun(r)
    ensures Legal(Entries(items)) && Played(Entries(items)) == Abs(r.states[|r.states| - 1].heap)
    ensures forall a :: 0 <= a < |items| ==> MadeBy(r, items[a])
    ensures forall a, b :: 0 <= a < b < |items| ==> items[a].call != items[b].call
    ensures forall i, j, res :: Returns(r, i, j, res) ==>
              exists a :: 0 <= a < |items| && items[a].call == i && items[a].entry.res == res
    ensures forall a, b :: 0 <= a < |items| && 0 <= b < |items| && ReturnedBefore(r, items[a].call, items[b].call) ==>
            a < b
  {
    hide Next, Ready, Init, History, Legal, Played, Abs, IsReadItem, IsChange, Returns, ReturnedBefore, MadeBy;
    var n := |r.states|;
    items := History(r, n);
    WholeHistory(r);
    forall a | 0 <= a < |items|
      ensures MadeBy(r, items[a])
    {
      HistoryItems(r, n, a);
      ItemIsMade(r, items[a]);
    }
    forall a, b | 0 <= a < b < |items|
      ensures items[a].call != items[b].call
    {
      OneEntryPerCall(r, n, a, b);
    }
    forall i, j, res | Returns(r, i, j, res)
      ensures exists a :: 0 <= a < |items| && items[a].call == i && items[a].entry.res == res
    {
      CompletedIsThere(r, i, j, res);
    }
    forall a, b | 0 <= a < |items| && 0 <= b < |items| && ReturnedBefore(r, items[a].call, items[b].call)
      ensures a < b
    {
      HistoryItems(r, n, a);
      HistoryItems(r, n, b);
      InOrder(r, items[a], items[b]);
    }
  }

  lemma ItemIsMade(r: Run, x: Item)
    requires IsRun(r) && (IsReadItem(r, x) || IsChange(r, x))
    ensures MadeBy(r, x)
  {
    hide IsRun;
  }

  lemma WholeHistory(r: Run)
    requires IsRun(r)
    ensures var items := History(r, |r.states|);
            Legal(Entries(items)) && Played(Entries(items)) == Abs(r.states[|r.states| - 1].heap)
  {
    hide Next, Ready, Init, Legal, Played, Abs, Reads;
    var n := |r.states| - 1;
    HistoryIsLegal(r, n);
    ReadsAreLegal(r, History(r, n), n, |r.events|);
    assert Change(r, n) == [];
    assert History(r, n + 1) == History(r, n) + Reads(r, n, |r.events|);
  }
}
