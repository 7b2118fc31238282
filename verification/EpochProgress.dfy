/**
  TryAdvance (src/EpochReclaimer.h:275-295): whoever takes `advancing_` gives it back, and the epoch moves on when
  it may. And what is kept meanwhile: nothing that was unlinked more than two epochs ago.
*/
module EpochProgress {
  import opened Common
  import opened Epochs
  import opened EpochRuns

  // ----- the flag -----

  /** Between taking `advancing_` and giving it back. */
  predicate Advancing(c: Ctl) { c.AdvCas? || c.AdvUnlock? || ((c.AdvHead? || c.AdvScan?) && c.locked) }

  ghost predicate IsAdvancer(s: State, t: Tid) { t in s.ctl && Advancing(s.ctl[t]) }

  /** The flag is raised exactly while somebody is advancing the epoch, and only one does. */
  ghost predicate FlagOk(s: State) {
    && (s.advancing <==> exists t :: IsAdvancer(s, t))
    && forall t, u {:trigger IsAdvancer(s, t), IsAdvancer(s, u)} :: IsAdvancer(s, t) && IsAdvancer(s, u) ==> t == u
  }

  /** A step takes the flag, gives it back, or leaves it where it is. */
  ghost predicate FlagMoves(s: State, s': State, t: Tid) {
    && t in s.ctl && t in s'.ctl && s'.ctl == s.ctl[t := s'.ctl[t]]
    && var b, b' := Advancing(s.ctl[t]), Advancing(s'.ctl[t]);
       || (s'.advancing == s.advancing && b' == b)
       || (!s.advancing && s'.advancing && b' && !b)
       || (!s'.advancing && b && !b')
  }

  lemma LoadFlag(s: State, t: Tid)
    requires Typed(s, t) && s.ctl[t].Reading?
    ensures FlagMoves(s, LoadStep(s, t), t)
  {
    hide Loaded, EnterFrees, Emptied, ExpiredBags;
  }

  lemma PushFlag(s: State, t: Tid, n: NodeId)
    requires Typed(s, t) && s.ctl[t].Pushing? && n in s.fates
    ensures FlagMoves(s, PushStep(s, t, n), t)
  {
    hide Retired, Emptied, RetireFrees, Reuses, CurrentBag;
  }

  lemma ScanFlag(s: State, t: Tid, at: nat, left: nat, locked: bool)
    requires t in s.ctl && s.ctl[t] == AdvScan(at, left, locked) && 0 < left <= |s.joined|
    requires s.joined[left - 1] in s.parts
    ensures FlagMoves(s, ScanStep(s, t, at, left, locked), t)
  {
  }

  lemma InternalFlag(s: State, t: Tid)
    requires InternalEnabled(s, t)
    ensures FlagMoves(s, InternalStep(s, t), t)
  {
    hide LoadStep, PushStep, ScanStep;
    if s.ctl[t].AdvScan? {
      ScanFlag(s, t, s.ctl[t].at, s.ctl[t].left, s.ctl[t].locked);
    }
    if s.ctl[t].Reading? {
      LoadFlag(s, t);
    } else if s.ctl[t].Pushing? {
      PushFlag(s, t, s.ctl[t].n);
    }
  }

  lemma StepFlag(s: State, t: Tid, a: Action)
    requires FlagOk(s) && Enabled(s, t, a)
    ensures FlagOk(Apply(s, t, a))
  {
    hide InternalStep, InternalEnabled, Advancing;
    var s' := Apply(s, t, a);
    assert FlagMoves(s, s', t) by {
      if a.Internal? {
        InternalFlag(s, t);
      } else {
        Elsewhere(s.ctl[t], s'.ctl[t]);
      }
    }
    forall u | u != t
      ensures IsAdvancer(s', u) <==> IsAdvancer(s, u)
    {
    }
    if s.advancing && s'.advancing && !IsAdvancer(s, t) {
      var u :| IsAdvancer(s, u);
      assert IsAdvancer(s', u);
    }
    assert IsAdvancer(s, t) ==> s.advancing;
    assert IsAdvancer(s', t) <==> Advancing(s'.ctl[t]);
  }

  lemma Elsewhere(c: Ctl, d: Ctl)
    ensures c.Out? || c.Inside? ==> !Advancing(c)
    ensures d.Out? || d.Reading? || d.Joining? || d.Pushing? ==> !Advancing(d)
  {
  }

  /**
    In every run `advancing_` is raised if and only if some thread is between taking it and giving it back, and no
    two threads ever are.
  */
  lemma {:induction false} FlagHeld(r: Run, i: nat)
    requires IsRun(r) && i < |r.states|
    ensures var s := r.states[i];
            && (s.advancing <==> exists t :: IsAdvancer(s, t))
            && forall t, u :: IsAdvancer(s, t) && IsAdvancer(s, u) ==> t == u
  {
    hide Init, Apply, Enabled;
    if i == 0 {
      NobodyAdvances(r.states[0]);
    } else {
      FlagHeld(r, i - 1);
      StepFlag(r.states[i - 1], r.events[i - 1].0, r.events[i - 1].1);
    }
  }

  lemma NobodyAdvances(s: State)
    requires Init(s)
    ensures FlagOk(s)
  {
  }

  // ----- TryAdvance, with nobody else about -----

  /** Every open Guard has announced the current epoch. */
  ghost predicate AllCurrent(s: State) { forall u :: u in Open(s) ==> s.parts[u].epoch == Some(s.epoch) }

  /** The participants from index `left` on have no Guard open, or one at the current epoch. */
  ghost predicate CurrentFrom(s: State, left: nat) {
    forall j {:trigger s.joined[j]} :: left <= j < |s.joined| && s.joined[j] in s.parts ==>
      s.parts[s.joined[j]].epoch == None || s.parts[s.joined[j]].epoch == Some(s.epoch)
  }

  lemma LagTyped(s: State)
    requires LagInv(s)
    ensures AllTyped(s)
  {
  }

  lemma CurrentFromAll(s: State)
    requires LagInv(s)
    ensures CurrentFrom(s, 0) <==> AllCurrent(s)
  {
    hide LagInv, OwnInv, TagsOk;
    if CurrentFrom(s, 0) {
      assert AllTyped(s) by { LagTyped(s); }
      forall u | u in Open(s)
        ensures s.parts[u].epoch == Some(s.epoch)
      {
        LagHas(s, u);
        var j :| 0 <= j < |s.joined| && s.joined[j] == u;
      }
    }
    if AllCurrent(s) {
      forall j | 0 <= j < |s.joined| && s.joined[j] in s.parts
        ensures s.parts[s.joined[j]].epoch == None || s.parts[s.joined[j]].epoch == Some(s.epoch)
      {
        assert Active(s, s.joined[j]) ==> s.joined[j] in Open(s);
      }
    }
  }

  /** `s` with only what TryAdvance changes. */
  ghost function Changed(s: State, t: Tid, c: Ctl, epoch: nat, advancing: bool): State {
    s.(ctl := s.ctl[t := c], epoch := epoch, advancing := advancing)
  }

  /** How far TryAdvance has come: the steps it has taken, with `d` participants in the list. */
  function Came(c: Ctl, d: nat): int {
    match c
    case AdvLoad => 0
    case AdvHead(_, locked) => if locked then d + 3 else 1
    case AdvScan(_, left, locked) => if locked then 2 * d + 4 - left else d + 2 - left
    case AdvLock(_) => d + 2
    case AdvCas(_) => 2 * d + 4
    case AdvUnlock => 2 * d + 5
    case _ => 2 * d + 6
  }

  /** What TryAdvance, started in `s` and left alone, has seen by the time it is at `c`, and what it has changed. */
  ghost predicate Where(s: State, c: Ctl, epoch: nat, advancing: bool) {
    match c
    case AdvLoad => epoch == s.epoch && advancing == s.advancing
    case AdvHead(at, locked) =>
      at == epoch == s.epoch && if locked then Taken(s, advancing) else advancing == s.advancing
    case AdvScan(at, left, locked) =>
      && at == epoch == s.epoch && 0 < left <= |s.joined| && CurrentFrom(s, left)
      && if locked then Taken(s, advancing) else advancing == s.advancing
    case AdvLock(at) => at == epoch == s.epoch && advancing == s.advancing && CurrentFrom(s, 0)
    case AdvCas(at) => at == epoch == s.epoch && Taken(s, advancing)
    case AdvUnlock => epoch == s.epoch + 1 && Taken(s, advancing)
    case Inside => advancing == s.advancing && epoch == if !s.advancing && CurrentFrom(s, 0) then s.epoch + 1
      else s.epoch
    case _ => false
  }

  ghost predicate Taken(s: State, advancing: bool) { advancing && !s.advancing && CurrentFrom(s, 0) }

  ghost predicate Alone(s: State, s': State, t: Tid) {
    && t in s'.ctl && s' == Changed(s, t, s'.ctl[t], s'.epoch, s'.advancing)
    && Where(s, s'.ctl[t], s'.epoch, s'.advancing)
  }

  predicate InTryAdvance(c: Ctl) {
    c.AdvLoad? || c.AdvHead? || c.AdvScan? || c.AdvLock? || c.AdvCas? || c.AdvUnlock?
  }

  lemma OnlyChanges(s: State, s': State, t: Tid)
    requires t in s'.ctl && s' == Changed(s, t, s'.ctl[t], s'.epoch, s'.advancing)
    requires InternalEnabled(s', t) && InTryAdvance(s'.ctl[t])
    ensures var s2 := InternalStep(s', t); t in s2.ctl && s2 == Changed(s, t, s2.ctl[t], s2.epoch, s2.advancing)
  {
    var s2 := InternalStep(s', t);
    assert s2.ctl == s.ctl[t := s2.ctl[t]];
  }

  lemma OneMoreCurrent(s: State, left: nat)
    requires 0 < left <= |s.joined| && s.joined[left - 1] in s.parts
    ensures var seen := s.parts[s.joined[left - 1]].epoch;
            && (CurrentFrom(s, left) && (seen == None || seen == Some(s.epoch)) ==> CurrentFrom(s, left - 1))
            && (seen != None && seen != Some(s.epoch) ==> !CurrentFrom(s, 0))
  {
  }

  lemma ScanAlone(s: State, s': State, t: Tid, at: nat, left: nat, locked: bool)
    requires Alone(s, s', t) && s'.ctl[t] == AdvScan(at, left, locked) && s.joined[left - 1] in s.parts
    ensures var s2 := ScanStep(s', t, at, left, locked);
            && t in s2.ctl && Where(s, s2.ctl[t], s2.epoch, s2.advancing)
            && Came(s2.ctl[t], |s.joined|) > Came(s'.ctl[t], |s.joined|)
  {
    hide CurrentFrom;
    OneMoreCurrent(s, left);
  }

  lemma NothingLeft(s: State)
    ensures |s.joined| == 0 ==> CurrentFrom(s, 0)
    ensures CurrentFrom(s, |s.joined|)
  {
  }

  lemma StepAlone(s: State, s': State, t: Tid)
    requires Alone(s, s', t) && InternalEnabled(s', t)
    ensures var s2 := InternalStep(s', t);
            Alone(s, s2, t) && Came(s2.ctl[t], |s.joined|) > Came(s'.ctl[t], |s.joined|)
  {
    hide ScanStep, LoadStep, PushStep, AnnounceStep, CurrentFrom;
    assert InTryAdvance(s'.ctl[t]);
    OnlyChanges(s, s', t);
    NothingLeft(s);
    var c := s'.ctl[t];
    if c.AdvScan? {
      ScanAlone(s, s', t, c.at, c.left, c.locked);
    }
  }

  /** From state `i` up to state `j` only the reclaimer's own code of `t` takes steps. */
  ghost predicate OnlyInternal(r: Run, t: Tid, i: nat, j: nat) {
    i <= j <= |r.events| && forall k {:trigger r.events[k]} :: i <= k < j ==> r.events[k] == (t, Internal)
  }

  /**
    TryAdvance, left alone, is over within two steps for each participant and six more; and when it is over the
    epoch has moved on by one if nobody was advancing it and every open Guard had announced the current one, has
    not moved otherwise, and nothing else has changed.
  */
  lemma {:induction false} TryAdvanceAlone(r: Run, t: Tid, i: nat, j: nat)
    requires IsRun(r) && OnlyInternal(r, t, i, j) && t in r.states[i].ctl && r.states[i].ctl[t].AdvLoad?
    ensures j - i <= 2 * |r.states[i].joined| + 6
    ensures t in r.states[j].ctl
    ensures var s := r.states[i];
            r.states[j].ctl[t].Inside? ==>
              r.states[j] == s.(ctl := s.ctl[t := Inside],
                                epoch := if !s.advancing && AllCurrent(s) then s.epoch + 1 else s.epoch)
    ensures Alone(r.states[i], r.states[j], t) && j - i <= Came(r.states[j].ctl[t], |r.states[i].joined|)
    decreases j
  {
    hide Init, InternalStep, InternalEnabled, LagInv, AllCurrent;
    var s := r.states[i];
    AlwaysLag(r, i);
    if i == j {
      assert s.ctl == s.ctl[t := AdvLoad];
    } else {
      TryAdvanceAlone(r, t, i, j - 1);
      assert r.events[j - 1] == (t, Internal);
      StepAlone(s, r.states[j - 1], t);
    }
    CurrentFromAll(s);
  }

  // ----- every so many retires -----

  lemma OnlyOwnFlag(r: Run, i: nat, t: Tid)
    requires IsRun(r) && i < |r.states| && t in r.states[i].ctl && r.states[i].ctl[t].Pushing?
    requires Open(r.states[i]) == {t}
    ensures !r.states[i].advancing
  {
    hide IsRun, LagInv, Open;
    var s := r.states[i];
    FlagHeld(r, i);
    if s.advancing {
      var u :| IsAdvancer(s, u);
      AlwaysLag(r, i);
      AdvancerIsOpen(s, u);
    }
  }

  lemma AdvancerIsOpen(s: State, u: Tid)
    requires LagInv(s) && IsAdvancer(s, u)
    ensures u in Open(s)
  {
    hide LagInv;
    LagHas(s, u);
  }

  /** What Retire leaves to TryAdvance. */
  lemma PushLeads(s: State, t: Tid, n: NodeId)
    requires Typed(s, t) && s.ctl[t] == Pushing(n) && n in s.fates
    ensures var s', due := PushStep(s, t, n), s.parts[t].retires + 1 == 1024;
            && t in s'.ctl && s'.ctl[t] == (if due then AdvLoad else Inside)
            && s'.epoch == s.epoch && s'.advancing == s.advancing && s'.parts.Keys == s.parts.Keys
            && s'.parts[t].retires == (if due then 0 else s.parts[t].retires + 1)
            && forall u :: u in s.parts ==> s'.parts[u].epoch == s.parts[u].epoch
  {
    hide Emptied, RetireFrees, Reuses, CurrentBag;
  }

  lemma SameCurrent(s: State, s': State)
    requires s'.parts.Keys == s.parts.Keys && s'.epoch == s.epoch
    requires forall u :: u in s.parts ==> s'.parts[u].epoch == s.parts[u].epoch
    ensures AllCurrent(s') == AllCurrent(s)
  {
    assert Open(s') == Open(s);
  }

  /**
    A thread that retires, with no other Guard open and its own at the current epoch, and is left alone, has
    advanced the epoch by the time it is back in its caller's code if this was the 1024th retire since the last
    time, and has not otherwise.
  */
  lemma DueRetireAdvances(r: Run, t: Tid, i: nat, j: nat)
    requires IsRun(r) && OnlyInternal(r, t, i, j) && t in r.states[i].ctl && r.states[i].ctl[t].Pushing?
    requires Open(r.states[i]) == {t} && r.states[i].parts[t].epoch == Some(r.states[i].epoch)
    requires t in r.states[j].ctl && r.states[j].ctl[t].Inside?
    ensures r.states[j].epoch ==
            r.states[i].epoch + if r.states[i].parts[t].retires + 1 == 1024 then 1 else 0
    ensures !r.states[j].advancing
  {
    hide Init, InternalStep, InternalEnabled, LagInv, PushStep, Alone, Came;
    var s, s' := r.states[i], r.states[i + 1];
    assert i < j && r.events[i] == (t, Internal);
    assert s' == PushStep(s, t, s.ctl[t].n) by { PushIsNext(s, t); }
    PushLeads(s, t, s.ctl[t].n) by { PushIsNext(s, t); }
    OnlyOwnFlag(r, i, t);
    if s'.ctl[t].AdvLoad? {
      TryAdvanceAlone(r, t, i + 1, j);
      SameCurrent(s, s');
    } else if j > i + 1 {
      assert r.events[i + 1] == (t, Internal);
      InsideIsNot(s', t);
    }
  }

  lemma PushIsNext(s: State, t: Tid)
    requires InternalEnabled(s, t) && s.ctl[t].Pushing?
    ensures Typed(s, t) && s.ctl[t].n in s.fates && InternalStep(s, t) == PushStep(s, t, s.ctl[t].n)
  {
  }

  lemma InsideIsNot(s: State, t: Tid)
    requires t in s.ctl && s.ctl[t].Inside?
    ensures !InternalEnabled(s, t)
  {
  }

  /** The next step of `t` puts a node in its bag. */
  ghost predicate Retiring(s: State, t: Tid, a: Action) { a.Internal? && t in s.ctl && s.ctl[t].Pushing? }

  /** How often `t` has retired a node in the first `i` steps. */
  ghost function Retires(r: Run, t: Tid, i: nat): nat
    requires IsRun(r) && i < |r.states|
  {
    if i == 0 then 0
    else
      var e := r.events[i - 1];
      Retires(r, t, i - 1) + One(e.0 == t && Retiring(r.states[i - 1], t, e.1))
  }

  lemma StepRetires(s: State, u: Tid, a: Action, t: Tid)
    requires Enabled(s, u, a) && t in s.parts
    ensures var s' := Apply(s, u, a);
            && t in s'.parts
            && s'.parts[t].retires ==
               if u == t && Retiring(s, t, a) then (if s.parts[t].retires + 1 == 1024 then 0
                 else s.parts[t].retires + 1)
               else s.parts[t].retires
  {
    hide InternalStep;
    if a.Internal? {
      InternalRetires(s, u, t);
    }
  }

  lemma InternalRetires(s: State, u: Tid, t: Tid)
    requires InternalEnabled(s, u) && t in s.parts
    ensures var s' := InternalStep(s, u);
            && t in s'.parts
            && s'.parts[t].retires ==
               if u == t && s.ctl[t].Pushing? then (if s.parts[t].retires + 1 == 1024 then 0
                 else s.parts[t].retires + 1)
               else s.parts[t].retires
  {
    hide Emptied, EnterFrees, ExpiredBags, RetireFrees, Reuses, CurrentBag;
    if !s.ctl[u].Pushing? && !s.ctl[u].Reading? && !s.ctl[u].Announcing? {
      hide InternalStep;
      InternalMovesControl(s, u);
    }
  }

  lemma NextModulo(n: nat)
    ensures (n + 1) % 1024 == if n % 1024 + 1 == 1024 then 0 else n % 1024 + 1
  {
  }

  /** In every run the counter of a participant is the number of its retires, modulo 1024. */
  lemma {:induction false} RetiresCounted(r: Run, t: Tid, i: nat)
    requires IsRun(r) && i < |r.states| && t in r.states[i].parts
    ensures r.states[i].parts[t].retires == Retires(r, t, i) % 1024
  {
    hide Apply, Enabled, Retiring;
    if i > 0 {
      var s, e := r.states[i - 1], r.events[i - 1];
      SameParts(s, e.0, e.1);
      RetiresCounted(r, t, i - 1);
      StepRetires(s, e.0, e.1, t);
      NextModulo(Retires(r, t, i - 1));
    } else {
      assert r.states[0].parts[t] == NEW_PARTICIPANT;
    }
  }

  lemma SameParts(s: State, t: Tid, a: Action)
    requires Enabled(s, t, a)
    ensures Apply(s, t, a).parts.Keys == s.parts.Keys
  {
    SameThreads(s, t, a);
  }

  /** Retire tries to advance the epoch at every 1024th retire of its thread, and at no other. */
  lemma AdvancesTried(r: Run, t: Tid, i: nat)
    requires IsRun(r) && i < |r.events| && r.events[i].0 == t && Retiring(r.states[i], t, r.events[i].1)
    ensures t in r.states[i + 1].ctl
    ensures r.states[i + 1].ctl[t] == if Retires(r, t, i + 1) % 1024 == 0 then AdvLoad else Inside
  {
    hide Init, InternalStep, InternalEnabled, PushStep;
    var s := r.states[i];
    PushIsNext(s, t);
    PushLeads(s, t, s.ctl[t].n);
    RetiresCounted(r, t, i);
    NextModulo(Retires(r, t, i));
  }

  // ----- opening a Guard, with nobody else about -----

  /** From state `i` on `t` opens a Guard, and only it takes steps until state `j`. */
  ghost predicate Opens(r: Run, t: Tid, i: nat, j: nat) {
    && i < j <= |r.events| && r.events[i] == (t, Begin)
    && forall k {:trigger r.events[k]} :: i < k < j ==> r.events[k] == (t, Internal)
  }

  /** Where the opening of a Guard, begun in `s` and left alone, may be, and after how many steps. */
  ghost predicate Opening(s: State, s': State, t: Tid, n: nat) {
    && t in s'.ctl && t in s'.parts && s'.epoch == s.epoch && s'.advancing == s.advancing
    && Open(s') - {t} == Open(s) - {t}
    && match s'.ctl[t]
       case Joining(head) => head == |s'.joined| && n == 1
       case Reading => n <= 2
       case Announcing(e) => e == s.epoch && n <= 3
       case Inside => s'.parts[t].epoch == Some(s.epoch) && n <= 4
       case _ => false
  }

  lemma LoadOpens(s: State, t: Tid)
    requires Typed(s, t) && s.ctl[t].Reading?
    ensures var s' := LoadStep(s, t);
            && t in s'.ctl && t in s'.parts && s'.ctl[t] == Announcing(s.epoch) && s'.epoch == s.epoch
            && s'.advancing == s.advancing && Open(s') == Open(s)
  {
    hide Emptied, EnterFrees, ExpiredBags;
    assert forall u :: Active(LoadStep(s, t), u) <==> Active(s, u);
  }

  lemma StepOpens(s: State, s': State, t: Tid, n: nat)
    requires Opening(s, s', t, n) && InternalEnabled(s', t)
    ensures Opening(s, InternalStep(s', t), t, n + 1)
  {
    hide LoadStep, PushStep, ScanStep;
    var c, s2 := s'.ctl[t], InternalStep(s', t);
    if c.Reading? {
      LoadOpens(s', t);
    } else if c.Announcing? {
      assert forall u :: u != t ==> (Active(s2, u) <==> Active(s', u));
      assert Open(s2) - {t} == Open(s') - {t};
    } else {
      assert Open(s2) == Open(s');
    }
  }

  lemma BeginOpens(s: State, t: Tid)
    requires Enabled(s, t, Begin)
    ensures Opening(s, BeginStep(s, t), t, 1)
  {
    assert Open(BeginStep(s, t)) == Open(s);
  }

  /**
    A Guard whose opening is left alone is open after at most four steps, and has announced the epoch that was
    current when it was begun. With what DueRetireAdvances says, a thread that opens a Guard while no other is
    open advances the epoch with its next retire that is due.
  */
  lemma {:induction false} OpensAtCurrent(r: Run, t: Tid, i: nat, j: nat)
    requires IsRun(r) && Opens(r, t, i, j)
    ensures Opening(r.states[i], r.states[j], t, j - i) && j - i <= 4
    ensures var s, s' := r.states[i], r.states[j];
            && s'.epoch == s.epoch && Open(s') - {t} == Open(s) - {t}
            && (s'.ctl[t].Inside? ==> s'.parts[t].epoch == Some(s.epoch))
    decreases j
  {
    hide Init, InternalStep, InternalEnabled, Open;
    if j == i + 1 {
      assert r.events[i] == (t, Begin);
      BeginOpens(r.states[i], t);
    } else {
      assert Opens(r, t, i, j - 1);
      OpensAtCurrent(r, t, i, j - 1);
      assert r.events[j - 1] == (t, Internal);
      StepOpens(r.states[i], r.states[j - 1], t, j - 1 - i);
    }
  }

  // ----- what is kept -----

  /** A bag holds nothing that was unlinked more than one epoch before its tag. */
  ghost predicate AgeOk(s: State, n: NodeId)
    requires AllTyped(s) && n in s.fates
  {
    match s.fates[n].place
    case Pending(t) => t in s.parts && s.parts[t].announced <= s.fates[n].at
    case Bagged(t, i) =>
      t in s.parts && i < BAGS && s.parts[t].tags[i].Some? && s.parts[t].tags[i].value <= s.fates[n].at + 1
    case Freed => true
  }

  ghost predicate AgesOk(s: State) { AllTyped(s) && forall n :: n in s.fates ==> AgeOk(s, n) }

  lemma PlaceOf(s: State, t: Tid, n: NodeId)
    requires LagInv(s) && n in s.fates && t in s.ctl
    ensures Typed(s, t) && PlaceOk(s, n) && EpochOk(s, t) && CtlOk(s, t)
  {
    hide BagsOwn, FreedOnce, EpochOk, PlaceOk, CtlOk, TagsOk;
  }

  lemma LoadAges(s: State, t: Tid, n: NodeId)
    requires LagInv(s) && AgesOk(s) && t in s.ctl && s.ctl[t].Reading? && n in s.fates && AllTyped(LoadStep(s, t))
    ensures n in LoadStep(s, t).fates && AgeOk(LoadStep(s, t), n)
  {
    hide LagInv;
    PlaceOf(s, t, n);
    assert AgeOk(s, n);
  }

  lemma PushAges(s: State, t: Tid, n: NodeId, m: NodeId)
    requires LagInv(s) && AgesOk(s) && t in s.ctl && s.ctl[t] == Pushing(n) && n in s.fates && m in s.fates
    requires AllTyped(PushStep(s, t, n))
    ensures m in PushStep(s, t, n).fates && AgeOk(PushStep(s, t, n), m)
  {
    hide LagInv;
    PlaceOf(s, t, n);
    PlaceOf(s, t, m);
    assert AgeOk(s, n) && AgeOk(s, m);
  }

  lemma OtherAges(s: State, s': State, n: NodeId)
    requires AgesOk(s) && AllTyped(s') && s'.parts.Keys == s.parts.Keys && n in s.fates && n in s'.fates
    requires s'.fates[n] == s.fates[n].(holders := s'.fates[n].holders)
    requires forall u :: u in s.parts ==>
               s'.parts[u].tags == s.parts[u].tags && s'.parts[u].announced == s.parts[u].announced
    ensures AgeOk(s', n)
  {
    assert AgeOk(s, n);
  }

  lemma InternalAges(s: State, t: Tid, n: NodeId)
    requires LagInv(s) && AgesOk(s) && InternalEnabled(s, t) && n in s.fates && AllTyped(InternalStep(s, t))
    ensures n in InternalStep(s, t).fates && AgeOk(InternalStep(s, t), n)
  {
    hide LagInv, LoadStep, PushStep, AgesOk, AgeOk, ScanStep;
    if s.ctl[t].Reading? {
      LoadAges(s, t, n);
    } else if s.ctl[t].Pushing? {
      PlaceOf(s, t, n);
      PushAges(s, t, s.ctl[t].n, n);
    } else {
      if !s.ctl[t].Announcing? {
        hide InternalStep;
        InternalMovesControl(s, t);
      }
      OtherAges(s, InternalStep(s, t), n);
    }
  }

  lemma StepAges(s: State, t: Tid, a: Action)
    requires LagInv(s) && AgesOk(s) && Enabled(s, t, a) && AllTyped(Apply(s, t, a))
    ensures AgesOk(Apply(s, t, a))
  {
    hide LagInv, AgesOk, AgeOk, InternalStep, InternalEnabled;
    var s' := Apply(s, t, a);
    forall n | n in s'.fates
      ensures AgeOk(s', n)
    {
      if a == Unlinked(n) {
        NewAge(s, t, n);
      } else if a.Internal? {
        SameNodes(s, t);
        InternalAges(s, t, n);
      } else {
        OtherAges(s, s', n);
      }
    }
    AgesFold(s');
  }

  lemma AgesFold(s: State)
    requires AllTyped(s) && forall n :: n in s.fates ==> AgeOk(s, n)
    ensures AgesOk(s)
  {
  }

  lemma SameNodes(s: State, t: Tid)
    requires InternalEnabled(s, t)
    ensures InternalStep(s, t).fates.Keys == s.fates.Keys
  {
    hide ScanStep, LoadStep, PushStep;
    if s.ctl[t].Reading? {
      assert LoadStep(s, t).fates.Keys == s.fates.Keys by { LoadSameNodes(s, t); }
    } else if s.ctl[t].Pushing? {
      assert PushStep(s, t, s.ctl[t].n).fates.Keys == s.fates.Keys by { PushSameNodes(s, t, s.ctl[t].n); }
    } else if !s.ctl[t].Announcing? {
      hide InternalStep;
      InternalMovesControl(s, t);
    }
  }

  lemma LoadSameNodes(s: State, t: Tid)
    requires Typed(s, t)
    ensures LoadStep(s, t).fates.Keys == s.fates.Keys
  {
    EmptiedPlaces(s, t, ExpiredBags(s.parts[t], s.epoch), LoadStep(s, t).fates);
  }

  lemma PushSameNodes(s: State, t: Tid, n: NodeId)
    requires Typed(s, t) && n in s.fates
    ensures PushStep(s, t, n).fates.Keys == s.fates.Keys
  {
    EmptiedPlaces(s, t, {CurrentBag(s.parts[t])}, Emptied(s.fates, t, {CurrentBag(s.parts[t])}));
  }

  lemma NewAge(s: State, t: Tid, n: NodeId)
    requires LagInv(s) && Enabled(s, t, Unlinked(n)) && AllTyped(UnlinkStep(s, t, n))
    ensures AgeOk(UnlinkStep(s, t, n), n)
  {
    hide LagInv;
    LagHas(s, t);
  }

  lemma {:induction false} AlwaysAges(r: Run, i: nat)
    requires IsRun(r) && i < |r.states|
    ensures AgesOk(r.states[i])
  {
    hide Init, Apply, Enabled, LagInv, AgeOk;
    AlwaysLag(r, i);
    LagTyped(r.states[i]);
    if i == 0 {
      NothingUnlinked(r.states[0]);
    } else {
      AlwaysAges(r, i - 1);
      AlwaysLag(r, i - 1);
      StepAges(r.states[i - 1], r.events[i - 1].0, r.events[i - 1].1);
    }
  }

  lemma NothingUnlinked(s: State)
    requires Init(s)
    ensures s.fates == map[]
  {
  }

  /**
    In every run whatever is still in a bag was unlinked no more than one epoch before the bag's tag, and no more
    than two epochs before the last announcement of its participant.
  */
  lemma KeepsOnlyRecentNodes(r: Run, i: nat, n: NodeId, t: Tid, b: nat)
    requires IsRun(r) && i < |r.states| && InBag(r.states[i], n, t, b)
    ensures var s := r.states[i];
            && Typed(s, t) && b < BAGS && s.parts[t].tags[b].Some? && s.parts[t].tags[b].value <= s.fates[n].at + 1
            && s.parts[t].announced <= s.fates[n].at + 2
  {
    hide IsRun;
    AlwaysAges(r, i);
    AlwaysRecent(r, i);
    assert AgeOk(r.states[i], n);
  }
}
