/** What the reclaimer guarantees over whole runs, and exactly when. */
module EpochRuns {
  import opened Common
  import opened Epochs

  datatype Run = Run(states: seq<State>, events: seq<(Tid, Action)>)

  ghost predicate IsRun(r: Run) {
    && |r.states| == |r.events| + 1 && Init(r.states[0])
    && forall i {:trigger r.events[i]} :: 0 <= i < |r.events| ==>
         && Enabled(r.states[i], r.events[i].0, r.events[i].1)
         && r.states[i + 1] == Apply(r.states[i], r.events[i].0, r.events[i].1)
  }

  /** No announcement in the run is more than `d` epochs behind when it is made. */
  ghost predicate LagAtMost(r: Run, d: int)
    requires IsRun(r)
  {
    forall i {:trigger r.events[i]} :: 0 <= i < |r.events| ==> Lag(r.states[i], r.events[i].0, r.events[i].1) <= d
  }

  /** No node is unlinked when the epoch is more than `d` past the tag that the node is going to get. */
  ghost predicate TagLagAtMost(r: Run, d: int)
    requires IsRun(r)
  {
    forall i {:trigger r.events[i]} :: 0 <= i < |r.events| ==> TagLag(r.states[i], r.events[i].0, r.events[i].1) <= d
  }

  /** No Guard that was open when a node was unlinked is still open once the node is deleted. */
  ghost predicate GraceHolds(s: State) {
    forall n :: IsFreed(s, n) ==> s.fates[n].holders == {}
  }

  // ----- what a participant keeps -----

  /** No bag is tagged further back than the epoch before the one last announced. */
  ghost predicate Recent(p: Participant)
    requires |p.tags| == BAGS
  {
    forall i :: 0 <= i < BAGS && p.tags[i].Some? ==> p.announced <= p.tags[i].value + 1
  }

  lemma LoadedIsRecent(p: Participant, e: nat)
    requires |p.tags| == |p.bags| == BAGS && Recent(p)
    ensures Recent(Loaded(p, e))
  {
  }

  lemma RetiredIsRecent(p: Participant, n: NodeId)
    requires |p.tags| == |p.bags| == BAGS && Recent(p)
    ensures Recent(Retired(p, n))
  {
  }

  ghost predicate AllRecent(s: State) { forall t :: t in s.parts ==> |s.parts[t].tags| == BAGS && Recent(s.parts[t]) }

  lemma InternalRecent(s: State, t: Tid)
    requires AllRecent(s) && InternalEnabled(s, t)
    ensures AllRecent(InternalStep(s, t))
  {
    hide Loaded, Retired, Recent, Emptied, EnterFrees, RetireFrees, ExpiredBags, Reuses, CurrentBag;
    if s.ctl[t].Reading? {
      LoadedIsRecent(s.parts[t], s.epoch);
    } else if s.ctl[t].Announcing? {
      SameTags(s.parts[t], s.parts[t].(epoch := Some(s.ctl[t].e)));
    } else if s.ctl[t].Pushing? {
      RetiredIsRecent(s.parts[t], s.ctl[t].n);
    } else {
      hide InternalStep;
      InternalMovesControl(s, t);
    }
  }

  lemma SameTags(p: Participant, q: Participant)
    requires |p.tags| == BAGS && Recent(p) && q == p.(epoch := q.epoch)
    ensures Recent(q)
  {
  }

  lemma {:induction false} AlwaysRecent(r: Run, i: nat)
    requires IsRun(r) && i < |r.states|
    ensures AllRecent(r.states[i])
  {
    hide Recent, InternalStep, Enabled;
    if i == 0 {
      NewIsRecent();
    } else {
      AlwaysRecent(r, i - 1);
      StepRecent(r.states[i - 1], r.events[i - 1].0, r.events[i - 1].1);
    }
  }

  lemma NewIsRecent()
    ensures |NEW_PARTICIPANT.tags| == BAGS && Recent(NEW_PARTICIPANT)
  {
  }

  lemma StepRecent(s: State, t: Tid, a: Action)
    requires AllRecent(s) && Enabled(s, t, a)
    ensures AllRecent(Apply(s, t, a))
  {
    hide Recent, InternalStep;
    if a.Internal? {
      InternalRecent(s, t);
    } else if a.Leave? {
      SameTags(s.parts[t], s.parts[t].(epoch := None));
    }
  }

  /**
    In every run every participant has let go of what is two epochs behind: once it has announced an epoch,
    and until it announces another, none of its bags is tagged with an epoch before the previous one.
  */
  lemma KeepsOnlyRecent(r: Run, i: nat, t: Tid)
    requires IsRun(r) && i < |r.states| && t in r.states[i].parts
    ensures |r.states[i].parts[t].tags| == BAGS && Recent(r.states[i].parts[t])
  {
    hide Recent, IsRun;
    AlwaysRecent(r, i);
  }

  // ----- where every node is -----

  /** No node is ever lost, in two places, or deleted twice -- in every run, whatever is announced late. */
  lemma {:induction false} OwnershipConserved(r: Run, i: nat)
    requires IsRun(r) && i < |r.states|
    ensures OwnInv(r.states[i])
  {
    if i == 0 {
      InitOwns(r.states[0]);
    } else {
      OwnershipConserved(r, i - 1);
      StepOwns(r.states[i - 1], r.events[i - 1].0, r.events[i - 1].1);
    }
  }

  /** A thread that is inside the reclaimer's code always has its next step. */
  lemma NeverStuck(s: State, t: Tid)
    requires OwnInv(s) && t in s.ctl && !s.ctl[t].Out? && !s.ctl[t].Inside?
    ensures Enabled(s, t, Internal)
  {
    assert CtlOk(s, t);
  }

  lemma {:induction false} AlwaysLag(r: Run, i: nat)
    requires IsRun(r) && i < |r.states|
    ensures LagInv(r.states[i])
  {
    hide LagInv, Init, Apply, Enabled;
    if i == 0 {
      InitLag(r.states[0]);
    } else {
      AlwaysLag(r, i - 1);
      StepLag(r.states[i - 1], r.events[i - 1].0, r.events[i - 1].1);
    }
  }

  /**
    In every run, however late announcements are, an open Guard has announced an epoch no later than the
    one at the moment of its announcement, and the epoch has advanced at most once since that moment.
  */
  lemma EpochLag(r: Run, i: nat, t: Tid)
    requires IsRun(r) && i < |r.states| && Active(r.states[i], t)
    ensures var s := r.states[i]; s.parts[t].epoch.value <= Stamp(s, t) <= s.epoch <= Stamp(s, t) + 1
  {
    AlwaysLag(r, i);
    LagHas(r.states[i], t);
  }

  /** Only the announcing step sets a stamp, and only that of its own thread, which is not active before. */
  lemma StepStamps(s: State, u: Tid)
    requires InternalEnabled(s, u)
    ensures InternalStep(s, u).stamps == if s.ctl[u].Announcing? then s.stamps[u := s.epoch] else s.stamps
  {
    hide Emptied, ExpiredBags, EnterFrees, RetireFrees, Retired, Reuses, CurrentBag, ScanStep;
    if s.ctl[u].AdvScan? {
      ScanMovesControl(s, u, s.ctl[u].at, s.ctl[u].left, s.ctl[u].locked);
    }
  }

  lemma StampStays(s: State, u: Tid, a: Action, t: Tid)
    requires LagInv(s) && Enabled(s, u, a) && Active(s, t)
    ensures Stamp(Apply(s, u, a), t) == Stamp(s, t)
  {
    hide InternalStep, LagInv;
    NotAnnouncing(s, t);
    if a.Internal? {
      StepStamps(s, u);
    }
  }

  lemma NotAnnouncing(s: State, t: Tid)
    requires LagInv(s) && Active(s, t)
    ensures t in s.ctl && !s.ctl[t].Announcing?
  {
    LagHas(s, t);
  }

  lemma {:induction false} SameStamp(r: Run, i: nat, j: nat, t: Tid)
    requires IsRun(r) && i <= j < |r.states| && forall k :: i <= k <= j ==> Active(r.states[k], t)
    ensures Stamp(r.states[j], t) == Stamp(r.states[i], t)
  {
    hide LagInv, Init, Apply, Enabled, Active, Stamp;
    if i < j {
      SameStamp(r, i, j - 1, t);
      AlwaysLag(r, j - 1);
      StampStays(r.states[j - 1], r.events[j - 1].0, r.events[j - 1].1, t);
    }
  }

  /** While a Guard stays open the epoch advances at most once, in every run. */
  lemma OneAdvancePerGuard(r: Run, i: nat, j: nat, t: Tid)
    requires IsRun(r) && i <= j < |r.states| && forall k :: i <= k <= j ==> Active(r.states[k], t)
    ensures r.states[j].epoch <= r.states[i].epoch + 1
  {
    hide Active, Stamp;
    SameStamp(r, i, j, t);
    EpochLag(r, i, t);
    EpochLag(r, j, t);
  }

  lemma {:induction false} TimelyRunsKeepGrace(r: Run, i: nat)
    requires IsRun(r) && TagLagAtMost(r, 0) && i < |r.states|
    ensures GraceInv(r.states[i])
  {
    hide GraceInv, Init, Apply, Enabled, TagLag;
    if i == 0 {
      InitGrace(r.states[0]);
    } else {
      TimelyRunsKeepGrace(r, i - 1);
      StepGrace(r.states[i - 1], r.events[i - 1].0, r.events[i - 1].1);
    }
  }

  /** The grace period, for every run in which no node is unlinked past the epoch of its tag. */
  lemma GracePeriod(r: Run, i: nat)
    requires IsRun(r) && TagLagAtMost(r, 0) && i < |r.states|
    ensures GraceHolds(r.states[i])
  {
    TimelyRunsKeepGrace(r, i);
    assert forall n :: n in r.states[i].fates ==> FateOk(r.states[i], n);
  }

  lemma {:induction false} FreshRunsArePrompt(r: Run, i: nat)
    requires IsRun(r) && LagAtMost(r, 0) && i < |r.states|
    ensures Prompt(r.states[i])
  {
    hide Prompt, LagInv, Apply, Enabled, Lag, Init;
    if i == 0 {
      InitPrompt(r.states[0]);
    } else {
      FreshRunsArePrompt(r, i - 1);
      AlwaysLag(r, i - 1);
      var s, t, a := r.states[i - 1], r.events[i - 1].0, r.events[i - 1].1;
      NeverEarly(s, t, a);
      StepPrompt(s, t, a);
    }
  }

  lemma InitPrompt(s: State)
    requires Init(s)
    ensures Prompt(s)
  {
  }

  lemma NeverEarly(s: State, t: Tid, a: Action)
    requires LagInv(s) && Enabled(s, t, a)
    ensures Lag(s, t, a) >= 0
  {
    if t in s.ctl {
      LagHas(s, t);
    }
  }

  /** Where every announcement is still current when it is stored, every tag is in time. */
  lemma FreshRunsTagInTime(r: Run)
    requires IsRun(r) && LagAtMost(r, 0)
    ensures TagLagAtMost(r, 0)
  {
    hide Prompt, LagInv, Apply, Enabled, Lag, TagLag, Init;
    forall i | 0 <= i < |r.events|
      ensures TagLag(r.states[i], r.events[i].0, r.events[i].1) <= 0
    {
      FreshRunsArePrompt(r, i);
      AlwaysLag(r, i);
      PromptTags(r.states[i], r.events[i].0, r.events[i].1);
    }
  }

  // ----- one stale announcement is enough -----

  const A: Tid := 0
  const B: Tid := 1

  ghost function Last(r: Run): State
    requires IsRun(r)
  {
    r.states[|r.states| - 1]
  }

  /** A run of the threads `A` and `B` in which no announcement, and no tag, is more than one epoch late. */
  ghost predicate Good(r: Run) {
    && IsRun(r) && LagAtMost(r, 1) && TagLagAtMost(r, 1) && LagInv(Last(r))
    && Typed(Last(r), A) && Typed(Last(r), B) && Last(r).parts.Keys == {A, B} == Last(r).ctl.Keys
  }

  lemma Do(r: Run, t: Tid, a: Action) returns (q: Run)
    requires Good(r) && Enabled(Last(r), t, a) && Lag(Last(r), t, a) <= 1 && TagLag(Last(r), t, a) <= 1
    ensures Good(q) && Last(q) == Apply(Last(r), t, a)
  {
    hide Enabled, Apply, Lag, TagLag, LagInv, Init;
    q := Run(r.states + [Apply(Last(r), t, a)], r.events + [(t, a)]);
    StepLag(Last(r), t, a);
    SameThreads(Last(r), t, a);
    LagIsTyped(Apply(Last(r), t, a));
    forall i | 0 <= i < |q.events|
      ensures Enabled(q.states[i], q.events[i].0, q.events[i].1)
      ensures q.states[i + 1] == Apply(q.states[i], q.events[i].0, q.events[i].1)
      ensures Lag(q.states[i], q.events[i].0, q.events[i].1) <= 1
      ensures TagLag(q.states[i], q.events[i].0, q.events[i].1) <= 1
    {
      if i < |r.events| {
        assert q.events[i] == r.events[i];
      }
    }
  }

  lemma SameThreads(s: State, t: Tid, a: Action)
    requires Enabled(s, t, a)
    ensures Apply(s, t, a).parts.Keys == s.parts.Keys
  {
  }

  lemma LagIsTyped(s: State)
    requires LagInv(s)
    ensures s.ctl.Keys == s.parts.Keys && forall t :: t in s.parts ==> Typed(s, t)
  {
  }

  /** The reclaimer takes the next step of `t`, which is not an announcement. */
  lemma Go(r: Run, t: Tid) returns (q: Run)
    requires Good(r) && t in Last(r).ctl && !Last(r).ctl[t].Out? && !Last(r).ctl[t].Inside?
    requires !Last(r).ctl[t].Announcing?
    ensures Good(q) && Enabled(Last(r), t, Internal) && Last(q) == InternalStep(Last(r), t)
  {
    hide IsRun, LagAtMost, TagLagAtMost, Last, OwnInv;
    assert OwnInv(Last(r)) by { LagHas(Last(r), t); }
    NeverStuck(Last(r), t);
    q := Do(r, t, Internal);
  }

  lemma Unused(m: map<NodeId, Fate>) returns (n: NodeId)
    ensures n !in m
  {
    n := Bound(m.Keys);
  }

  lemma {:induction false} Bound(s: set<nat>) returns (n: nat)
    ensures forall x: nat :: x in s ==> x < n
  {
    if s == {} {
      n := 0;
    } else {
      var x :| x in s;
      var m := Bound(s - {x});
      n := if x < m then m else x + 1;
      assert forall y :: y in s ==> y == x || y in s - {x};
    }
  }

  /** What retiring nodes in `B` leaves alone. */
  ghost predicate OnlyBags(s: State, s': State) {
    && s'.epoch == s.epoch && s'.advancing == s.advancing && s'.joined == s.joined
    && A in s.parts && A in s'.parts && B in s.parts && B in s'.parts && A in s.ctl && A in s'.ctl
    && s'.parts[A] == s.parts[A] && s'.ctl[A] == s.ctl[A]
    && s'.parts[B].epoch == s.parts[B].epoch && s'.parts[B].announced == s.parts[B].announced
    && KeepsBags(s, s', A)
  }

  /** Nodes in the bags of `t` stay there, with the same holders. */
  ghost predicate KeepsBags(s: State, s': State, t: Tid) {
    forall n, i :: InBag(s, n, t, i) ==> InBag(s', n, t, i) && s'.fates[n] == s.fates[n]
  }

  /** `B` unlinks a node and retires it. */
  lemma RetireOne(r: Run) returns (q: Run)
    requires Good(r) && Last(r).ctl[B].Inside? && Last(r).epoch <= Last(r).parts[B].announced + 2
    ensures Good(q) && OnlyBags(Last(r), Last(q))
    ensures var k := Last(r).parts[B].retires + 1;
            if k == RETIRES_PER_ADVANCE then Last(q).parts[B].retires == 0 && Last(q).ctl[B].AdvLoad?
            else Last(q).parts[B].retires == k && Last(q).ctl[B].Inside?
  {
    hide LagInv, IsRun, LagAtMost, TagLagAtMost, Last;
    var n := Unused(Last(r).fates);
    var q1 := Do(r, B, Unlinked(n));
    q := Go(q1, B);
  }

  /** `B` retires until it is about to try to advance the epoch. */
  lemma {:induction false} RetireMany(r: Run) returns (q: Run)
    requires Good(r) && Last(r).ctl[B].Inside? && Last(r).parts[B].retires < RETIRES_PER_ADVANCE
    requires Last(r).epoch <= Last(r).parts[B].announced + 2
    ensures Good(q) && OnlyBags(Last(r), Last(q)) && Last(q).ctl[B].AdvLoad? && Last(q).parts[B].retires == 0
    decreases RETIRES_PER_ADVANCE - Last(r).parts[B].retires
  {
    q := RetireOne(r);
    if Last(q).ctl[B].Inside? {
      var q1 := q;
      q := RetireMany(q1);
    }
  }

  /** `B`, with the only open Guard, scans twice and is about to advance the epoch. */
  lemma ScanBoth(r: Run) returns (q: Run)
    requires Good(r) && Last(r).ctl[B].AdvLoad? && !Last(r).advancing && Last(r).joined == [A, B]
    requires Last(r).parts[A].epoch == None && Last(r).parts[B].epoch == Some(Last(r).epoch)
    ensures Good(q) && Last(q) == Last(r).(ctl := Last(r).ctl[B := AdvCas(Last(r).epoch)], advancing := true)
  {
    hide LagInv, IsRun, LagAtMost, TagLagAtMost, Last;
    var s, at := Last(r), Last(r).epoch;
    var q1 := Go(r, B);
    var q4 := ScanAll(q1, at, false);
    assert Last(q4).ctl == s.ctl[B := AdvLock(at)];
    var q5 := Go(q4, B);
    assert Last(q5).ctl == s.ctl[B := AdvHead(at, true)];
    q := ScanAll(q5, at, true);
    assert Last(q).ctl == s.ctl[B := AdvCas(at)];
  }

  lemma ScanAll(r: Run, at: nat, locked: bool) returns (q: Run)
    requires Good(r) && Last(r).ctl[B] == AdvHead(at, locked) && Last(r).joined == [A, B]
    requires Last(r).parts[A].epoch == None && Last(r).parts[B].epoch == Some(at)
    ensures Good(q) && Last(q) == Last(r).(ctl := Last(r).ctl[B := if locked then AdvCas(at) else AdvLock(at)])
  {
    hide LagInv, IsRun, LagAtMost, TagLagAtMost, Last;
    var s := Last(r);
    var q1 := Go(r, B);
    assert Last(q1).ctl[B] == AdvScan(at, 2, locked);
    var q2 := Go(q1, B);
    assert Last(q2).ctl[B] == AdvScan(at, 1, locked);
    q := Go(q2, B);
    assert Last(q).ctl == s.ctl[B := if locked then AdvCas(at) else AdvLock(at)];
  }

  /** `B` advances the epoch it has scanned for. */
  lemma Advance(r: Run) returns (q: Run)
    requires Good(r) && Last(r).ctl[B] == AdvCas(Last(r).epoch)
    ensures Good(q)
    ensures Last(q) == Last(r).(ctl := Last(r).ctl[B := Inside], epoch := Last(r).epoch + 1, advancing := false)
  {
    hide LagInv, IsRun, LagAtMost, TagLagAtMost, Last;
    var s := Last(r);
    var q1 := Go(r, B);
    q := Go(q1, B);
    assert Last(q).ctl == s.ctl[B := Inside];
  }

  lemma Announced(s: State)
    requires LagInv(s) && B in s.ctl && Active(s, B)
    ensures s.parts[B].epoch == Some(s.parts[B].announced)
  {
    LagHas(s, B);
  }

  /** `B` retires a batch of nodes and, with nobody else's Guard open, advances the epoch. */
  lemma Batch(r: Run) returns (q: Run)
    requires Good(r) && BetweenBatches(Last(r)) && Last(r).parts[A].epoch == None
    requires Last(r).parts[B].epoch == Some(Last(r).epoch)
    ensures Good(q) && BetweenBatches(Last(q)) && Last(q).epoch == Last(r).epoch + 1
    ensures Last(q).parts[A] == Last(r).parts[A] && Last(q).ctl[A] == Last(r).ctl[A]
    ensures Last(q).parts[B].epoch == Last(r).parts[B].epoch && KeepsBags(Last(r), Last(q), A)
  {
    hide LagInv, IsRun, LagAtMost, TagLagAtMost, Last, InternalStep;
    Announced(Last(r));
    var q1 := RetireMany(r);
    var q2 := ScanBoth(q1);
    q := Advance(q2);
  }

  /** `B`'s Guard is open, and nobody is advancing the epoch. */
  ghost predicate BetweenBatches(s: State) {
    && Typed(s, A) && Typed(s, B) && s.joined == [A, B] && !s.advancing && s.ctl[B].Inside?
    && s.parts[B].retires == 0
  }

  /** `B` closes its Guard and opens another. */
  lemma Reopen(r: Run) returns (q: Run)
    requires Good(r) && BetweenBatches(Last(r))
    ensures Good(q) && BetweenBatches(Last(q)) && Last(q).epoch == Last(r).epoch
    ensures Last(q).parts[B].epoch == Some(Last(q).epoch)
    ensures Last(q).parts[A] == Last(r).parts[A] && Last(q).ctl[A] == Last(r).ctl[A]
  {
    hide LagInv, IsRun, LagAtMost, TagLagAtMost, Last, Collected, Emptied;
    var q1 := Do(r, B, Leave);
    var q2 := Do(q1, B, Begin);
    var q3 := Go(q2, B);
    q := Do(q3, B, Internal);
  }

  /** `A` has loaded epoch 0 and not announced it; `B`'s Guard is open at epoch 0. */
  lemma Opening() returns (q: Run)
    ensures Good(q) && BetweenBatches(Last(q)) && Last(q).epoch == 0 && Last(q).parts[B].epoch == Some(0)
    ensures Last(q).ctl[A] == Announcing(0) && Last(q).parts[A] == NEW_PARTICIPANT
  {
    var r := Start();
    hide LagInv, IsRun, LagAtMost, TagLagAtMost, Last;
    var q1 := Enter(r, A);
    assert Last(q1).ctl[B].Out?;
    q := EnterB(q1);
  }

  lemma Start() returns (r: Run)
    ensures Good(r) && Last(r).joined == [] && Last(r).epoch == 0 && !Last(r).advancing
    ensures Last(r).ctl[A] == Last(r).ctl[B] == Out
    ensures Last(r).parts[A] == Last(r).parts[B] == NEW_PARTICIPANT
  {
    var s := State(0, false, [], map[A := NEW_PARTICIPANT, B := NEW_PARTICIPANT], map[A := Out, B := Out],
                   multiset{}, map[], map[]);
    InitLag(s);
    r := Run([s], []);
  }

  /** A new thread joins and loads epoch 0. */
  lemma Enter(r: Run, t: Tid) returns (q: Run)
    requires Good(r) && t in {A, B} && Last(r).ctl[t].Out? && t !in Last(r).joined
    requires Last(r).epoch == 0 && Last(r).parts[t] == NEW_PARTICIPANT
    ensures Good(q) && Last(q) == Last(r).(joined := Last(r).joined + [t], ctl := Last(r).ctl[t := Announcing(0)])
  {
    hide LagInv, IsRun, LagAtMost, TagLagAtMost, Last;
    var s := Last(r);
    var q1 := Do(r, t, Begin);
    var q2 := Go(q1, t);
    q := Go(q2, t);
    LoadsNothing(Last(q2), t);
    assert Last(q).ctl == s.ctl[t := Announcing(0)];
  }

  lemma EnterB(r: Run) returns (q: Run)
    requires Good(r) && Last(r).joined == [A] && Last(r).epoch == 0 && !Last(r).advancing
    requires Last(r).ctl[B].Out? && Last(r).parts[B] == NEW_PARTICIPANT
    ensures Good(q) && BetweenBatches(Last(q)) && Last(q).epoch == 0 && Last(q).parts[B].epoch == Some(0)
    ensures Last(q).ctl[A] == Last(r).ctl[A] && Last(q).parts[A] == Last(r).parts[A]
  {
    hide LagInv, IsRun, LagAtMost, TagLagAtMost, Last, Collected, Emptied;
    var q1 := Enter(r, B);
    q := Do(q1, B, Internal);
  }

  /** `B` is about to advance the epoch from 1 when `A` announces the epoch 0 it loaded long ago. */
  lemma StaleAnnouncement() returns (q: Run)
    ensures Good(q) && BetweenBatches(Last(q)) && Last(q).epoch == 2
    ensures Last(q).ctl[A].Inside? && Last(q).parts[A] == NEW_PARTICIPANT.(epoch := Some(0))
  {
    var r := Opening();
    hide LagInv, IsRun, LagAtMost, TagLagAtMost, Last, Collected, Emptied, OnlyBags, KeepsBags;
    var q1 := Batch(r);
    var q2 := Reopen(q1);
    q := StaleDuringScan(q2);
  }

  lemma StaleDuringScan(r: Run) returns (q: Run)
    requires Good(r) && BetweenBatches(Last(r)) && Last(r).epoch == 1 && Last(r).parts[B].epoch == Some(1)
    requires Last(r).ctl[A] == Announcing(0) && Last(r).parts[A] == NEW_PARTICIPANT
    ensures Good(q) && BetweenBatches(Last(q)) && Last(q).epoch == 2
    ensures Last(q).ctl[A].Inside? && Last(q).parts[A] == NEW_PARTICIPANT.(epoch := Some(0))
  {
    hide LagInv, IsRun, LagAtMost, TagLagAtMost, Last, Collected, Collect, Emptied, KeepsBags;
    Announced(Last(r));
    var q1 := RetireMany(r);
    var q2 := ScanBoth(q1);
    var q3 := Do(q2, A, Internal);
    q := Advance(q3);
  }

  /** `A` unlinks `n` and retires it while `B`'s Guard is open at epoch 2, then closes its own Guard. */
  lemma EarlyTag(r: Run) returns (q: Run, n: NodeId)
    requires Good(r) && BetweenBatches(Last(r)) && Last(r).epoch == 2 && Last(r).parts[B].epoch == Some(2)
    requires Last(r).ctl[A].Inside? && Last(r).parts[A] == NEW_PARTICIPANT.(epoch := Some(0))
    ensures Good(q) && BetweenBatches(Last(q)) && Last(q).epoch == 2 && Last(q).parts[B].epoch == Some(2)
    ensures Last(q).ctl[A].Out? && Last(q).parts[A].epoch == None && Last(q).parts[A].announced == 0
    ensures Last(q).parts[A].tags[1] == Some(1) && InBag(Last(q), n, A, 1) && B in Last(q).fates[n].holders
  {
    hide LagInv, IsRun, LagAtMost, TagLagAtMost, Last, Emptied;
    n := Unused(Last(r).fates);
    var q1 := Do(r, A, Unlinked(n));
    assert B in Last(q1).fates[n].holders;
    q := TagAndLeave(q1, n);
  }

  lemma TagAndLeave(r: Run, n: NodeId) returns (q: Run)
    requires Good(r) && Last(r).ctl[A] == Pushing(n) && n in Last(r).fates && B in Last(r).fates[n].holders
    requires Last(r).parts[A] == NEW_PARTICIPANT.(epoch := Some(0)) && Last(r).joined == [A, B]
    ensures Good(q) && Last(q).ctl == Last(r).ctl[A := Out] && Last(q).parts[B] == Last(r).parts[B]
    ensures Last(q).joined == [A, B] && Last(q).epoch == Last(r).epoch && Last(q).advancing == Last(r).advancing
    ensures Last(q).parts[A].epoch == None && Last(q).parts[A].announced == 0
    ensures Last(q).parts[A].tags[1] == Some(1) && InBag(Last(q), n, A, 1) && B in Last(q).fates[n].holders
  {
    hide LagInv, IsRun, LagAtMost, TagLagAtMost, Last, Emptied, RetireFrees;
    var q1 := Go(r, A);
    q := Do(q1, A, Leave);
    assert Last(q).ctl == Last(r).ctl[A := Out];
  }

  /** Two epochs past its tag `A` deletes `n`, which `B` may have been holding all along. */
  lemma EarlyDelete(r: Run, n: NodeId) returns (q: Run)
    requires Good(r) && BetweenBatches(Last(r)) && Last(r).epoch == 3
    requires Last(r).ctl[A].Out? && Last(r).parts[A].epoch == None && Last(r).parts[A].announced == 0
    requires Last(r).parts[A].tags[1] == Some(1) && InBag(Last(r), n, A, 1) && B in Last(r).fates[n].holders
    ensures Good(q) && IsFreed(Last(q), n) && B in Last(q).fates[n].holders
  {
    hide LagInv, IsRun, LagAtMost, TagLagAtMost, Last, Collected, Collect;
    var q1 := Do(r, A, Begin);
    q := Go(q1, A);
  }

  /**
    A run in which one announcement is one epoch late, one node is unlinked one epoch past its tag, and it
    is deleted under a Guard that was open when it was unlinked.
  */
  lemma OneEpochLate() returns (q: Run)
    ensures IsRun(q) && LagAtMost(q, 1) && TagLagAtMost(q, 1) && !GraceHolds(q.states[|q.states| - 1])
  {
    var r := StaleAnnouncement();
    q := OneEpochLateFrom(r);
  }

  lemma OneEpochLateFrom(r: Run) returns (q: Run)
    requires Good(r) && BetweenBatches(Last(r)) && Last(r).epoch == 2
    requires Last(r).ctl[A].Inside? && Last(r).parts[A] == NEW_PARTICIPANT.(epoch := Some(0))
    ensures IsRun(q) && LagAtMost(q, 1) && TagLagAtMost(q, 1) && !GraceHolds(q.states[|q.states| - 1])
  {
    hide LagInv;
    var q1 := Reopen(r);
    var q2, n := EarlyTag(q1);
    var q3 := Batch(q2);
    q := EarlyDelete(q3, n);
    assert IsFreed(Last(q), n);
  }

  /**
    Exactly when the grace period holds: in all runs in which no node is unlinked when the epoch is more
    than `d` past the tag it will get (src/EpochReclaimer.h:106), if and only if `d` is 0. And in all runs
    whose announcements are at most `d` epochs late, if and only if `d` is 0: the Guard loads the epoch and
    announces it later without looking again (src/EpochReclaimer.h:57-61, 164-171).
  */
  lemma GracePeriodExactly(d: nat)
    ensures (forall r, i: nat :: IsRun(r) && TagLagAtMost(r, d) && i < |r.states| ==> GraceHolds(r.states[i])) <==>
            d == 0
    ensures (forall r, i: nat :: IsRun(r) && LagAtMost(r, d) && i < |r.states| ==> GraceHolds(r.states[i])) <==> d == 0
  {
    if d == 0 {
      forall r, i: nat | IsRun(r) && (TagLagAtMost(r, d) || LagAtMost(r, d)) && i < |r.states|
        ensures GraceHolds(r.states[i])
      {
        if LagAtMost(r, d) {
          FreshRunsTagInTime(r);
        }
        GracePeriod(r, i);
      }
    } else {
      var q := OneEpochLate();
      assert LagAtMost(q, d) && TagLagAtMost(q, d);
      assert !GraceHolds(q.states[|q.states| - 1]);
    }
  }
}
