/**
  EpochReclaimer as a state machine (src/EpochReclaimer.h): one step is one access to a shared word,
  together with the thread-local work up to the next one. Any number of threads take part, in any
  interleaving; they join the list of participants while others scan it, and several may try to
  advance the epoch at once.

  A node enters the machine when a thread inside a Guard unlinks it from the list. `Fate` records, as
  history, what happened to it: the epoch at that moment, which Guards that were open at that moment
  are still open, and where the node is now. `stamps` records, as history too, the epoch at the moment
  a thread last stored its announcement, which may be later than the epoch it announced.
*/
module Epochs {
  import opened Common

  const BAGS: nat := 3
  const RETIRES_PER_ADVANCE: nat := 1024

  /** The fields of the source's Participant; `None` is kInactive. */
  datatype Participant = Participant(epoch: Option<nat>, announced: nat, retires: nat,
                                     tags: seq<Option<nat>>, bags: seq<multiset<NodeId>>)

  const NEW_PARTICIPANT: Participant :=
    Participant(None, 0, 0, [None, None, None], [multiset{}, multiset{}, multiset{}])

  /** Where a thread is in the code of the reclaimer. */
  datatype Ctl =
    | Out                                            // no Guard
    | Joining(head: nat)                             // Adopt: about to CAS participants_, `head` long when read
    | Reading                                        // Guard: about to load epoch_, and then to collect
    | Announcing(e: nat)                             // Enter(e): about to store the announcement
    | Inside                                         // Guard open, running the caller's code
    | Pushing(n: NodeId)                             // Retire(n)
    | AdvLoad                                        // TryAdvance: about to load epoch_
    | AdvHead(at: nat, locked: bool)                 // AllAtEpoch: about to load participants_
    | AdvScan(at: nat, left: nat, locked: bool)      // AllAtEpoch: `left` participants still to look at
    | AdvLock(at: nat)                               // about to exchange advancing_
    | AdvCas(at: nat)                                // about to CAS epoch_
    | AdvUnlock                                      // about to clear advancing_

  datatype Place = Pending(owner: Tid) | Bagged(of: Tid, index: nat) | Freed

  datatype Fate = Fate(at: nat, holders: set<Tid>, place: Place)

  /** `joined` lists the participants, oldest first; `freed` counts how often each node was deleted. */
  datatype State = State(epoch: nat, advancing: bool, joined: seq<Tid>,
                         parts: map<Tid, Participant>, ctl: map<Tid, Ctl>,
                         freed: multiset<NodeId>, fates: map<NodeId, Fate>, stamps: map<Tid, nat>)

  datatype Action =
    | Begin                // a Guard is constructed
    | Internal             // the next step of the reclaimer's own code
    | Unlinked(n: NodeId)  // the caller unlinks `n`, and will retire it next
    | Leave                // the Guard is destroyed

  ghost predicate Typed(s: State, t: Tid) {
    t in s.parts && t in s.ctl && |s.parts[t].tags| == BAGS && |s.parts[t].bags| == BAGS
  }

  ghost predicate AllTyped(s: State) {
    && s.parts.Keys == s.ctl.Keys
    && forall t :: t in s.parts ==> Typed(s, t)
  }

  // ----- the owner's side of a participant -----

  predicate Expired(tag: Option<nat>, now: nat) { tag.Some? && tag.value + 2 <= now }

  function Outdated(p: Participant, i: nat, now: nat): multiset<NodeId>
    requires i < |p.tags| == |p.bags|
  {
    if Expired(p.tags[i], now) then p.bags[i] else multiset{}
  }

  /** CollectGarbage: what it leaves, and what it deletes. */
  function Collect(p: Participant, now: nat): (q: Participant)
    requires |p.tags| == |p.bags| == BAGS
    ensures |q.tags| == |q.bags| == BAGS
  {
    p.(tags := seq(BAGS, i requires 0 <= i < BAGS => if Expired(p.tags[i], now) then None else p.tags[i]),
       bags := seq(BAGS, i requires 0 <= i < BAGS => if Expired(p.tags[i], now) then multiset{} else p.bags[i]))
  }

  function Collected(p: Participant, now: nat): multiset<NodeId>
    requires |p.tags| == |p.bags| == BAGS
  {
    Outdated(p, 0, now) + Outdated(p, 1, now) + Outdated(p, 2, now)
  }

  /** Enter up to its store: it collects only when the epoch has moved since the last Guard. */
  function Loaded(p: Participant, e: nat): (q: Participant)
    requires |p.tags| == |p.bags| == BAGS
    ensures |q.tags| == |q.bags| == BAGS
  {
    (if e != p.announced then Collect(p, e) else p).(announced := e)
  }

  /** The whole of Enter. */
  function Entered(p: Participant, e: nat): (q: Participant)
    requires |p.tags| == |p.bags| == BAGS
    ensures |q.tags| == |q.bags| == BAGS
  {
    Loaded(p, e).(epoch := Some(e))
  }

  function EnterFrees(p: Participant, e: nat): multiset<NodeId>
    requires |p.tags| == |p.bags| == BAGS
  {
    if e != p.announced then Collected(p, e) else multiset{}
  }

  function CurrentBag(p: Participant): (i: nat)
    ensures i < BAGS
  {
    (p.announced + 1) % BAGS
  }

  predicate Reuses(p: Participant)
    requires |p.tags| == BAGS
  {
    p.tags[CurrentBag(p)] != Some(p.announced + 1)
  }

  /** The bag part of Retire: the bag is emptied first if it still carries an older tag. */
  function Retired(p: Participant, n: NodeId): (q: Participant)
    requires |p.tags| == |p.bags| == BAGS
    ensures |q.tags| == |q.bags| == BAGS
  {
    var i := CurrentBag(p);
    p.(tags := p.tags[i := Some(p.announced + 1)],
       bags := p.bags[i := (if Reuses(p) then multiset{} else p.bags[i]) + multiset{n}],
       retires := if p.retires + 1 == RETIRES_PER_ADVANCE then 0 else p.retires + 1)
  }

  function RetireFrees(p: Participant): multiset<NodeId>
    requires |p.tags| == |p.bags| == BAGS
  {
    if Reuses(p) then p.bags[CurrentBag(p)] else multiset{}
  }

  // ----- steps -----

  /** The Guard of `t` is open as far as other threads can tell. */
  ghost predicate Active(s: State, t: Tid) { t in s.parts && s.parts[t].epoch.Some? }

  ghost function Open(s: State): set<Tid> { set t | t in s.parts && Active(s, t) }

  function SetCtl(s: State, t: Tid, c: Ctl): State { s.(ctl := s.ctl[t := c]) }

  ghost function AfterScan(at: nat, locked: bool, ok: bool): Ctl {
    if locked then (if ok then AdvCas(at) else AdvUnlock)
    else (if ok then AdvLock(at) else Inside)
  }

  ghost function Scanning(at: nat, left: nat, locked: bool): Ctl {
    if left == 0 then AfterScan(at, locked, true) else AdvScan(at, left, locked)
  }

  /** Fates after thread `t` has emptied those of its bags that `gone` selects. */
  ghost function Emptied(fates: map<NodeId, Fate>, t: Tid, gone: set<nat>): map<NodeId, Fate> {
    map n | n in fates ::
      if fates[n].place.Bagged? && fates[n].place.of == t && fates[n].place.index in gone
      then fates[n].(place := Freed) else fates[n]
  }

  ghost function ExpiredBags(p: Participant, e: nat): set<nat>
    requires |p.tags| == BAGS
  {
    set i | 0 <= i < BAGS && e != p.announced && Expired(p.tags[i], e)
  }

  /** The load of the epoch, and what Enter does before it announces. */
  ghost function LoadStep(s: State, t: Tid): State
    requires Typed(s, t)
  {
    var p, e := s.parts[t], s.epoch;
    SetCtl(s, t, Announcing(e)).(parts := s.parts[t := Loaded(p, e)],
                                 freed := s.freed + EnterFrees(p, e),
                                 fates := Emptied(s.fates, t, ExpiredBags(p, e)))
  }

  ghost function AnnounceStep(s: State, t: Tid, e: nat): State
    requires t in s.parts
  {
    SetCtl(s, t, Inside).(parts := s.parts[t := s.parts[t].(epoch := Some(e))], stamps := s.stamps[t := s.epoch])
  }

  ghost function PushStep(s: State, t: Tid, n: NodeId): State
    requires Typed(s, t) && n in s.fates
  {
    var p := s.parts[t];
    var q := Retired(p, n);
    var emptied := if Reuses(p) then Emptied(s.fates, t, {CurrentBag(p)}) else s.fates;
    SetCtl(s, t, if q.retires == 0 then AdvLoad else Inside).(
      parts := s.parts[t := q],
      freed := s.freed + RetireFrees(p),
      fates := emptied[n := s.fates[n].(place := Bagged(t, CurrentBag(p)))])
  }

  ghost function ScanStep(s: State, t: Tid, at: nat, left: nat, locked: bool): State
    requires 0 < left <= |s.joined| && s.joined[left - 1] in s.parts
  {
    var seen := s.parts[s.joined[left - 1]].epoch;
    SetCtl(s, t, if seen != None && seen != Some(at) then AfterScan(at, locked, false)
                 else Scanning(at, left - 1, locked))
  }

  /** The next step of the reclaimer's own code. */
  ghost function InternalStep(s: State, t: Tid): State
    requires InternalEnabled(s, t)
  {
    match s.ctl[t]
    case Joining(head) =>
      if |s.joined| == head then SetCtl(s, t, Reading).(joined := s.joined + [t])
      else SetCtl(s, t, Joining(|s.joined|))
    case Reading => LoadStep(s, t)
    case Announcing(e) => AnnounceStep(s, t, e)
    case Pushing(n) => PushStep(s, t, n)
    case AdvLoad => SetCtl(s, t, AdvHead(s.epoch, false))
    case AdvHead(at, locked) => SetCtl(s, t, Scanning(at, |s.joined|, locked))
    case AdvScan(at, left, locked) => ScanStep(s, t, at, left, locked)
    case AdvLock(at) =>
      if s.advancing then SetCtl(s, t, Inside)
      else SetCtl(s, t, AdvHead(at, true)).(advancing := true)
    case AdvCas(at) =>
      SetCtl(s, t, AdvUnlock).(epoch := if s.epoch == at then at + 1 else s.epoch)
    case AdvUnlock => SetCtl(s, t, Inside).(advancing := false)
    case _ => s
  }

  ghost predicate InternalEnabled(s: State, t: Tid) {
    && Typed(s, t) && !s.ctl[t].Out? && !s.ctl[t].Inside?
    && (s.ctl[t].Pushing? ==> s.ctl[t].n in s.fates)
    && (s.ctl[t].AdvScan? ==> 0 < s.ctl[t].left <= |s.joined| && s.joined[s.ctl[t].left - 1] in s.parts)
  }

  ghost function BeginStep(s: State, t: Tid): State {
    SetCtl(s, t, if t in s.joined then Reading else Joining(|s.joined|))
  }

  ghost function UnlinkStep(s: State, t: Tid, n: NodeId): State {
    SetCtl(s, t, Pushing(n)).(fates := s.fates[n := Fate(s.epoch, Open(s), Pending(t))])
  }

  ghost function LeaveStep(s: State, t: Tid): State
    requires t in s.parts
  {
    SetCtl(s, t, Out).(
      parts := s.parts[t := s.parts[t].(epoch := None)],
      fates := map n | n in s.fates :: s.fates[n].(holders := s.fates[n].holders - {t}))
  }

  ghost predicate Enabled(s: State, t: Tid, a: Action) {
    match a
    case Begin => Typed(s, t) && s.ctl[t].Out?
    case Internal => InternalEnabled(s, t)
    case Unlinked(n) => Typed(s, t) && s.ctl[t].Inside? && n !in s.fates
    case Leave => Typed(s, t) && s.ctl[t].Inside?
  }

  ghost function Apply(s: State, t: Tid, a: Action): State
    requires Enabled(s, t, a)
  {
    match a
    case Begin => BeginStep(s, t)
    case Internal => InternalStep(s, t)
    case Unlinked(n) => UnlinkStep(s, t, n)
    case Leave => LeaveStep(s, t)
  }

  /** How far behind the epoch the announcement made by this step is; 0 for every other step. */
  ghost function Lag(s: State, t: Tid, a: Action): int {
    if a.Internal? && t in s.ctl && s.ctl[t].Announcing? then s.epoch - s.ctl[t].e else 0
  }

  /**
    How far the epoch has passed the tag that Retire will give to the node unlinked by this step; 0 for every
    other step.
  */
  ghost function TagLag(s: State, t: Tid, a: Action): int {
    if a.Unlinked? && t in s.parts then s.epoch - (s.parts[t].announced + 1) else 0
  }

  /** The epoch at the moment `t` last stored its announcement. */
  ghost function Stamp(s: State, t: Tid): nat { if t in s.stamps then s.stamps[t] else 0 }

  ghost predicate Init(s: State) {
    && s.epoch == 0 && !s.advancing && s.joined == [] && s.freed == multiset{} && s.fates == map[] && s.stamps == map[]
    && s.parts.Keys == s.ctl.Keys
    && (forall t :: t in s.parts ==> s.parts[t] == NEW_PARTICIPANT)
    && (forall t :: t in s.ctl ==> s.ctl[t] == Out)
  }

  // ----- ownership, in every run -----

  ghost predicate InGuard(c: Ctl) { !c.Out? && !c.Joining? && !c.Reading? && !c.Announcing? }

  ghost predicate InBag(s: State, n: NodeId, t: Tid, i: nat) {
    n in s.fates && s.fates[n].place.Bagged? && s.fates[n].place.of == t && s.fates[n].place.index == i
  }

  ghost predicate IsFreed(s: State, n: NodeId) { n in s.fates && s.fates[n].place.Freed? }

  ghost predicate IsPending(s: State, n: NodeId, t: Tid) {
    n in s.fates && s.fates[n].place.Pending? && s.fates[n].place.owner == t
  }

  /** Bag `i` of `t` contains exactly the nodes whose place it is, once each. */
  ghost predicate BagOwns(s: State, t: Tid, i: nat)
    requires Typed(s, t) && i < BAGS
  {
    forall n :: s.parts[t].bags[i][n] == One(InBag(s, n, t, i))
  }

  ghost predicate BagsOwn(s: State)
    requires AllTyped(s)
  {
    forall t, i: nat {:trigger BagOwns(s, t, i)} :: t in s.parts && i < BAGS ==> BagOwns(s, t, i)
  }

  ghost predicate FreedOnce(s: State) { forall n :: s.freed[n] == One(IsFreed(s, n)) }

  ghost predicate PlaceOk(s: State, n: NodeId)
    requires n in s.fates
  {
    match s.fates[n].place
    case Pending(t) => t in s.ctl && s.ctl[t] == Pushing(n)
    case Bagged(t, i) => t in s.parts && i < BAGS
    case Freed => true
  }

  ghost predicate PlacesOk(s: State) {
    forall n :: n in s.fates ==> PlaceOk(s, n) && s.fates[n].holders <= Open(s)
  }

  ghost predicate CtlOk(s: State, t: Tid)
    requires t in s.ctl
  {
    && (s.ctl[t].Pushing? ==> IsPending(s, s.ctl[t].n, t))
    && (s.ctl[t].AdvScan? ==> 0 < s.ctl[t].left <= |s.joined|)
    && (Active(s, t) <==> InGuard(s.ctl[t]))
  }

  /**
    Every unlinked node is in exactly one place: with the one thread that is about to retire it, once
    in one bag of one participant, or deleted, once.
  */
  ghost predicate OwnInv(s: State) {
    && AllTyped(s) && (forall t :: t in s.joined ==> t in s.parts)
    && BagsOwn(s) && FreedOnce(s) && PlacesOk(s)
    && (forall t :: t in s.ctl ==> CtlOk(s, t))
  }

  lemma InitOwns(s: State)
    requires Init(s)
    ensures OwnInv(s)
  {
    forall t | t in s.ctl
      ensures Typed(s, t) && CtlOk(s, t)
    {
      assert s.parts[t] == NEW_PARTICIPANT;
    }
    forall t, i: nat | t in s.parts && i < BAGS
      ensures BagOwns(s, t, i)
    {
      assert s.parts[t] == NEW_PARTICIPANT;
    }
  }

  /** Only the control of `t` changes, and `t` neither opens, closes nor pushes. */
  ghost predicate OnlyCtl(s: State, s': State, t: Tid) {
    && t in s.ctl && t in s'.ctl && s'.ctl == s.ctl[t := s'.ctl[t]]
    && !s.ctl[t].Pushing? && !s'.ctl[t].Pushing?
    && InGuard(s.ctl[t]) == InGuard(s'.ctl[t])
    && s'.parts == s.parts && s'.freed == s.freed && s'.fates == s.fates
    && (s'.joined == s.joined || s'.joined == s.joined + [t])
    && (s'.ctl[t].AdvScan? ==> 0 < s'.ctl[t].left <= |s.joined|)
  }

  lemma OnlyCtlOwns(s: State, s': State, t: Tid)
    requires OwnInv(s) && OnlyCtl(s, s', t)
    ensures OwnInv(s')
  {
    assert Open(s') == Open(s);
    forall u, i: nat | u in s'.parts && i < BAGS
      ensures BagOwns(s', u, i)
    {
      assert BagOwns(s, u, i);
      assert forall n :: InBag(s', n, u, i) <==> InBag(s, n, u, i);
    }
    assert forall n :: IsFreed(s', n) <==> IsFreed(s, n);
    forall n | n in s'.fates
      ensures PlaceOk(s', n)
    {
      assert PlaceOk(s, n);
    }
    forall u | u in s'.ctl
      ensures CtlOk(s', u)
    {
      assert CtlOk(s, u) && CtlOk(s, t);
    }
  }

  lemma UnlinkOwns(s: State, t: Tid, n: NodeId)
    requires OwnInv(s) && Enabled(s, t, Unlinked(n))
    ensures OwnInv(UnlinkStep(s, t, n))
  {
    var s' := UnlinkStep(s, t, n);
    assert Open(s') == Open(s);
    forall u, i: nat | u in s'.parts && i < BAGS
      ensures BagOwns(s', u, i)
    {
      assert BagOwns(s, u, i);
      assert forall m :: InBag(s', m, u, i) <==> InBag(s, m, u, i);
    }
    assert forall m :: IsFreed(s', m) <==> IsFreed(s, m);
    forall m | m in s'.fates
      ensures PlaceOk(s', m)
    {
      if m != n {
        assert PlaceOk(s, m);
      }
    }
    forall u | u in s'.ctl
      ensures CtlOk(s', u)
    {
      assert CtlOk(s, u);
    }
  }

  lemma LeaveOwns(s: State, t: Tid)
    requires OwnInv(s) && Enabled(s, t, Leave)
    ensures OwnInv(LeaveStep(s, t))
  {
    var s' := LeaveStep(s, t);
    assert Open(s') == Open(s) - {t};
    forall u, i: nat | u in s'.parts && i < BAGS
      ensures BagOwns(s', u, i)
    {
      assert BagOwns(s, u, i);
      assert forall m :: InBag(s', m, u, i) <==> InBag(s, m, u, i);
    }
    assert forall m :: IsFreed(s', m) <==> IsFreed(s, m);
    forall m | m in s'.fates
      ensures PlaceOk(s', m)
    {
      assert PlaceOk(s, m);
    }
    forall u | u in s'.ctl
      ensures CtlOk(s', u)
    {
      assert CtlOk(s, u);
    }
  }

  /** Emptying some bags of `t` turns exactly the places in them into `Freed`. */
  lemma EmptiedPlaces(s: State, t: Tid, gone: set<nat>, fates: map<NodeId, Fate>)
    requires fates == Emptied(s.fates, t, gone)
    ensures fates.Keys == s.fates.Keys
    ensures forall n :: n in fates ==> fates[n].at == s.fates[n].at && fates[n].holders == s.fates[n].holders
    ensures forall n, u, i :: InBag(s.(fates := fates), n, u, i) <==> InBag(s, n, u, i) && !(u == t && i in gone)
    ensures forall n :: IsFreed(s.(fates := fates), n) <==>
                        IsFreed(s, n) || exists i :: i in gone && InBag(s, n, t, i)
    ensures forall n :: n in fates && fates[n].place.Pending? ==> s.fates[n].place == fates[n].place
    ensures forall n, u :: IsPending(s, n, u) ==> IsPending(s.(fates := fates), n, u)
  {
    forall n
      ensures IsFreed(s.(fates := fates), n) <==> IsFreed(s, n) || exists i :: i in gone && InBag(s, n, t, i)
    {
      if n in s.fates && s.fates[n].place.Bagged? {
        assert InBag(s, n, s.fates[n].place.of, s.fates[n].place.index);
      }
    }
  }

  lemma PushOwns(s: State, t: Tid, n: NodeId)
    requires OwnInv(s) && t in s.ctl && s.ctl[t] == Pushing(n)
    ensures n in s.fates && OwnInv(PushStep(s, t, n))
  {
    assert CtlOk(s, t);
    PushBags(s, t, n) by { hide BagsOwn, FreedOnce, PlacesOk; }
    PushFreed(s, t, n) by { hide BagsOwn, FreedOnce, PlacesOk; }
    PushPlaces(s, t, n) by { hide BagsOwn, FreedOnce; }
  }

  lemma PushPlaces(s: State, t: Tid, n: NodeId)
    requires AllTyped(s) && PlacesOk(s) && IsPending(s, n, t)
    requires forall u :: u in s.ctl ==> CtlOk(s, u)
    requires t in s.ctl && s.ctl[t] == Pushing(n)
    ensures var s' := PushStep(s, t, n); PlacesOk(s') && forall u :: u in s'.ctl ==> CtlOk(s', u)
  {
    var s' := PushStep(s, t, n);
    var p, c := s.parts[t], CurrentBag(s.parts[t]);
    var gone: set<nat> := if Reuses(p) then {c} else {};
    EmptiedPlaces(s, t, gone, Emptied(s.fates, t, gone));
    assert s'.fates == Emptied(s.fates, t, gone)[n := s.fates[n].(place := Bagged(t, c))];
    assert Open(s') == Open(s);
    forall m | m in s'.fates
      ensures PlaceOk(s', m)
    {
      assert PlaceOk(s, m);
    }
    forall u | u in s'.ctl
      ensures CtlOk(s', u)
    {
      assert CtlOk(s, u);
    }
  }

  lemma PushFreed(s: State, t: Tid, n: NodeId)
    requires AllTyped(s) && BagsOwn(s) && FreedOnce(s) && t in s.ctl && IsPending(s, n, t)
    ensures FreedOnce(PushStep(s, t, n))
  {
    var s' := PushStep(s, t, n);
    var p, c := s.parts[t], CurrentBag(s.parts[t]);
    var gone: set<nat> := if Reuses(p) then {c} else {};
    EmptiedPlaces(s, t, gone, Emptied(s.fates, t, gone));
    assert s'.fates == Emptied(s.fates, t, gone)[n := s.fates[n].(place := Bagged(t, c))];
    forall m
      ensures s'.freed[m] == One(IsFreed(s', m))
    {
      assert BagOwns(s, t, c);
      assert IsFreed(s', m) <==> m != n && (IsFreed(s, m) || exists i :: i in gone && InBag(s, m, t, i));
      assert !IsFreed(s, n) && !InBag(s, n, t, c);
    }
  }

  lemma PushBags(s: State, t: Tid, n: NodeId)
    requires AllTyped(s) && BagsOwn(s) && t in s.ctl && IsPending(s, n, t)
    ensures var s' := PushStep(s, t, n); AllTyped(s') && BagsOwn(s')
  {
    var s' := PushStep(s, t, n);
    var p, c := s.parts[t], CurrentBag(s.parts[t]);
    var gone: set<nat> := if Reuses(p) then {c} else {};
    EmptiedPlaces(s, t, gone, Emptied(s.fates, t, gone));
    assert s'.fates == Emptied(s.fates, t, gone)[n := s.fates[n].(place := Bagged(t, c))];
    forall u, i: nat | u in s'.parts && i < BAGS
      ensures BagOwns(s', u, i)
    {
      assert BagOwns(s, u, i);
      forall m
        ensures s'.parts[u].bags[i][m] == One(InBag(s', m, u, i))
      {
        assert !InBag(s, n, u, i);
        assert m != n ==> (InBag(s', m, u, i) <==> InBag(s, m, u, i) && !(u == t && i in gone));
      }
    }
  }

  lemma LoadOwns(s: State, t: Tid)
    requires OwnInv(s) && t in s.ctl && s.ctl[t] == Reading
    ensures OwnInv(LoadStep(s, t))
  {
    LoadBags(s, t) by { hide BagsOwn, FreedOnce, PlacesOk; }
    LoadFreed(s, t) by { hide BagsOwn, FreedOnce, PlacesOk; }
    LoadPlaces(s, t) by { hide BagsOwn, FreedOnce; }
  }

  lemma LoadFreed(s: State, t: Tid)
    requires AllTyped(s) && BagsOwn(s) && FreedOnce(s) && t in s.ctl
    ensures FreedOnce(LoadStep(s, t))
  {
    var s' := LoadStep(s, t);
    EmptiedPlaces(s, t, ExpiredBags(s.parts[t], s.epoch), s'.fates);
    forall m
      ensures s'.freed[m] == One(IsFreed(s', m))
    {
      FreedByEnter(s, t, s.epoch, m);
    }
  }

  lemma LoadPlaces(s: State, t: Tid)
    requires AllTyped(s) && PlacesOk(s) && t in s.ctl && s.ctl[t] == Reading
    requires forall u :: u in s.ctl ==> CtlOk(s, u)
    ensures var s' := LoadStep(s, t); PlacesOk(s') && forall u :: u in s'.ctl ==> CtlOk(s', u)
  {
    var s' := LoadStep(s, t);
    EmptiedPlaces(s, t, ExpiredBags(s.parts[t], s.epoch), s'.fates);
    assert Open(s') == Open(s);
    forall m | m in s'.fates
      ensures PlaceOk(s', m)
    {
      assert PlaceOk(s, m);
    }
    forall u | u in s'.ctl
      ensures CtlOk(s', u)
    {
      assert CtlOk(s, u);
    }
  }

  lemma LoadBags(s: State, t: Tid)
    requires AllTyped(s) && BagsOwn(s) && t in s.ctl
    ensures var s' := LoadStep(s, t); AllTyped(s') && BagsOwn(s')
  {
    var s' := LoadStep(s, t);
    var p, gone := s.parts[t], ExpiredBags(s.parts[t], s.epoch);
    EmptiedPlaces(s, t, gone, s'.fates);
    forall u, i: nat | u in s'.parts && i < BAGS
      ensures BagOwns(s', u, i)
    {
      assert BagOwns(s, u, i);
      assert u == t ==> s'.parts[u].bags[i] == if i in gone then multiset{} else p.bags[i];
      assert forall m :: InBag(s', m, u, i) <==> InBag(s, m, u, i) && !(u == t && i in gone);
    }
  }

  lemma AnnounceOwns(s: State, t: Tid, e: nat)
    requires OwnInv(s) && t in s.ctl && s.ctl[t] == Announcing(e)
    ensures OwnInv(AnnounceStep(s, t, e))
  {
    var s' := AnnounceStep(s, t, e);
    assert Open(s') == Open(s) + {t};
    forall u, i: nat | u in s'.parts && i < BAGS
      ensures BagOwns(s', u, i)
    {
      assert BagOwns(s, u, i);
      assert forall m :: InBag(s', m, u, i) <==> InBag(s, m, u, i);
    }
    assert forall m :: IsFreed(s', m) <==> IsFreed(s, m);
    forall m | m in s'.fates
      ensures PlaceOk(s', m)
    {
      assert PlaceOk(s, m);
    }
    forall u | u in s'.ctl
      ensures CtlOk(s', u)
    {
      assert CtlOk(s, u);
    }
  }

  /** What entering deletes is what its expired bags held. */
  lemma FreedByEnter(s: State, t: Tid, e: nat, n: NodeId)
    requires AllTyped(s) && BagsOwn(s) && t in s.parts
    ensures EnterFrees(s.parts[t], e)[n] == One(exists i :: i in ExpiredBags(s.parts[t], e) && InBag(s, n, t, i))
  {
    var p := s.parts[t];
    assert BagOwns(s, t, 0) && BagOwns(s, t, 1) && BagOwns(s, t, 2);
    var gone := ExpiredBags(p, e);
    if i: nat :| i in gone && InBag(s, n, t, i) {
      assert i == 0 || i == 1 || i == 2;
    }
  }

  lemma ScanMovesControl(s: State, t: Tid, at: nat, left: nat, locked: bool)
    requires t in s.ctl && s.ctl[t] == AdvScan(at, left, locked) && 0 < left <= |s.joined|
    requires s.joined[left - 1] in s.parts
    ensures OnlyCtl(s, ScanStep(s, t, at, left, locked), t)
    ensures ScanStep(s, t, at, left, locked).stamps == s.stamps && ScanStep(s, t, at, left, locked).epoch == s.epoch
  {
  }

  lemma CasMovesControl(s: State, t: Tid)
    requires InternalEnabled(s, t) && (s.ctl[t].AdvLock? || s.ctl[t].AdvCas? || s.ctl[t].AdvUnlock?)
    ensures OnlyCtl(s, InternalStep(s, t), t) && InternalStep(s, t).stamps == s.stamps
  {
  }

  lemma InternalMovesControl(s: State, t: Tid)
    requires InternalEnabled(s, t) && !s.ctl[t].Pushing? && !s.ctl[t].Reading? && !s.ctl[t].Announcing?
    ensures OnlyCtl(s, InternalStep(s, t), t) && InternalStep(s, t).stamps == s.stamps
  {
    if s.ctl[t].AdvScan? {
      hide OnlyCtl;
      ScanMovesControl(s, t, s.ctl[t].at, s.ctl[t].left, s.ctl[t].locked);
    } else if s.ctl[t].AdvLock? || s.ctl[t].AdvCas? || s.ctl[t].AdvUnlock? {
      hide OnlyCtl, InternalStep;
      CasMovesControl(s, t);
    }
  }

  lemma BeginMovesControl(s: State, t: Tid)
    requires Enabled(s, t, Begin)
    ensures OnlyCtl(s, BeginStep(s, t), t)
  {
  }

  /** With the epoch where it was there is nothing to collect. */
  lemma LoadsNothing(s: State, t: Tid)
    requires Typed(s, t) && s.parts[t].announced == s.epoch
    ensures LoadStep(s, t) == SetCtl(s, t, Announcing(s.epoch))
  {
    var s' := LoadStep(s, t);
    assert ExpiredBags(s.parts[t], s.epoch) == {};
    assert s'.fates == s.fates && s'.parts == s.parts && s'.freed == s.freed;
  }

  /** Every step keeps every node in exactly one place, in every run, whatever is announced. */
  lemma StepOwns(s: State, t: Tid, a: Action)
    requires OwnInv(s) && Enabled(s, t, a)
    ensures OwnInv(Apply(s, t, a))
  {
    hide OwnInv, OnlyCtl;
    match a
    case Begin =>
      BeginMovesControl(s, t);
      OnlyCtlOwns(s, BeginStep(s, t), t);
    case Unlinked(n) => UnlinkOwns(s, t, n);
    case Leave => LeaveOwns(s, t);
    case Internal =>
      if s.ctl[t].Pushing? {
        PushOwns(s, t, s.ctl[t].n);
      } else if s.ctl[t].Reading? {
        LoadOwns(s, t);
      } else if s.ctl[t].Announcing? {
        AnnounceOwns(s, t, s.ctl[t].e);
      } else {
        InternalMovesControl(s, t);
        OnlyCtlOwns(s, InternalStep(s, t), t);
      }
  }

  // ----- the epoch lag, in every run -----

  /** Among the participants from index `left` on, those with an open Guard announced while the epoch was `at`. */
  ghost predicate ScannedFrom(s: State, at: nat, left: nat) {
    forall j {:trigger s.joined[j]} :: left <= j < |s.joined| && Active(s, s.joined[j]) ==> Stamp(s, s.joined[j]) == at
  }

  /** What is known of thread `t`: what it has announced, and what a scan in progress has learnt. */
  ghost predicate EpochOk(s: State, t: Tid)
    requires Typed(s, t)
  {
    var p, c := s.parts[t], s.ctl[t];
    && p.announced <= s.epoch
    && (Active(s, t) ==> p.epoch == Some(p.announced) && p.announced <= Stamp(s, t) <= s.epoch <= Stamp(s, t) + 1)
    && (c.Reading? || c.Announcing? || Active(s, t) ==> t in s.joined)
    && (c.Announcing? ==> c.e == p.announced)
    && (c.AdvHead? || c.AdvLock? ==> c.at <= s.epoch)
    && (c.AdvScan? ==> c.at <= s.epoch && (c.at == s.epoch ==> ScannedFrom(s, c.at, c.left)))
    && (c.AdvCas? ==> c.at <= s.epoch && (c.at == s.epoch ==> ScannedFrom(s, c.at, 0)))
  }

  /** A bag's tag fits its index and is at most one past the announcement. */
  ghost predicate TagsOk(s: State, t: Tid)
    requires Typed(s, t)
  {
    forall i: nat {:trigger s.parts[t].tags[i]} :: i < BAGS && s.parts[t].tags[i].Some? ==>
      s.parts[t].tags[i].value % BAGS == i && s.parts[t].tags[i].value <= s.parts[t].announced + 1
  }

  ghost predicate LagInv(s: State) { OwnInv(s) && forall t :: t in s.parts ==> EpochOk(s, t) && TagsOk(s, t) }

  lemma InitLag(s: State)
    requires Init(s)
    ensures LagInv(s)
  {
    InitOwns(s);
    forall t | t in s.parts
      ensures EpochOk(s, t) && TagsOk(s, t)
    {
      assert s.parts[t] == NEW_PARTICIPANT && CtlOk(s, t);
    }
  }

  /** A step that only moves control keeps everything, if it keeps what is known of `t`. */
  lemma CtlLag(s: State, s': State, t: Tid)
    requires LagInv(s) && OnlyCtl(s, s', t) && OwnInv(s') && s'.epoch == s.epoch && s'.stamps == s.stamps
    requires s.joined <= s'.joined && (s'.joined != s.joined ==> !Active(s, t) && s'.joined == s.joined + [t])
    requires EpochOk(s', t)
    ensures LagInv(s')
  {
    hide BagsOwn, FreedOnce, PlacesOk, CtlOk;
    forall u | u in s'.parts
      ensures EpochOk(s', u) && TagsOk(s', u)
    {
      assert EpochOk(s, u) && TagsOk(s, u);
      if s.ctl[u].AdvScan? && s.ctl[u].at == s.epoch {
        assert ScannedFrom(s', s.ctl[u].at, s.ctl[u].left);
      }
      if s.ctl[u].AdvCas? && s.ctl[u].at == s.epoch {
        assert ScannedFrom(s', s.ctl[u].at, 0);
      }
    }
  }

  /** Loading closes nothing and opens nothing. */
  lemma LoadLag(s: State, t: Tid)
    requires LagInv(s) && t in s.ctl && s.ctl[t] == Reading
    ensures LagInv(LoadStep(s, t))
  {
    LoadOwns(s, t);
    LagHas(s, t);
    forall u | u in s.parts
      ensures EpochOk(LoadStep(s, t), u) && TagsOk(LoadStep(s, t), u)
    {
      LoadKnows(s, t, u) by { LagHas(s, u); }
    }
  }

  lemma LoadKnows(s: State, t: Tid, u: Tid)
    requires Typed(s, t) && Typed(s, u) && s.ctl[t] == Reading && !Active(s, t) && EpochOk(s, t) && EpochOk(s, u)
    requires TagsOk(s, t) && TagsOk(s, u)
    ensures var s' := LoadStep(s, t); Typed(s', u) && EpochOk(s', u) && TagsOk(s', u)
  {
    hide Emptied, ExpiredBags, EnterFrees;
    assert forall v :: Active(LoadStep(s, t), v) <==> Active(s, v);
  }

  /** Whoever announces is stamped with the current epoch, however old what it announces is. */
  lemma AnnounceLag(s: State, t: Tid, e: nat)
    requires LagInv(s) && t in s.ctl && s.ctl[t] == Announcing(e)
    ensures LagInv(AnnounceStep(s, t, e))
  {
    var s' := AnnounceStep(s, t, e);
    AnnounceOwns(s, t, e);
    assert EpochOk(s, t);
    forall u | u in s'.parts
      ensures EpochOk(s', u) && TagsOk(s', u)
    {
      assert EpochOk(s, u) && TagsOk(s, u);
    }
  }

  lemma PushLag(s: State, t: Tid, n: NodeId)
    requires LagInv(s) && t in s.ctl && s.ctl[t] == Pushing(n)
    ensures n in s.fates && LagInv(PushStep(s, t, n))
  {
    PushOwns(s, t, n);
    var s' := PushStep(s, t, n);
    forall u | u in s.parts
      ensures EpochOk(s', u) && TagsOk(s', u)
    {
      assert EpochOk(s, u) && TagsOk(s, u);
    }
  }

  lemma UnlinkLag(s: State, t: Tid, n: NodeId)
    requires LagInv(s) && Enabled(s, t, Unlinked(n))
    ensures LagInv(UnlinkStep(s, t, n))
  {
    var s' := UnlinkStep(s, t, n);
    UnlinkOwns(s, t, n);
    forall u | u in s'.parts
      ensures EpochOk(s', u) && TagsOk(s', u)
    {
      assert EpochOk(s, u) && TagsOk(s, u);
    }
  }

  lemma LeaveLag(s: State, t: Tid)
    requires LagInv(s) && Enabled(s, t, Leave)
    ensures LagInv(LeaveStep(s, t))
  {
    var s' := LeaveStep(s, t);
    LeaveOwns(s, t);
    forall u | u in s'.parts
      ensures EpochOk(s', u) && TagsOk(s', u)
    {
      assert EpochOk(s, u) && TagsOk(s, u);
    }
  }

  /** The epoch advances only past announcements that were all made while it was current. */
  lemma AdvanceLag(s: State, t: Tid, at: nat)
    requires LagInv(s) && t in s.ctl && s.ctl[t] == AdvCas(at)
    ensures LagInv(InternalStep(s, t))
  {
    var s' := InternalStep(s, t);
    StepOwns(s, t, Internal);
    assert EpochOk(s, t);
    forall u | u in s'.parts
      ensures EpochOk(s', u) && TagsOk(s', u)
    {
      assert EpochOk(s, u) && TagsOk(s, u);
      if Active(s, u) && at == s.epoch {
        var j :| 0 <= j < |s.joined| && s.joined[j] == u;
      }
    }
  }

  lemma JoinLag(s: State, t: Tid)
    requires LagInv(s) && Enabled(s, t, Begin)
    ensures LagInv(BeginStep(s, t))
  {
    var s' := BeginStep(s, t);
    assert CtlOk(s, t) && EpochOk(s, t);
    BeginMovesControl(s, t);
    assert EpochOk(s', t);
    OnlyCtlOwns(s, s', t) by { hide *; }
    CtlLag(s, s', t);
  }

  /** What a scan has learnt so far survives its next step. */
  lemma ScanLearns(s: State, t: Tid)
    requires Enabled(s, t, Internal) && !s.ctl[t].Pushing? && !s.ctl[t].AdvCas?
    requires !s.ctl[t].Reading? && !s.ctl[t].Announcing?
    requires AllTyped(s) && CtlOk(s, t) && EpochOk(s, t)
    requires s.ctl[t].AdvScan? ==> EpochOk(s, s.joined[s.ctl[t].left - 1])
    ensures Typed(InternalStep(s, t), t) && EpochOk(InternalStep(s, t), t)
  {
    hide LoadStep, AnnounceStep, PushStep, ScanStep, TagsOk;
    var c := s.ctl[t];
    if c.AdvScan? {
      ScanStepLearns(s, t, c.at, c.left, c.locked);
    }
  }

  lemma ScanStepLearns(s: State, t: Tid, at: nat, left: nat, locked: bool)
    requires AllTyped(s) && t in s.ctl && s.ctl[t] == AdvScan(at, left, locked) && CtlOk(s, t) && EpochOk(s, t)
    requires s.joined[left - 1] in s.parts && EpochOk(s, s.joined[left - 1])
    ensures var s' := ScanStep(s, t, at, left, locked); Typed(s', t) && EpochOk(s', t)
  {
    var s' := ScanStep(s, t, at, left, locked);
    var seen := s.parts[s.joined[left - 1]].epoch;
    if at == s.epoch && (seen == None || seen == Some(at)) {
      ScanLearnsOne(s, t, at, left);
      assert ScannedFrom(s', at, left - 1);
    }
  }

  /** An announcement of the current epoch was made while it was current. */
  lemma ScanLearnsOne(s: State, t: Tid, at: nat, left: nat)
    requires 0 < left <= |s.joined| && s.joined[left - 1] in s.parts && Typed(s, s.joined[left - 1])
    requires EpochOk(s, s.joined[left - 1]) && ScannedFrom(s, at, left) && at == s.epoch
    requires var seen := s.parts[s.joined[left - 1]].epoch; seen == None || seen == Some(at)
    ensures ScannedFrom(s, at, left - 1)
  {
  }

  lemma LagHas(s: State, t: Tid)
    requires LagInv(s) && t in s.ctl
    ensures OwnInv(s) && AllTyped(s) && CtlOk(s, t) && EpochOk(s, t) && TagsOk(s, t)
    ensures InternalEnabled(s, t) && s.ctl[t].AdvScan? ==>
              s.joined[s.ctl[t].left - 1] in s.parts && EpochOk(s, s.joined[s.ctl[t].left - 1])
  {
    hide BagsOwn, FreedOnce, PlacesOk, CtlOk, EpochOk, TagsOk;
  }

  /** Short of the CAS the epoch stays, and a thread joins only before its first Guard. */
  lemma ControlJoins(s: State, t: Tid)
    requires InternalEnabled(s, t) && CtlOk(s, t)
    requires !s.ctl[t].Pushing? && !s.ctl[t].AdvCas? && !s.ctl[t].Reading? && !s.ctl[t].Announcing?
    ensures var s' := InternalStep(s, t);
            && s'.epoch == s.epoch && s.joined <= s'.joined
            && (s'.joined != s.joined ==> !Active(s, t) && s'.joined == s.joined + [t])
  {
    hide LoadStep, AnnounceStep, PushStep;
  }

  lemma ScanLag(s: State, t: Tid)
    requires LagInv(s) && Enabled(s, t, Internal)
    requires !s.ctl[t].Pushing? && !s.ctl[t].AdvCas? && !s.ctl[t].Reading? && !s.ctl[t].Announcing?
    ensures LagInv(InternalStep(s, t))
  {
    hide LagInv, OwnInv, OnlyCtl, EpochOk, CtlOk, ScanStep, LoadStep, AnnounceStep, PushStep;
    LagHas(s, t);
    ScanLearns(s, t);
    InternalMovesControl(s, t);
    ControlJoins(s, t);
    StepOwns(s, t, Internal);
    CtlLag(s, InternalStep(s, t), t);
  }

  /** Every step, in every run, keeps every open Guard within one epoch of its own announcing. */
  lemma StepLag(s: State, t: Tid, a: Action)
    requires LagInv(s) && Enabled(s, t, a)
    ensures LagInv(Apply(s, t, a))
  {
    hide LagInv, OwnInv, AllTyped;
    match a
    case Begin => JoinLag(s, t);
    case Unlinked(n) => UnlinkLag(s, t, n);
    case Leave => LeaveLag(s, t);
    case Internal =>
      if s.ctl[t].Pushing? {
        PushLag(s, t, s.ctl[t].n);
      } else if s.ctl[t].Reading? {
        LoadLag(s, t);
      } else if s.ctl[t].Announcing? {
        AnnounceLag(s, t, s.ctl[t].e);
      } else if s.ctl[t].AdvCas? {
        AdvanceLag(s, t, s.ctl[t].at);
      } else {
        ScanLag(s, t);
      }
  }

  // ----- the grace period, in runs whose tags are in time -----

  /**
    What is known of an unlinked node: the Guards that were open when it was unlinked had announced no
    later than that, a bag's tag is no earlier than the epoch of that moment, and a deleted node has no
    such Guard left.
  */
  ghost predicate FateOk(s: State, n: NodeId)
    requires AllTyped(s) && n in s.fates
  {
    var f := s.fates[n];
    && (forall u :: u in f.holders ==> u in s.parts && Stamp(s, u) <= f.at)
    && match f.place
       case Pending(t) => t in s.parts && f.at <= s.parts[t].announced + 1
       case Bagged(t, i) => t in s.parts && i < BAGS && s.parts[t].tags[i].Some? && f.at <= s.parts[t].tags[i].value
       case Freed => f.holders == {}
  }

  ghost predicate GraceInv(s: State) { LagInv(s) && forall n :: n in s.fates ==> FateOk(s, n) }

  lemma InitGrace(s: State)
    requires Init(s)
    ensures GraceInv(s)
  {
    InitLag(s);
  }

  lemma GraceHas(s: State, t: Tid, n: NodeId)
    requires GraceInv(s) && t in s.ctl && n in s.fates
    ensures AllTyped(s) && CtlOk(s, t) && EpochOk(s, t) && TagsOk(s, t) && FateOk(s, n) && PlaceOk(s, n)
    ensures s.fates[n].holders <= Open(s)
  {
    hide BagsOwn, FreedOnce, CtlOk, EpochOk, TagsOk, FateOk, PlaceOk, Open;
  }

  /** A Guard that was open when `n` was unlinked cannot be open two epochs later. */
  lemma TwoEpochsLater(s: State, n: NodeId, tag: nat)
    requires GraceInv(s) && n in s.fates && s.fates[n].at <= tag && tag + 2 <= s.epoch
    ensures s.fates[n].holders == {}
  {
    if s.fates[n].holders != {} {
      var u :| u in s.fates[n].holders;
      HolderIsRecent(s, n, u);
    }
  }

  lemma HolderIsRecent(s: State, n: NodeId, u: Tid)
    requires GraceInv(s) && n in s.fates && u in s.fates[n].holders
    ensures s.epoch <= s.fates[n].at + 1
  {
    assert FateOk(s, n);
    assert u in Open(s) && Active(s, u) && EpochOk(s, u);
  }

  /** What the load deletes was unlinked two epochs ago, so that nobody is left to hold it. */
  lemma LoadFate(s: State, t: Tid, n: NodeId)
    requires GraceInv(s) && t in s.ctl && s.ctl[t] == Reading && n in s.fates
    requires AllTyped(LoadStep(s, t))
    ensures FateOk(LoadStep(s, t), n)
  {
    hide GraceInv;
    GraceHas(s, t, n);
    var s' := LoadStep(s, t);
    if s'.fates[n].place.Freed? && !s.fates[n].place.Freed? {
      TwoEpochsLater(s, n, s.parts[t].tags[s.fates[n].place.index].value);
    }
  }

  lemma AnnounceFate(s: State, t: Tid, e: nat, n: NodeId)
    requires GraceInv(s) && t in s.ctl && s.ctl[t] == Announcing(e) && n in s.fates
    requires AllTyped(AnnounceStep(s, t, e))
    ensures FateOk(AnnounceStep(s, t, e), n)
  {
    hide GraceInv;
    GraceHas(s, t, n);
    assert t !in s.fates[n].holders by { assert t !in Open(s); }
  }

  lemma PushFate(s: State, t: Tid, n: NodeId, m: NodeId)
    requires GraceInv(s) && t in s.ctl && s.ctl[t] == Pushing(n) && n in s.fates && m in s.fates
    requires AllTyped(PushStep(s, t, n))
    ensures FateOk(PushStep(s, t, n), m)
  {
    hide GraceInv;
    GraceHas(s, t, n);
    GraceHas(s, t, m);
    var s' := PushStep(s, t, n);
    if s'.fates[m].place.Freed? && !s.fates[m].place.Freed? {
      ReusedTag(s.parts[t]);
      TwoEpochsLater(s, m, s.parts[t].tags[CurrentBag(s.parts[t])].value);
    }
  }

  /** With three bags, a bag that comes round again carries a tag at least three older. */
  lemma ReusedTag(p: Participant)
    requires |p.tags| == BAGS && Reuses(p) && p.tags[CurrentBag(p)].Some?
    requires p.tags[CurrentBag(p)].value % BAGS == CurrentBag(p)
    requires p.tags[CurrentBag(p)].value <= p.announced + 1
    ensures p.tags[CurrentBag(p)].value + 2 <= p.announced
  {
  }

  /** A node unlinked while its tag is in time starts out well. */
  lemma UnlinkFate(s: State, t: Tid, n: NodeId, m: NodeId)
    requires GraceInv(s) && Enabled(s, t, Unlinked(n)) && TagLag(s, t, Unlinked(n)) <= 0 && (m in s.fates || m == n)
    requires AllTyped(UnlinkStep(s, t, n))
    ensures FateOk(UnlinkStep(s, t, n), m)
  {
    if m != n {
      assert FateOk(s, m);
    } else {
      forall u | u in Open(s)
        ensures u in s.parts && Stamp(s, u) <= s.epoch
      {
        assert EpochOk(s, u);
      }
    }
  }

  lemma LeaveFate(s: State, t: Tid, n: NodeId)
    requires GraceInv(s) && Enabled(s, t, Leave) && n in s.fates && AllTyped(LeaveStep(s, t))
    ensures FateOk(LeaveStep(s, t), n)
  {
    assert FateOk(s, n);
  }

  /** A step that only moves control, or the epoch, decides no fate. */
  lemma ControlFate(s: State, s': State, n: NodeId)
    requires AllTyped(s) && AllTyped(s') && n in s.fates && FateOk(s, n)
    requires s'.parts == s.parts && s'.fates == s.fates && s'.stamps == s.stamps
    ensures FateOk(s', n)
  {
  }

  lemma InternalFate(s: State, t: Tid, n: NodeId)
    requires GraceInv(s) && Enabled(s, t, Internal) && n in s.fates && AllTyped(InternalStep(s, t))
    ensures n in InternalStep(s, t).fates && FateOk(InternalStep(s, t), n)
  {
    hide GraceInv, FateOk, AllTyped;
    if s.ctl[t].Pushing? {
      PushFate(s, t, s.ctl[t].n, n);
    } else if s.ctl[t].Reading? {
      LoadFate(s, t, n);
    } else if s.ctl[t].Announcing? {
      AnnounceFate(s, t, s.ctl[t].e, n);
    } else {
      GraceHas(s, t, n);
      InternalMovesControl(s, t);
      ControlFate(s, InternalStep(s, t), n);
    }
  }

  /** Every step that unlinks nothing, or unlinks in time, keeps the grace period, however late announcements are. */
  lemma StepGrace(s: State, t: Tid, a: Action)
    requires GraceInv(s) && Enabled(s, t, a) && TagLag(s, t, a) <= 0
    ensures GraceInv(Apply(s, t, a))
  {
    hide LagInv, FateOk, InternalStep, TagLag, Enabled;
    StepLag(s, t, a);
    var s' := Apply(s, t, a);
    LagTyped(s);
    LagTyped(s');
    SameFates(s, t, a);
    forall n | n in s'.fates
      ensures FateOk(s', n)
    {
      match a
      case Begin => BeginKeeps(s, t); ControlFate(s, s', n);
      case Unlinked(m) => UnlinkFate(s, t, m, n);
      case Leave => LeaveFate(s, t, n);
      case Internal => InternalFate(s, t, n);
    }
  }

  lemma LagTyped(s: State)
    requires LagInv(s)
    ensures AllTyped(s)
  {
    hide BagsOwn, FreedOnce, PlacesOk, CtlOk, EpochOk, TagsOk;
  }

  lemma BeginKeeps(s: State, t: Tid)
    requires Enabled(s, t, Begin)
    ensures var s' := BeginStep(s, t); s'.parts == s.parts && s'.fates == s.fates && s'.stamps == s.stamps
  {
  }

  /** The nodes with a fate are those that had one, and the one being unlinked. */
  lemma SameFates(s: State, t: Tid, a: Action)
    requires Enabled(s, t, a)
    ensures Apply(s, t, a).fates.Keys == s.fates.Keys + (if a.Unlinked? then {a.n} else {})
  {
  }

  // ----- an announcement that is fresh -----

  /** Every open Guard announced the epoch of the moment. */
  ghost predicate Prompt(s: State) { forall t :: Active(s, t) ==> s.parts[t].epoch == Some(Stamp(s, t)) }

  lemma OthersPrompt(s: State, s': State, t: Tid)
    requires Prompt(s) && (Active(s', t) ==> s'.parts[t].epoch == Some(Stamp(s', t)))
    requires t in s.parts && t in s'.parts && s'.parts == s.parts[t := s'.parts[t]]
    requires forall u :: u != t ==> Stamp(s', u) == Stamp(s, u)
    ensures Prompt(s')
  {
    forall u | Active(s', u)
      ensures s'.parts[u].epoch == Some(Stamp(s', u))
    {
      assert u != t ==> Active(s, u);
    }
  }

  lemma PushPrompt(s: State, t: Tid, n: NodeId)
    requires Prompt(s) && InternalEnabled(s, t) && s.ctl[t] == Pushing(n)
    ensures Prompt(InternalStep(s, t))
  {
    hide Emptied, ExpiredBags, RetireFrees, Reuses, CurrentBag;
    assert Active(s, t) <==> Active(InternalStep(s, t), t);
    OthersPrompt(s, InternalStep(s, t), t);
  }

  lemma AnnouncePrompt(s: State, t: Tid)
    requires Prompt(s) && InternalEnabled(s, t) && (s.ctl[t].Reading? || s.ctl[t].Announcing?)
    requires Lag(s, t, Internal) == 0
    ensures Prompt(InternalStep(s, t))
  {
    hide Emptied, ExpiredBags, EnterFrees;
    assert s.ctl[t].Reading? && Active(InternalStep(s, t), t) ==> Active(s, t);
    OthersPrompt(s, InternalStep(s, t), t);
  }

  lemma ControlPrompt(s: State, s': State, t: Tid)
    requires Prompt(s) && s'.parts == s.parts && s'.stamps == s.stamps
    ensures Prompt(s')
  {
    assert forall u :: Active(s', u) ==> Active(s, u);
  }

  lemma StepPrompt(s: State, t: Tid, a: Action)
    requires Prompt(s) && Enabled(s, t, a) && Lag(s, t, a) == 0
    ensures Prompt(Apply(s, t, a))
  {
    if a.Internal? {
      hide InternalStep, Prompt;
      if s.ctl[t].Pushing? {
        PushPrompt(s, t, s.ctl[t].n);
      } else if s.ctl[t].Reading? || s.ctl[t].Announcing? {
        AnnouncePrompt(s, t);
      } else {
        InternalMovesControl(s, t);
        ControlPrompt(s, InternalStep(s, t), t);
      }
    } else {
      assert forall u :: u != t && Active(Apply(s, t, a), u) ==> Active(s, u);
    }
  }

  /** A Guard that announced the epoch of the moment tags what it unlinks in time. */
  lemma PromptTags(s: State, t: Tid, a: Action)
    requires LagInv(s) && Prompt(s) && Enabled(s, t, a)
    ensures TagLag(s, t, a) <= 0
  {
    if a.Unlinked? {
      assert CtlOk(s, t) && Active(s, t) && EpochOk(s, t);
    }
  }
}
