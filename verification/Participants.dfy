/**
  The owner's side of a reclaimer participant, as the source updates it in place
  (src/EpochReclaimer.h, `Participant` and `Retire`). Each method is proved equal to the step of the
  reclaimer's state machine that stands for it.
*/
module Participants {
  import opened Common
  import E = Epochs

  /** How a bag's `vector` looks to the state machine. */
  function Contents(bags: seq<seq<NodeId>>): (c: seq<multiset<NodeId>>)
    ensures |c| == |bags| && forall i :: 0 <= i < |bags| ==> c[i] == multiset(bags[i])
  {
    seq(|bags|, i requires 0 <= i < |bags| => multiset(bags[i]))
  }

  /** What the first `n` bags give up when the epoch is `now`. */
  function OutdatedBelow(p: E.Participant, n: nat, now: nat): multiset<NodeId>
    requires n <= |p.tags| == |p.bags|
  {
    if n == 0 then multiset{} else OutdatedBelow(p, n - 1, now) + E.Outdated(p, n - 1, now)
  }

  lemma OutdatedIsCollected(p: E.Participant, now: nat)
    requires |p.tags| == |p.bags| == E.BAGS
    ensures OutdatedBelow(p, E.BAGS, now) == E.Collected(p, now)
  {
    assert OutdatedBelow(p, 1, now) == E.Outdated(p, 0, now);
    assert OutdatedBelow(p, 2, now) == E.Outdated(p, 0, now) + E.Outdated(p, 1, now);
  }

  /** The first `n` bags have been gone through, the others have not been touched. */
  predicate CollectedBelow(p: E.Participant, n: nat, now: nat, tags: seq<Option<nat>>, bags: seq<seq<NodeId>>)
    requires n <= |p.tags| == |p.bags| == |tags| == |bags|
  {
    forall i :: 0 <= i < |p.tags| ==>
      && tags[i] == (if i < n && E.Expired(p.tags[i], now) then None else p.tags[i])
      && multiset(bags[i]) == (if i < n && E.Expired(p.tags[i], now) then multiset{} else p.bags[i])
  }

  lemma CollectedAll(p: E.Participant, now: nat, tags: seq<Option<nat>>, bags: seq<seq<NodeId>>)
    requires |p.tags| == |p.bags| == |tags| == |bags| == E.BAGS && CollectedBelow(p, E.BAGS, now, tags, bags)
    ensures E.Collect(p, now) == p.(tags := tags, bags := Contents(bags))
  {
  }

  lemma CollectNone(p: E.Participant, now: nat, tags: seq<Option<nat>>, bags: seq<seq<NodeId>>)
    requires |p.tags| == |p.bags| == |tags| == |bags| && p.tags == tags && p.bags == Contents(bags)
    ensures CollectedBelow(p, 0, now, tags, bags) && OutdatedBelow(p, 0, now) == multiset{}
  {
  }

  /** One more bag. */
  lemma CollectOne(p: E.Participant, n: nat, now: nat, tags: seq<Option<nat>>, bags: seq<seq<NodeId>>)
    requires n < |p.tags| == |p.bags| == |tags| == |bags| && CollectedBelow(p, n, now, tags, bags)
    ensures multiset(bags[n]) == p.bags[n] && tags[n] == p.tags[n]
    ensures if E.Expired(tags[n], now) then CollectedBelow(p, n + 1, now, tags[n := None], bags[n := []])
            else CollectedBelow(p, n + 1, now, tags, bags)
    ensures OutdatedBelow(p, n + 1, now) ==
            OutdatedBelow(p, n, now) + if E.Expired(tags[n], now) then multiset(bags[n]) else multiset{}
  {
  }

  lemma RetiredIs(p: E.Participant, n: NodeId, held: seq<seq<NodeId>>, tags: seq<Option<nat>>, bags: seq<seq<NodeId>>)
    requires |p.tags| == |held| == E.BAGS && p.bags == Contents(held)
    requires var i := E.CurrentBag(p);
             && tags == p.tags[i := Some(p.announced + 1)]
             && bags == held[i := (if E.Reuses(p) then [] else held[i]) + [n]]
    ensures E.Retired(p, n) == p.(retires := if p.retires + 1 == E.RETIRES_PER_ADVANCE then 0 else p.retires + 1,
                                  tags := tags, bags := Contents(bags))
  {
    var i := E.CurrentBag(p);
    assert multiset([] + [n]) == multiset{} + multiset{n};
  }

  class Participant {
    var epoch: Option<nat>
    var announced: nat
    var retires: nat
    const bagEpochs: array<Option<nat>>
    const bags: array<seq<NodeId>>

    ghost predicate Valid()
      reads this
    {
      bagEpochs.Length == E.BAGS && bags.Length == E.BAGS
    }

    ghost function Value(): (p: E.Participant)
      requires Valid()
      reads this, bagEpochs, bags
      ensures |p.tags| == |p.bags| == E.BAGS
    {
      E.Participant(epoch, announced, retires, bagEpochs[..], Contents(bags[..]))
    }

    constructor ()
      ensures Valid() && fresh(bagEpochs) && fresh(bags) && Value() == E.NEW_PARTICIPANT
    {
      epoch, announced, retires := None, 0, 0;
      bagEpochs := new Option<nat>[E.BAGS](_ => None);
      bags := new seq<NodeId>[E.BAGS](_ => []);
      new;
      assert bagEpochs[..] == E.NEW_PARTICIPANT.tags;
      assert Contents(bags[..]) == E.NEW_PARTICIPANT.bags;
    }

    /** Deletes the nodes of one bag. */
    method FreeBag(index: nat) returns (freed: seq<NodeId>)
      requires Valid() && index < E.BAGS
      modifies bags
      ensures freed == old(bags[index]) && bags[..] == old(bags[..])[index := []]
    {
      freed := bags[index];
      bags[index] := [];
    }

    /** Frees every bag that the epoch has moved two past, and no other. */
    method CollectGarbage(now: nat) returns (freed: seq<NodeId>)
      requires Valid()
      modifies bagEpochs, bags
      ensures Value() == E.Collect(old(Value()), now)
      ensures multiset(freed) == E.Collected(old(Value()), now)
    {
      hide CollectedBelow, OutdatedBelow, E.Collect, E.Collected, Contents;
      ghost var p := Value();
      freed := [];
      var index := 0;
      CollectNone(p, now, bagEpochs[..], bags[..]);
      while index < E.BAGS
        invariant index <= E.BAGS
        invariant multiset(freed) == OutdatedBelow(p, index, now)
        invariant CollectedBelow(p, index, now, bagEpochs[..], bags[..])
      {
        ghost var tags, contents := bagEpochs[..], bags[..];
        CollectOne(p, index, now, tags, contents);
        var bagEpoch := bagEpochs[index];
        if bagEpoch.Some? && bagEpoch.value + 2 <= now {
          var emptied := FreeBag(index);
          freed := freed + emptied;
          bagEpochs[index] := None;
          assert bagEpochs[..] == tags[index := None] && bags[..] == contents[index := []];
        }
        index := index + 1;
      }
      OutdatedIsCollected(p, now);
      CollectedAll(p, now, bagEpochs[..], bags[..]);
    }

    /** Announces the epoch that the Guard has loaded, collecting first if it has moved. */
    method Enter(now: nat) returns (freed: seq<NodeId>)
      requires Valid() && epoch == None
      modifies this, bagEpochs, bags
      ensures Valid() && Value() == E.Entered(old(Value()), now)
      ensures multiset(freed) == E.EnterFrees(old(Value()), now)
    {
      freed := [];
      if now != announced {
        freed := CollectGarbage(now);
      }
      announced := now;
      epoch := Some(now);
    }

    method Leave()
      requires Valid()
      modifies this`epoch
      ensures Value() == old(Value()).(epoch := None)
    {
      epoch := None;
    }

    /**
      Takes over a node that has been unlinked. The bag for the current epoch is emptied first if what
      is in it dates from three epochs ago. `advance` says that it is time to try to advance the epoch.
    */
    method Retire(garbage: NodeId) returns (freed: seq<NodeId>, advance: bool)
      requires Valid() && epoch.Some?
      modifies this`retires, bagEpochs, bags
      ensures Value() == E.Retired(old(Value()), garbage)
      ensures multiset(freed) == E.RetireFrees(old(Value()))
      ensures advance <==> E.Retired(old(Value()), garbage).retires == 0
    {
      hide Contents, E.Retired;
      ghost var p, contents := Value(), bags[..];
      freed := [];
      var bagEpoch := announced + 1;
      var index := bagEpoch % E.BAGS;
      if bagEpochs[index] != Some(bagEpoch) {
        freed := FreeBag(index);
        bagEpochs[index] := Some(bagEpoch);
      }
      bags[index] := bags[index] + [garbage];
      retires := retires + 1;
      advance := retires == E.RETIRES_PER_ADVANCE;
      if advance {
        retires := 0;
      }
      RetiredIs(p, garbage, contents, bagEpochs[..], bags[..]);
    }
  }
}
