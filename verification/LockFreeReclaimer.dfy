/** The reclaimer inside the lock-free set: its part of any run of the set is a run of its own. */
module LockFreeReclaimer {
  import opened Common
  import opened LockFreeSet
  import opened LockFreeSteps
  import opened LockFreeSafety
  import opened EpochProgress
  import R = EpochRuns
  import E = Epochs

  /** Run `q` of the reclaimer is what the first `i` steps of run `r` of the set do to it. */
  ghost predicate IsPartOf(q: R.Run, r: Run, i: nat) {
    && R.IsRun(q) && i < |r.states| && q.states[0] == r.states[0].rec && q.states[|q.states| - 1] == r.states[i].rec
    && |q.events| <= i
    && forall k {:trigger q.states[k]} :: 0 <= k < |q.states| ==>
         exists j :: 0 <= j <= i && q.states[k] == r.states[j].rec
  }

  lemma OneMore(q: R.Run, r: Run, i: nat, t: Tid, a: E.Action) returns (p: R.Run)
    requires IsPartOf(q, r, i) && i + 1 < |r.states|
    requires E.Enabled(r.states[i].rec, t, a) && r.states[i + 1].rec == E.Apply(r.states[i].rec, t, a)
    ensures IsPartOf(p, r, i + 1)
  {
    hide E.Enabled, E.Apply, E.Init;
    p := R.Run(q.states + [r.states[i + 1].rec], q.events + [(t, a)]);
    forall k | 0 <= k < |p.events|
      ensures E.Enabled(p.states[k], p.events[k].0, p.events[k].1)
      ensures p.states[k + 1] == E.Apply(p.states[k], p.events[k].0, p.events[k].1)
    {
      if k < |q.events| {
        assert p.events[k] == q.events[k] && p.states[k] == q.states[k] && p.states[k + 1] == q.states[k + 1];
      }
    }
    forall k | 0 <= k < |p.states|
      ensures exists j :: 0 <= j <= i + 1 && p.states[k] == r.states[j].rec
    {
      if k < |q.states| {
        assert p.states[k] == q.states[k];
        var j :| 0 <= j <= i && q.states[k] == r.states[j].rec;
      } else {
        assert p.states[k] == r.states[i + 1].rec;
      }
    }
  }

  lemma SamePart(q: R.Run, r: Run, i: nat)
    requires IsPartOf(q, r, i) && i + 1 < |r.states| && r.states[i + 1].rec == r.states[i].rec
    ensures IsPartOf(q, r, i + 1)
  {
    hide R.IsRun;
  }

  /** So whatever is proved of all runs of the reclaimer holds of the one inside the set. */
  lemma {:induction false} ReclaimerRuns(r: Run, i: nat) returns (q: R.Run)
    requires IsRun(r) && i < |r.states|
    ensures IsPartOf(q, r, i)
  {
    hide Inv, Next, Ready, E.Enabled, E.Lag, E.TagLag, E.Apply, TagWithin, FreshStep, E.Init, IsPartOf;
    if i == 0 {
      q := R.Run([r.states[0].rec], []);
      Empty(q, r);
    } else {
      q := ReclaimerRuns(r, i - 1);
      Always(r, i - 1);
      var s, e := r.states[i - 1], r.events[i - 1];
      assert IsStep(s, e, r.states[i]);
      StepOfReclaimer(s, e.t, e.op, e.elem);
      if r.states[i].rec == s.rec {
        SamePart(q, r, i - 1);
      } else {
        var a :| ReclaimerMoves(s, e.t, a, r.states[i].rec);
        q := OneMore(q, r, i - 1, e.t, a);
      }
    }
  }

  lemma Empty(q: R.Run, r: Run)
    requires |r.states| > 0 && E.Init(r.states[0].rec) && q == R.Run([r.states[0].rec], [])
    ensures IsPartOf(q, r, 0)
  {
    hide E.Init;
    assert q.states[0] == r.states[0].rec;
  }

  /**
    In every run of the set `advancing_` is raised exactly while some one thread of it is between taking it
    and giving it back.
  */
  lemma FlagHeldInSet(r: Run, i: nat)
    requires IsRun(r) && i < |r.states|
    ensures var rec := r.states[i].rec;
            && (rec.advancing <==> exists t :: IsAdvancer(rec, t))
            && forall t, u :: IsAdvancer(rec, t) && IsAdvancer(rec, u) ==> t == u
  {
    hide IsRun, IsAdvancer, R.IsRun;
    var q := ReclaimerRuns(r, i);
    Lengths(q);
    FlagHeld(q, |q.states| - 1);
  }

  lemma Lengths(q: R.Run)
    requires R.IsRun(q)
    ensures |q.states| > 0
  {
  }
}
