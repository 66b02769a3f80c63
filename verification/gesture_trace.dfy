/**
  The listener driven over a whole stream of touch samples, one `onTouch`
  call per sample, and the properties that hold across calls: the first
  contact is the position of the latest touch-down, every fling is measured
  from it, and consecutive swipes chain end to start.
 */
module GestureTrace {
  import opened Wrappers
  import opened SwipeGestureListener

  /** The fields after the last sample, and the reaction to each sample in order. */
  datatype Trace = Trace(final: State, reactions: seq<Reaction>)

  /** Actions that dereference the listener's points. */
  predicate NeedsContact(a: Action)
  {
    a.Up? || a.Move?
  }

  /** Some sample before index `i` is a touch-down. */
  predicate DownBefore(samples: seq<Sample>, i: int)
    requires 0 <= i <= |samples|
  {
    exists j :: 0 <= j < i && samples[j].action.Down?
  }

  /** Sample `i` is an up or a move. */
  predicate ContactAt(samples: seq<Sample>, i: int)
    requires 0 <= i < |samples|
  {
    NeedsContact(samples[i].action)
  }

  /** Every up or move either finds the listener already touched, or follows a touch-down in the stream. */
  predicate Feasible(s: State, samples: seq<Sample>)
  {
    forall i :: 0 <= i < |samples| && ContactAt(samples, i) ==> Armed(s) || DownBefore(samples, i)
  }

  lemma FeasiblePrefix(s: State, samples: seq<Sample>, k: nat)
    requires Feasible(s, samples)
    requires k <= |samples|
    ensures Feasible(s, samples[..k])
  {
    forall i | 0 <= i < k && ContactAt(samples[..k], i)
      ensures Armed(s) || DownBefore(samples[..k], i)
    {
      if !Armed(s) {
        assert ContactAt(samples, i);
        assert DownBefore(samples, i);
        var j :| 0 <= j < i && samples[j].action.Down?;
        assert samples[..k][j] == samples[j];
      }
    }
  }

  /** Feed the samples to the listener in order, starting from fields `s`. */
  function Run(cfg: Config, s: State, samples: seq<Sample>): (t: Trace)
    requires Feasible(s, samples)
    ensures |t.reactions| == |samples|
    ensures t.final == if |samples| == 0 then s else t.reactions[|samples| - 1].next
    ensures Armed(s) || DownBefore(samples, |samples|) ==> Armed(t.final)
    ensures forall i :: 0 <= i < |samples| ==>
              (t.reactions[i].event.Some? ==> NeedsContact(samples[i].action))
    ensures forall i :: 0 <= i < |samples| ==>
              (t.reactions[i].consumed <==> samples[i].action.Down? || t.reactions[i].event.Some?)
    decreases |samples|
  {
    if |samples| == 0 then
      Trace(s, [])
    else
      var n := |samples| - 1;
      var init := samples[..n];
      FeasiblePrefix(s, samples, n);
      var t := Run(cfg, s, init);
      var e := samples[n];
      assert DownBefore(samples, n) ==> DownBefore(init, n) by {
        if DownBefore(samples, n) {
          var j :| 0 <= j < n && samples[j].action.Down?;
          assert init[j] == samples[j];
        }
      }
      var r := Step(cfg, t.final, e);
      assert DownBefore(samples, |samples|) ==> DownBefore(init, n) || e.action.Down?;
      Trace(r.next, t.reactions + [r])
  }

  /** The touch-down a feasible stream relies on is still there in its prefix, so sample `i` is well defined. */
  lemma PrefixDefined(cfg: Config, s: State, samples: seq<Sample>, i: nat)
    requires Feasible(s, samples)
    requires i < |samples|
    ensures Feasible(s, samples[..i])
    ensures Defined(Run(cfg, s, samples[..i]).final, samples[i])
  {
    FeasiblePrefix(s, samples, i);
    var pre := samples[..i];
    if NeedsContact(samples[i].action) && !Armed(s) {
      assert ContactAt(samples, i);
      var j :| 0 <= j < i && samples[j].action.Down?;
      assert pre[j] == samples[j];
      assert DownBefore(pre, |pre|);
    }
  }

  /** Unfolding `Run` once: the last sample is one `onTouch` call after the rest. */
  lemma RunLast(cfg: Config, s: State, samples: seq<Sample>)
    requires Feasible(s, samples)
    requires |samples| > 0
    ensures Feasible(s, samples[..|samples| - 1])
    ensures Defined(Run(cfg, s, samples[..|samples| - 1]).final, samples[|samples| - 1])
    ensures var t := Run(cfg, s, samples[..|samples| - 1]);
            var r := Step(cfg, t.final, samples[|samples| - 1]);
            Run(cfg, s, samples) == Trace(r.next, t.reactions + [r])
  {
    PrefixDefined(cfg, s, samples, |samples| - 1);
  }

  /** The fields just before sample `i` is handled. */
  function StateBefore(cfg: Config, s: State, samples: seq<Sample>, i: nat): State
    requires Feasible(s, samples)
    requires i <= |samples|
  {
    FeasiblePrefix(s, samples, i);
    Run(cfg, s, samples[..i]).final
  }

  /** Handling a longer stream does not change the reactions to its prefix. */
  lemma {:induction false} RunPrefix(cfg: Config, s: State, samples: seq<Sample>, k: nat)
    requires Feasible(s, samples)
    requires k <= |samples|
    ensures Feasible(s, samples[..k])
    ensures Run(cfg, s, samples[..k]).reactions == Run(cfg, s, samples).reactions[..k]
    decreases |samples|
  {
    FeasiblePrefix(s, samples, k);
    if k < |samples| {
      var n := |samples| - 1;
      FeasiblePrefix(s, samples, n);
      assert samples[..n][..k] == samples[..k];
      RunPrefix(cfg, s, samples[..n], k);
    } else {
      assert samples[..k] == samples;
    }
  }

  /** The reaction to sample `i` is one `onTouch` call on the fields left by the samples before it. */
  lemma ReactionIsStep(cfg: Config, s: State, samples: seq<Sample>, i: nat)
    requires Feasible(s, samples)
    requires i < |samples|
    ensures Defined(StateBefore(cfg, s, samples, i), samples[i])
    ensures Run(cfg, s, samples).reactions[i] == Step(cfg, StateBefore(cfg, s, samples, i), samples[i])
    ensures StateBefore(cfg, s, samples, i + 1) == Run(cfg, s, samples).reactions[i].next
  {
    PrefixDefined(cfg, s, samples, i);
    RunPrefix(cfg, s, samples, i + 1);
    var pre := samples[..i + 1];
    assert pre[..i] == samples[..i];
    assert pre[i] == samples[i];
    RunLast(cfg, s, pre);
  }

  /**
    Reference definition of the first contact after a stream: the position of
    the latest touch-down in it, or `before` when it has none.
   */
  function LastDownPoint(samples: seq<Sample>, before: Option<Point>): Option<Point>
  {
    if |samples| == 0 then before
    else if samples[|samples| - 1].action.Down? then Some(samples[|samples| - 1].pos)
    else LastDownPoint(samples[..|samples| - 1], before)
  }

  /** Only a touch-down writes the first contact point. */
  lemma {:induction false} FirstContactIsLastDown(cfg: Config, s: State, samples: seq<Sample>)
    requires Feasible(s, samples)
    ensures Run(cfg, s, samples).final.firstContactPoint == LastDownPoint(samples, s.firstContactPoint)
    decreases |samples|
  {
    if |samples| > 0 {
      var n := |samples| - 1;
      FeasiblePrefix(s, samples, n);
      FirstContactIsLastDown(cfg, s, samples[..n]);
    }
  }

  /**
    Every fling starts at the latest touch-down before it (not at the swipe
    reference), and every swipe carries that same first contact.
   */
  lemma EventsAnchoredAtLastDown(cfg: Config, s: State, samples: seq<Sample>, i: nat)
    requires Feasible(s, samples)
    requires i < |samples|
    requires Run(cfg, s, samples).reactions[i].event.Some?
    ensures LastDownPoint(samples[..i], s.firstContactPoint).Some?
    ensures var ev := Run(cfg, s, samples).reactions[i].event.value;
            var first := LastDownPoint(samples[..i], s.firstContactPoint).value;
            && ev.end == samples[i].pos
            && (ev.IsFling() ==> ev.start == first)
            && (ev.IsSwipe() ==> ev.firstContact == first)
  {
    ReactionIsStep(cfg, s, samples, i);
    FeasiblePrefix(s, samples, i);
    FirstContactIsLastDown(cfg, s, samples[..i]);
  }

  /**
    Swipe chaining: when a swipe at `i` is followed by samples that are not
    touch-downs, fire nothing and come within the decay time of it, the next
    swipe at `k` starts exactly where the swipe at `i` ended.
   */
  lemma SwipesChain(cfg: Config, s: State, samples: seq<Sample>, i: nat, k: nat)
    requires Feasible(s, samples)
    requires i < k < |samples|
    requires Run(cfg, s, samples).reactions[i].event.Some?
    requires Run(cfg, s, samples).reactions[i].event.value.IsSwipe()
    requires forall m :: i < m < k ==>
               && !samples[m].action.Down?
               && Run(cfg, s, samples).reactions[m].event.None?
    requires forall m :: i < m < k ==> samples[m].millis - samples[i].millis <= cfg.touchDecayTime
    requires Run(cfg, s, samples).reactions[k].event.Some?
    requires Run(cfg, s, samples).reactions[k].event.value.IsSwipe()
    ensures Run(cfg, s, samples).reactions[k].event.value.start
         == Run(cfg, s, samples).reactions[i].event.value.end
  {
    ReactionIsStep(cfg, s, samples, i);
    ReferenceHeld(cfg, s, samples, i, k);
    ReactionIsStep(cfg, s, samples, k);
  }

  /** Between the two swipes the reference stays at the first swipe's end, stamped with its time. */
  lemma {:induction false} ReferenceHeld(cfg: Config, s: State, samples: seq<Sample>, i: nat, m: nat)
    requires Feasible(s, samples)
    requires i < m < |samples|
    requires Run(cfg, s, samples).reactions[i].event.Some?
    requires Run(cfg, s, samples).reactions[i].event.value.IsSwipe()
    requires forall j :: i < j < m ==>
               && !samples[j].action.Down?
               && Run(cfg, s, samples).reactions[j].event.None?
    requires forall j :: i < j < m ==> samples[j].millis - samples[i].millis <= cfg.touchDecayTime
    ensures StateBefore(cfg, s, samples, m).lastSwipePoint == Some(samples[i].pos)
    ensures StateBefore(cfg, s, samples, m).lastSwipePointMillis == samples[i].millis
    decreases m - i
  {
    ReactionIsStep(cfg, s, samples, m - 1);
    if m - 1 > i {
      ReferenceHeld(cfg, s, samples, i, m - 1);
      var before := StateBefore(cfg, s, samples, m - 1);
      assert !Decayed(cfg, before, samples[m - 1].millis);
    }
  }
}
