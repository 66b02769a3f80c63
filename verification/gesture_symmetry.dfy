/**
  Symmetries of the classifier. Classification depends only on differences of
  positions and of timestamps, so moving a whole interaction across the
  screen or in time changes nothing but the reported points. The two axes are
  treated alike except for ties, which always go to the vertical axis.
 */
module GestureSymmetry {
  import opened Wrappers
  import opened SwipeGestureListener
  import opened GestureTrace

  /** A change of frame: positions translated by `offset`, timestamps shifted by `clock`. */
  datatype Frame = Frame(offset: Point, clock: int)

  function MovePoint(f: Frame, p: Point): Point
  {
    Point(p.x + f.offset.x, p.y + f.offset.y)
  }

  function MoveOption(f: Frame, o: Option<Point>): Option<Point>
  {
    match o
    case None => None
    case Some(p) => Some(MovePoint(f, p))
  }

  function MoveState(f: Frame, s: State): State
  {
    State(MoveOption(f, s.firstContactPoint), MoveOption(f, s.lastSwipePoint), s.lastSwipePointMillis + f.clock)
  }

  function MoveSample(f: Frame, e: Sample): Sample
  {
    e.(pos := MovePoint(f, e.pos), millis := e.millis + f.clock)
  }

  function MoveEvent(f: Frame, ev: Event): Event
  {
    match ev
    case HorizontalSwipe(d, a, b, c, sz) => HorizontalSwipe(d, MovePoint(f, a), MovePoint(f, b), MovePoint(f, c), sz)
    case VerticalSwipe(d, a, b, c, sz) => VerticalSwipe(d, MovePoint(f, a), MovePoint(f, b), MovePoint(f, c), sz)
    case HorizontalFling(d, a, b, sz) => HorizontalFling(d, MovePoint(f, a), MovePoint(f, b), sz)
    case VerticalFling(d, a, b, sz) => VerticalFling(d, MovePoint(f, a), MovePoint(f, b), sz)
  }

  function MoveReaction(f: Frame, r: Reaction): Reaction
  {
    Reaction(
      MoveState(f, r.next),
      match r.event case None => None case Some(ev) => Some(MoveEvent(f, ev)),
      r.consumed)
  }

  function MoveSamples(f: Frame, samples: seq<Sample>): seq<Sample>
  {
    seq(|samples|, i requires 0 <= i < |samples| => MoveSample(f, samples[i]))
  }

  function MoveReactions(f: Frame, rs: seq<Reaction>): seq<Reaction>
  {
    seq(|rs|, i requires 0 <= i < |rs| => MoveReaction(f, rs[i]))
  }

  /** One `onTouch` call commutes with a change of frame: same events, same return value, moved points. */
  lemma StepFrameInvariant(cfg: Config, f: Frame, s: State, e: Sample)
    requires Defined(s, e)
    ensures Defined(MoveState(f, s), MoveSample(f, e))
    ensures Step(cfg, MoveState(f, s), MoveSample(f, e)) == MoveReaction(f, Step(cfg, s, e))
  {
  }

  /** Moving a stream keeps every action, so it stays feasible. */
  lemma MovedFeasible(f: Frame, s: State, samples: seq<Sample>)
    requires Feasible(s, samples)
    ensures Feasible(MoveState(f, s), MoveSamples(f, samples))
  {
    var moved := MoveSamples(f, samples);
    forall i | 0 <= i < |moved| && ContactAt(moved, i)
      ensures Armed(MoveState(f, s)) || DownBefore(moved, i)
    {
      if !Armed(MoveState(f, s)) {
        assert ContactAt(samples, i);
        var j :| 0 <= j < i && samples[j].action.Down?;
        assert moved[j].action.Down?;
      }
    }
  }

  /** A whole interaction moved across the screen and in time is classified exactly as before. */
  lemma {:induction false} RunFrameInvariant(cfg: Config, f: Frame, s: State, samples: seq<Sample>)
    requires Feasible(s, samples)
    ensures Feasible(MoveState(f, s), MoveSamples(f, samples))
    ensures Run(cfg, MoveState(f, s), MoveSamples(f, samples))
         == Trace(MoveState(f, Run(cfg, s, samples).final), MoveReactions(f, Run(cfg, s, samples).reactions))
    decreases |samples|
  {
    MovedFeasible(f, s, samples);
    if |samples| > 0 {
      var n := |samples| - 1;
      var ms := MoveState(f, s);
      var moved := MoveSamples(f, samples);
      RunLast(cfg, s, samples);
      RunLast(cfg, ms, moved);
      assert moved[..n] == MoveSamples(f, samples[..n]);
      RunFrameInvariant(cfg, f, s, samples[..n]);
      var t := Run(cfg, s, samples[..n]);
      var r := Step(cfg, t.final, samples[n]);
      var t' := Run(cfg, ms, moved[..n]);
      assert t' == Trace(MoveState(f, t.final), MoveReactions(f, t.reactions));
      StepFrameInvariant(cfg, f, t.final, samples[n]);
      assert Step(cfg, t'.final, moved[n]) == MoveReaction(f, r);
      MoveReactionsSnoc(f, t.reactions, r);
    }
  }

  lemma MoveReactionsSnoc(f: Frame, rs: seq<Reaction>, r: Reaction)
    ensures MoveReactions(f, rs + [r]) == MoveReactions(f, rs) + [MoveReaction(f, r)]
  {
  }

  /** Exchange the two axes. */
  function Swap(p: Point): Point
  {
    Point(p.y, p.x)
  }

  function SwapOption(o: Option<Point>): Option<Point>
  {
    match o
    case None => None
    case Some(p) => Some(Swap(p))
  }

  function SwapState(s: State): State
  {
    s.(firstContactPoint := SwapOption(s.firstContactPoint), lastSwipePoint := SwapOption(s.lastSwipePoint))
  }

  function SwapSample(e: Sample): Sample
  {
    e.(pos := Swap(e.pos), screen := Size(e.screen.height, e.screen.width))
  }

  /** The same gesture seen with the axes exchanged: horizontal and vertical trade places. */
  function SwapEvent(ev: Event): Event
  {
    match ev
    case HorizontalSwipe(d, a, b, c, sz) => VerticalSwipe(d, Swap(a), Swap(b), Swap(c), Size(sz.height, sz.width))
    case VerticalSwipe(d, a, b, c, sz) => HorizontalSwipe(d, Swap(a), Swap(b), Swap(c), Size(sz.height, sz.width))
    case HorizontalFling(d, a, b, sz) => VerticalFling(d, Swap(a), Swap(b), Size(sz.height, sz.width))
    case VerticalFling(d, a, b, sz) => HorizontalFling(d, Swap(a), Swap(b), Size(sz.height, sz.width))
  }

  function SwapReaction(r: Reaction): Reaction
  {
    Reaction(
      SwapState(r.next),
      match r.event case None => None case Some(ev) => Some(SwapEvent(ev)),
      r.consumed)
  }

  /** The displacement the sample is measured by: from the first contact on release, from the reference on a move. */
  function MeasuredDelta(s: State, e: Sample): Option<Point>
    requires Defined(s, e)
  {
    match e.action
    case Up => Some(Delta(s.firstContactPoint.value, e.pos))
    case Move => Some(Delta(s.lastSwipePoint.value, e.pos))
    case _ => None
  }

  /** Both axes move the same distance. */
  predicate Tied(s: State, e: Sample)
    requires Defined(s, e)
  {
    MeasuredDelta(s, e).Some? && Abs(MeasuredDelta(s, e).value.x) == Abs(MeasuredDelta(s, e).value.y)
  }

  /** Away from ties the classifier treats the axes alike: exchanging them exchanges the events. */
  lemma StepTranspose(cfg: Config, s: State, e: Sample)
    requires Defined(s, e)
    requires !Tied(s, e)
    ensures Defined(SwapState(s), SwapSample(e))
    ensures Step(cfg, SwapState(s), SwapSample(e)) == SwapReaction(Step(cfg, s, e))
  {
  }

  /** On a tie both orientations of the gesture report a vertical event, never a horizontal one. */
  lemma TieGoesVertical(cfg: Config, s: State, e: Sample)
    requires Defined(s, e)
    requires Tied(s, e)
    ensures Defined(SwapState(s), SwapSample(e))
    ensures Step(cfg, s, e).event.Some? <==> Step(cfg, SwapState(s), SwapSample(e)).event.Some?
    ensures Step(cfg, s, e).event.Some? ==> !Step(cfg, s, e).event.value.IsHorizontal()
    ensures Step(cfg, SwapState(s), SwapSample(e)).event.Some? ==>
              !Step(cfg, SwapState(s), SwapSample(e)).event.value.IsHorizontal()
  {
  }
}
