/**
  The swipe/fling classifier of `SwipeGestureListener`.

  Every touch sample (finger down, move, up, or any other action) is reduced to
  at most one gesture event plus a "consumed" flag, updating three cells of
  memory: the first contact point, the swipe reference point, and the time the
  reference point was last set.

  Platform plumbing is abstracted away: positions and the screen size arrive
  already converted to density-independent pixels, the wall clock becomes a
  timestamp carried by each sample, and the four overridable hooks become the
  `Event` returned by `Step`.
 */
module SwipeGestureListener {
  import opened Wrappers

  /** A finger position in density-independent pixels. */
  datatype Point = Point(x: real, y: real)

  /** The screen size; the classifier only copies it into events. */
  datatype Size = Size(width: real, height: real)

  /** The phase of a touch sample; `Other` stands for every action other than down, up and move. */
  datatype Action = Down | Up | Move | Other

  /** One touch sample, with the time (in milliseconds) at which it is handled. */
  datatype Sample = Sample(action: Action, pos: Point, screen: Size, millis: int)

  /** The immutable configuration given to the constructor. */
  datatype Config = Config(touchDecayTime: int, swipeThreshold: real, flingThreshold: real)

  /** The listener's mutable fields; `None` is a field Java has left `null`. */
  datatype State = State(
    firstContactPoint: Option<Point>,
    lastSwipePoint: Option<Point>,
    lastSwipePointMillis: int)

  /** The four hooks, as values. `delta` is the signed displacement on the reported axis. */
  datatype Event =
    | HorizontalSwipe(delta: real, start: Point, end: Point, firstContact: Point, screen: Size)
    | VerticalSwipe(delta: real, start: Point, end: Point, firstContact: Point, screen: Size)
    | HorizontalFling(delta: real, start: Point, end: Point, screen: Size)
    | VerticalFling(delta: real, start: Point, end: Point, screen: Size)
  {
    predicate IsSwipe() { HorizontalSwipe? || VerticalSwipe? }

    predicate IsFling() { HorizontalFling? || VerticalFling? }

    predicate IsHorizontal() { HorizontalSwipe? || HorizontalFling? }
  }

  /** What one call of `onTouch` produces: the new fields, the hook fired (if any), and the return value. */
  datatype Reaction = Reaction(next: State, event: Option<Event>, consumed: bool)

  /** The fields of a freshly constructed listener (Java's default values). */
  const Initial: State := State(None, None, 0)

  function Abs(v: real): (r: real)
    ensures r >= 0.0
    ensures r == v || r == -v
  {
    if v < 0.0 then -v else v
  }

  /** The displacement `from - to`, component-wise, as the source computes its deltas. */
  function Delta(from: Point, to: Point): Point
  {
    Point(from.x - to.x, from.y - to.y)
  }

  /** The larger of the two absolute components: how far the displacement reaches on its dominant axis. */
  function Reach(d: Point): real
  {
    if Abs(d.x) < Abs(d.y) then Abs(d.y) else Abs(d.x)
  }

  /** The source's "does not qualify" test: both components strictly below the threshold. */
  predicate BelowThreshold(d: Point, threshold: real)
  {
    Abs(d.x) < threshold && Abs(d.y) < threshold
  }

  /** Axis dominance: horizontal only when strictly larger, so a tie is vertical. */
  predicate HorizontalWins(d: Point)
  {
    Abs(d.x) > Abs(d.y)
  }

  /** The swipe reference is stale: strictly more than the decay time has passed since it was set. */
  predicate Decayed(cfg: Config, s: State, now: int)
  {
    now - s.lastSwipePointMillis > cfg.touchDecayTime
  }

  /** A touch-down has been seen: both points are set. */
  predicate Armed(s: State)
  {
    s.firstContactPoint.Some? && s.lastSwipePoint.Some?
  }

  /** The sample does not dereference a field that is still `null`. */
  predicate Defined(s: State, e: Sample)
  {
    && (e.action.Up? ==> s.firstContactPoint.Some?)
    && (e.action.Move? ==> Armed(s))
  }

  /** An event reports displacement `d` on its dominant axis (ties vertical), with that axis' signed delta. */
  predicate ReportsAxis(ev: Event, d: Point)
  {
    && (ev.IsHorizontal() <==> Abs(d.x) > Abs(d.y))
    && ev.delta == (if ev.IsHorizontal() then d.x else d.y)
    && Abs(ev.delta) == Reach(d)
  }

  /** `setLastSwipePoint`: move the swipe reference and stamp it with the current time. */
  function SetLastSwipePoint(s: State, to: Point, now: int): (r: State)
    ensures r.firstContactPoint == s.firstContactPoint
    ensures Armed(r) <==> s.firstContactPoint.Some?
    ensures r.lastSwipePoint == Some(to) && r.lastSwipePointMillis == now
  {
    s.(lastSwipePoint := Some(to), lastSwipePointMillis := now)
  }

  /** ACTION_DOWN: remember the first contact and make it the swipe reference; claim the touch. */
  function OnDown(s: State, e: Sample): (r: Reaction)
    ensures r.next == State(Some(e.pos), Some(e.pos), e.millis)
    ensures r.event == None && r.consumed
  {
    var touched := s.(firstContactPoint := Some(e.pos));
    Reaction(SetLastSwipePoint(touched, e.pos, e.millis), None, true)
  }

  /** ACTION_UP: a fling measured from the first contact, or a click when it does not reach the threshold. */
  function OnUp(cfg: Config, s: State, e: Sample): (r: Reaction)
    requires s.firstContactPoint.Some?
    ensures r.next == s
    ensures r.consumed <==> r.event.Some?
    ensures r.event.Some? <==> Reach(Delta(s.firstContactPoint.value, e.pos)) >= cfg.flingThreshold
    ensures r.event.Some? ==>
              && r.event.value.IsFling()
              && r.event.value.start == s.firstContactPoint.value
              && r.event.value.end == e.pos
              && r.event.value.screen == e.screen
              && ReportsAxis(r.event.value, Delta(s.firstContactPoint.value, e.pos))
  {
    var first := s.firstContactPoint.value;
    var d := Delta(first, e.pos);
    if BelowThreshold(d, cfg.flingThreshold) then
      Reaction(s, None, false)
    else if HorizontalWins(d) then
      Reaction(s, Some(HorizontalFling(d.x, first, e.pos, e.screen)), true)
    else
      Reaction(s, Some(VerticalFling(d.y, first, e.pos, e.screen)), true)
  }

  /** ACTION_MOVE: decay a stale reference, else a swipe measured from the reference once it reaches the threshold. */
  function OnMove(cfg: Config, s: State, e: Sample): (r: Reaction)
    requires Armed(s)
    ensures r.next.firstContactPoint == s.firstContactPoint
    ensures r.consumed <==> r.event.Some?
    ensures Decayed(cfg, s, e.millis) ==>
              && r.event == None
              && r.next == s.(lastSwipePoint := Some(e.pos), lastSwipePointMillis := e.millis)
    ensures !Decayed(cfg, s, e.millis) && Reach(Delta(s.lastSwipePoint.value, e.pos)) < cfg.swipeThreshold ==>
              r == Reaction(s, None, false)
    ensures r.event.Some? <==>
              !Decayed(cfg, s, e.millis) && Reach(Delta(s.lastSwipePoint.value, e.pos)) >= cfg.swipeThreshold
    ensures r.event.Some? ==>
              && r.event.value.IsSwipe()
              && r.event.value.start == s.lastSwipePoint.value
              && r.event.value.end == e.pos
              && r.event.value.firstContact == s.firstContactPoint.value
              && r.event.value.screen == e.screen
              && ReportsAxis(r.event.value, Delta(s.lastSwipePoint.value, e.pos))
              && r.next == s.(lastSwipePoint := Some(e.pos), lastSwipePointMillis := e.millis)
  {
    if Decayed(cfg, s, e.millis) then
      Reaction(SetLastSwipePoint(s, e.pos, e.millis), None, false)
    else
      var start := s.lastSwipePoint.value;
      var d := Delta(start, e.pos);
      if BelowThreshold(d, cfg.swipeThreshold) then
        Reaction(s, None, false)
      else
        var ev :=
          if HorizontalWins(d) then HorizontalSwipe(d.x, start, e.pos, s.firstContactPoint.value, e.screen)
          else VerticalSwipe(d.y, start, e.pos, s.firstContactPoint.value, e.screen);
        Reaction(SetLastSwipePoint(s, e.pos, e.millis), Some(ev), true)
  }

  /** `onTouch`: dispatch on the action; unknown actions are ignored. */
  function Step(cfg: Config, s: State, e: Sample): (r: Reaction)
    requires Defined(s, e)
    ensures r.consumed <==> e.action.Down? || r.event.Some?
    ensures r.event.Some? ==>
              || (e.action.Up? && r.event.value.IsFling())
              || (e.action.Move? && r.event.value.IsSwipe())
    ensures r.next.firstContactPoint == if e.action.Down? then Some(e.pos) else s.firstContactPoint
    ensures r.next.lastSwipePoint == s.lastSwipePoint || r.next.lastSwipePoint == Some(e.pos)
    ensures Armed(s) || e.action.Down? ==> Armed(r.next)
    ensures e.action.Move? && (r.event.Some? || Decayed(cfg, s, e.millis)) ==>
              r.next == SetLastSwipePoint(s, e.pos, e.millis)
    ensures !e.action.Down? && !(e.action.Move? && (r.event.Some? || Decayed(cfg, s, e.millis))) ==>
              r.next == s
    ensures e.action.Other? ==> r == Reaction(s, None, false)
  {
    match e.action
    case Down => OnDown(s, e)
    case Up => OnUp(cfg, s, e)
    case Move => OnMove(cfg, s, e)
    case Other => Reaction(s, None, false)
  }
}
