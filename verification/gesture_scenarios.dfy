/**
  Concrete touch sequences and what the listener does with them: a tap, the
  threshold and tie boundaries, decay of an idle reference, and a swipe
  followed by a fling measured from the first contact.
 */
module GestureScenarios {
  import opened Wrappers
  import opened SwipeGestureListener
  import opened GestureTrace

  const Screen: Size := Size(400.0, 800.0)

  function At(action: Action, x: real, y: real, millis: int): Sample
  {
    Sample(action, Point(x, y), Screen, millis)
  }

  /** Pressing and releasing in place is a click whatever positive fling threshold is configured. */
  lemma TapIsClick(cfg: Config, p: Point, t0: int, t1: int)
    requires cfg.flingThreshold > 0.0
    ensures var down := Step(cfg, Initial, Sample(Down, p, Screen, t0));
            var up := Step(cfg, down.next, Sample(Up, p, Screen, t1));
            && down.consumed && down.event.None?
            && !up.consumed && up.event.None?
  {
  }

  /** A release exactly one threshold away qualifies as a fling; the threshold test is strict. */
  lemma FlingAtThreshold(t: int)
    ensures var cfg := Config(100, 20.0, 50.0);
            var s := State(Some(Point(0.0, 0.0)), Some(Point(0.0, 0.0)), 0);
            && Step(cfg, s, At(Up, 50.0, 0.0, t)).event == Some(HorizontalFling(-50.0, Point(0.0, 0.0), Point(50.0, 0.0), Screen))
            && Step(cfg, s, At(Up, 49.5, 0.0, t)).event == None
  {
  }

  /** A diagonal swipe of equal extent on both axes is reported as vertical. */
  lemma DiagonalSwipeIsVertical(cfg: Config)
    requires cfg.swipeThreshold == 5.0 && cfg.touchDecayTime == 100
    ensures var s := OnDown(Initial, At(Down, 0.0, 0.0, 0)).next;
            Step(cfg, s, At(Move, 10.0, -10.0, 5)).event
              == Some(VerticalSwipe(10.0, Point(0.0, 0.0), Point(10.0, -10.0), Point(0.0, 0.0), Screen))
  {
  }

  /**
    After idling longer than the decay time the reference moves to the finger
    without a swipe, and later moves are measured from the new reference.
   */
  lemma IdleFingerDecays(cfg: Config)
    requires cfg == Config(100, 20.0, 50.0)
    ensures var s0 := OnDown(Initial, At(Down, 0.0, 0.0, 0)).next;
            var r1 := Step(cfg, s0, At(Move, 100.0, 100.0, 101));
            var r2 := Step(cfg, r1.next, At(Move, 110.0, 100.0, 150));
            var r3 := Step(cfg, s0, At(Move, 100.0, 100.0, 100));
            && r1.event.None? && !r1.consumed
            && r1.next == State(Some(Point(0.0, 0.0)), Some(Point(100.0, 100.0)), 101)
            && r2.event.None? && !r2.consumed && r2.next == r1.next
            && r3.event.Some? && r3.consumed
  {
  }

  /** Down, a swipe to the right, then a release further right: the fling is measured from the touch-down. */
  lemma SwipeThenFling()
    ensures var cfg := Config(100, 20.0, 50.0);
            var samples := [At(Down, 0.0, 0.0, 0), At(Move, 60.0, 0.0, 10), At(Up, 200.0, 0.0, 20)];
            && Feasible(Initial, samples)
            && Run(cfg, Initial, samples).reactions
               == [ Reaction(State(Some(Point(0.0, 0.0)), Some(Point(0.0, 0.0)), 0), None, true),
                    Reaction(State(Some(Point(0.0, 0.0)), Some(Point(60.0, 0.0)), 10),
                             Some(HorizontalSwipe(-60.0, Point(0.0, 0.0), Point(60.0, 0.0), Point(0.0, 0.0), Screen)), true),
                    Reaction(State(Some(Point(0.0, 0.0)), Some(Point(60.0, 0.0)), 10),
                             Some(HorizontalFling(-200.0, Point(0.0, 0.0), Point(200.0, 0.0), Screen)), true) ]
  {
  }
}
