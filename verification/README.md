# Swipe and fling classification of `SwipeGestureListener`

This project models the touch classifier of the YetAnotherVideoPlayer app
(`SwipeGestureListener.onTouch` and its helper `setLastSwipePoint`) in Dafny and proves
properties about it.

The listener reduces each single-finger touch sample to at most one gesture event and a
"consumed" return value:

- A swipe fires while the finger moves. It is horizontal or vertical and is measured from
  a moving reference point.
- A fling fires when the finger is released. It is measured from the first contact point.
- Otherwise nothing fires. A release that is not a fling is a click.

The listener keeps three fields: the first contact point, the swipe reference point, and
the time the reference was set. Its configuration is the decay time, the swipe threshold
and the fling threshold.

Files:

- `wrappers.dfy`: `Option`, standing in for fields Java leaves `null`.
- `swipe_gesture_listener.dfy`: the data model and one `onTouch` call as the pure function
  `Step(cfg, state, sample)`. `Step` returns the new fields, the hook that fires (as an
  `Event` value) and the return value.
- `gesture_trace.dfy`: `Run` feeds a stream of samples through `Step`. Lemmas relate the
  reactions across calls.
- `gesture_symmetry.dfy`: translation and clock-shift invariance, and the axis symmetry
  that only ties break.
- `gesture_scenarios.dfy`: concrete touch sequences.

Abstractions:

- Positions and the screen size arrive already converted to density-independent pixels.
- Each sample carries the time at which it is handled. This replaces the wall clock.
- The four overridable hooks become the returned `Event`.

## Model

| member | source | states |
|---|---|---|
| SwipeGestureListener.SetLastSwipePoint | app/src/main/java/de/shadow578/yetanothervideoplayer/util/SwipeGestureListener.java:161-165 | The swipe reference becomes the given point, stamped with the given time. The first contact point is untouched. |
| SwipeGestureListener.OnDown | app/src/main/java/de/shadow578/yetanothervideoplayer/util/SwipeGestureListener.java:78-84 | Whatever the previous fields were, a touch-down makes both the first contact and the swipe reference the current position, with the reference time now. No event fires and the touch is consumed. |
| SwipeGestureListener.OnUp | app/src/main/java/de/shadow578/yetanothervideoplayer/util/SwipeGestureListener.java:85-112 | A release fires a fling iff the larger absolute delta from the first contact reaches the fling threshold; a delta equal to the threshold qualifies. The fling starts at the first contact and ends at the current position. It is horizontal iff abs(dx) > abs(dy), so ties are vertical. It carries the signed delta of its axis, whose size is the larger delta. It returns true iff a fling fired (otherwise it is a click), and it changes no field. |
| SwipeGestureListener.OnMove | app/src/main/java/de/shadow578/yetanothervideoplayer/util/SwipeGestureListener.java:113-147 | If the reference is older than the decay time (strictly more elapsed), the reference moves to the finger and the sample returns false with no event. Otherwise, with both deltas from the reference below the swipe threshold, nothing changes at all. Otherwise exactly one swipe fires: from the old reference to the current position, carrying the unchanged first contact, on the dominant axis (ties vertical). The reference then moves to the finger with the current time. It returns true iff a swipe fired. |
| SwipeGestureListener.Step | app/src/main/java/de/shadow578/yetanothervideoplayer/util/SwipeGestureListener.java:61-154 | Dispatch on the action. Flings come only from releases and swipes only from moves. The return value is true iff the sample is a touch-down or fired an event. Only a touch-down writes the first contact. The reference is either kept or moved to the current position. It moves on a move only when a swipe fires or the old reference has decayed. Any sample that is not a touch-down and does not move the reference leaves every field unchanged. Unknown actions change nothing, fire nothing and return false. |
| GestureTrace.Run | app/src/main/java/de/shadow578/yetanothervideoplayer/util/SwipeGestureListener.java:61-154 | Driving the listener over a stream gives one reaction per sample. An event only ever comes from an up or a move. A sample is consumed iff it is a down or fired an event. After any touch-down both points are set. |
| GestureTrace.RunPrefix | app/src/main/java/de/shadow578/yetanothervideoplayer/util/SwipeGestureListener.java:15-25 | The reactions to a stream's prefix do not depend on the samples that follow it. |
| GestureTrace.ReactionIsStep | app/src/main/java/de/shadow578/yetanothervideoplayer/util/SwipeGestureListener.java:15-25 | The reaction to sample i is one `onTouch` call on the fields the earlier samples left behind. |
| GestureTrace.FirstContactIsLastDown | app/src/main/java/de/shadow578/yetanothervideoplayer/util/SwipeGestureListener.java:78-84 | After any stream, the first contact point is the position of the latest touch-down in it (the independent definition `LastDownPoint`). If the stream has no touch-down, the first contact point is what it was before. |
| GestureTrace.EventsAnchoredAtLastDown | app/src/main/java/de/shadow578/yetanothervideoplayer/util/SwipeGestureListener.java:85-146 | Every fling in a stream starts at the latest touch-down before it, not at the swipe reference. Every swipe carries that same first contact. Every event ends at its own sample's position. |
| GestureTrace.ReferenceHeld | app/src/main/java/de/shadow578/yetanothervideoplayer/util/SwipeGestureListener.java:113-147 | After a swipe, the reference stays at that swipe's end and time while the samples that follow are not downs, fire nothing and stay within the decay time. |
| GestureTrace.SwipesChain | app/src/main/java/de/shadow578/yetanothervideoplayer/util/SwipeGestureListener.java:113-147 | Consecutive swipes chain: the next swipe starts exactly where the previous one ended, unless a touch-down or a decay came between them. |
| GestureSymmetry.StepFrameInvariant | app/src/main/java/de/shadow578/yetanothervideoplayer/util/SwipeGestureListener.java:85-146 | With exact arithmetic, one call commutes with translating every position and shifting every timestamp. The same hook fires with the same delta and return value, and every reported point is translated. |
| GestureSymmetry.RunFrameInvariant | app/src/main/java/de/shadow578/yetanothervideoplayer/util/SwipeGestureListener.java:61-154 | With exact arithmetic, a whole interaction moved across the screen and in time is classified exactly as before, reaction by reaction. |
| GestureSymmetry.StepTranspose | app/src/main/java/de/shadow578/yetanothervideoplayer/util/SwipeGestureListener.java:99-146 | When the deltas are not tied, exchanging the x and y axes of the input exchanges horizontal and vertical events and changes nothing else. |
| GestureSymmetry.TieGoesVertical | app/src/main/java/de/shadow578/yetanothervideoplayer/util/SwipeGestureListener.java:99-146 | On a tie an event fires in one orientation iff it fires in the other, and it is vertical in both. |
| GestureScenarios.TapIsClick | app/src/main/java/de/shadow578/yetanothervideoplayer/util/SwipeGestureListener.java:78-98 | Pressing and releasing in place fires nothing and returns false on release, for any positive fling threshold. |
| GestureScenarios.FlingAtThreshold | app/src/main/java/de/shadow578/yetanothervideoplayer/util/SwipeGestureListener.java:89-111 | A release exactly one threshold away is a fling with a negative delta for rightward motion. Slightly less is a click. |
| GestureScenarios.DiagonalSwipeIsVertical | app/src/main/java/de/shadow578/yetanothervideoplayer/util/SwipeGestureListener.java:125-142 | A move equally far on both axes is a vertical swipe. |
| GestureScenarios.IdleFingerDecays | app/src/main/java/de/shadow578/yetanothervideoplayer/util/SwipeGestureListener.java:116-146 | A move after more than the decay time resets the reference without a swipe, and the next move is measured from the new reference. A move after exactly the decay time does not decay and swipes. |
| GestureScenarios.SwipeThenFling | app/src/main/java/de/shadow578/yetanothervideoplayer/util/SwipeGestureListener.java:61-154 | Down at (0,0), move to (60,0), release at (200,0). This fires a horizontal swipe of -60 from (0,0), then a horizontal fling of -200 measured from the first contact (0,0). |

## Left out

- Android view plumbing is not modelled: `View`, `MotionEvent`, `Context` and `view.performClick()` (lines 62-65 and 96). The click is the `false` return value of a release.
- The screen size lookup through the input device's motion ranges (lines 71-73) is not modelled. The size arrives in each sample and is only copied into events.
- `pxToDp` and `dpToPx` (lines 175-191) are not modelled. They divide by a platform display density, so positions arrive already converted.
- Java `float` arithmetic is not modelled. Positions, deltas and thresholds are exact reals, so subtraction and `Math.abs` never round, and NaN does not arise.
- Wrap-around of Java `long` in `currentTimeMillis() - lastSwipePointMillis` is not modelled. Times are unbounded integers, and a wrap would need timestamps near 2^63.
- `System.currentTimeMillis()` is replaced by the sample's timestamp. On a move the source reads the clock twice, once for the decay test and once in `setLastSwipePoint`. The model uses one instant for both.
- The overridable hooks (lines 207-258) have empty bodies. They become the returned `Event`, not callbacks.
- SwipeGestureListener.Step: an up or a move before any touch-down is excluded by the precondition `Defined`. On an up the source dereferences a `null` first contact and throws. On a move, what happens depends on the default `lastSwipePointMillis` of 0 and on the clock. `Initial` holds Java's default field values, but nothing is claimed about those cases.
- Points are values. The source stores one `PointF` object in both fields on a touch-down (lines 81-82) and hands its own field objects to the hooks (lines 104, 109, 136 and 141). The model assumes a hook never mutates its arguments, since such a mutation would change the listener's fields.
