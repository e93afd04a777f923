/** The scroll acceleration of the SDL host: on_scroll (lib/host/sdl/base_view.cpp:88-119), as a
    step function on the view_info fields it reads and writes. BaseView.Host.OnScroll in host.dfy
    performs the same step in place. */
module Scroll {
  import opened Input

  /** Wheel events more than this many milliseconds apart restart the acceleration. */
  const SCROLL_WINDOW_MS: Millis := 250

  /** The factor the velocity grows by on each wheel event within the window. */
  const ACCELERATION: real := 1.1

  /** The view_info fields on_scroll reads and writes. */
  datatype ScrollState = ScrollState(scrollStart: Millis, velocity: real, scrollDir: Point)

  /** The fields as a new view_info holds them. */
  const INITIAL_SCROLL: ScrollState := ScrollState(0, 1.0, Point(0.0, 0.0))

  /** on_scroll's reset test: too long a pause, or a change on either axis between "positive" and
      "not positive". A zero delta counts as not positive. */
  predicate ResetsAcceleration(st: ScrollState, now: Millis, dir: Point) {
    || now - st.scrollStart > SCROLL_WINDOW_MS
    || (st.scrollDir.x > 0.0) != (dir.x > 0.0)
    || (st.scrollDir.y > 0.0) != (dir.y > 0.0)
  }

  /** on_scroll's update: the clock and the direction are always replaced; the velocity restarts
      at 1 or grows by the acceleration. */
  function ScrollStep(st: ScrollState, now: Millis, dir: Point): ScrollState {
    ScrollState(now, if ResetsAcceleration(st, now, dir) then 1.0 else st.velocity * ACCELERATION, dir)
  }

  /** The delta passed to the view: the raw delta scaled by the new velocity. */
  function ScrollDelta(st: ScrollState, now: Millis, dir: Point): Point {
    var v := ScrollStep(st, now, dir).velocity;
    Point(dir.x * v, dir.y * v)
  }

  /** One wheel event as the dispatcher hands it on: the time and the raw delta. */
  datatype Wheel = Wheel(now: Millis, dir: Point)

  /** The fields after a run of wheel events. */
  function ScrollAll(st: ScrollState, evs: seq<Wheel>): ScrollState
    decreases |evs|
  {
    if evs == [] then st
    else
      var last := evs[|evs| - 1];
      ScrollStep(ScrollAll(st, evs[..|evs| - 1]), last.now, last.dir)
  }

  /** The i-th event of a run restarts the acceleration. */
  predicate ResetAt(st: ScrollState, evs: seq<Wheel>, i: nat)
    requires i < |evs|
  {
    ResetsAcceleration(ScrollAll(st, evs[..i]), evs[i].now, evs[i].dir)
  }

  function Pow(r: real, n: nat): real {
    if n == 0 then 1.0 else r * Pow(r, n - 1)
  }

  /** The velocity never drops below 1 ... */
  lemma VelocityAtLeastOne(st: ScrollState, now: Millis, dir: Point)
    requires st.velocity >= 1.0
    ensures ScrollStep(st, now, dir).velocity >= 1.0
  {
  }

  /** ... and, since no cap exists, it is the acceleration raised to the number of events since
      the last restart. */
  lemma {:induction false} VelocitySinceReset(st: ScrollState, evs: seq<Wheel>, i: nat)
    requires i < |evs| && ResetAt(st, evs, i)
    requires forall j :: i < j < |evs| ==> !ResetAt(st, evs, j)
    ensures ScrollAll(st, evs).velocity == Pow(ACCELERATION, |evs| - 1 - i)
    decreases |evs|
  {
    var init := evs[..|evs| - 1];
    if i < |evs| - 1 {
      assert init[..i] == evs[..i];
      forall j | i < j < |init|
        ensures !ResetAt(st, init, j)
      {
        assert !ResetAt(st, evs, j);
        assert init[..j] == evs[..j];
      }
      VelocitySinceReset(st, init, i);
      assert !ResetAt(st, evs, |evs| - 1);
    } else {
      assert init == evs[..i];
    }
  }

  /** Without a restart the velocity grows by the acceleration on every event. */
  lemma {:induction false} VelocityWithoutReset(st: ScrollState, evs: seq<Wheel>)
    requires forall j :: 0 <= j < |evs| ==> !ResetAt(st, evs, j)
    ensures ScrollAll(st, evs).velocity == st.velocity * Pow(ACCELERATION, |evs|)
    decreases |evs|
  {
    if evs != [] {
      var init := evs[..|evs| - 1];
      assert init == evs[..|evs| - 1];
      forall j | 0 <= j < |init|
        ensures !ResetAt(st, init, j)
      {
        assert !ResetAt(st, evs, j);
        assert init[..j] == evs[..j];
      }
      VelocityWithoutReset(st, init);
      assert !ResetAt(st, evs, |evs| - 1);
    }
  }

  /** The delta points the same way as the raw delta on each axis and is at least as long. */
  lemma DeltaFollowsDirection(st: ScrollState, now: Millis, dir: Point)
    requires st.velocity >= 1.0
    ensures var d := ScrollDelta(st, now, dir);
      (d.y > 0.0 <==> dir.y > 0.0) && (d.y < 0.0 <==> dir.y < 0.0)
      && (dir.y >= 0.0 ==> d.y >= dir.y) && (dir.y <= 0.0 ==> d.y <= dir.y)
      && (d.x > 0.0 <==> dir.x > 0.0) && (d.x < 0.0 <==> dir.x < 0.0)
  {
    var v := ScrollStep(st, now, dir).velocity;
    assert v >= 1.0;
  }

  /** The dispatcher always passes a zero horizontal delta, so the horizontal test never fires
      and the fields keep a zero horizontal direction. */
  lemma VerticalOnly(st: ScrollState, now: Millis, y: real)
    requires st.scrollDir.x == 0.0
    ensures ResetsAcceleration(st, now, Point(0.0, y))
      <==> now - st.scrollStart > SCROLL_WINDOW_MS || (st.scrollDir.y > 0.0) != (y > 0.0)
    ensures ScrollStep(st, now, Point(0.0, y)).scrollDir.x == 0.0
    ensures ScrollDelta(st, now, Point(0.0, y)).x == 0.0
  {
  }

  /** Going from scrolling down to a zero delta is not a change of direction. */
  lemma ZeroIsNotPositive(st: ScrollState, now: Millis)
    requires st.scrollDir == Point(0.0, -1.0) && now - st.scrollStart <= SCROLL_WINDOW_MS
    ensures !ResetsAcceleration(st, now, Point(0.0, 0.0))
  {
  }

  /** Wheel deltas (0, 1), (0, 1) and (0, -1) at 1000, 1050 and 1060 ms on a new window come out
      as (0, 1), (0, 1.1) and (0, -1): the first event comes after a long pause, the second
      accelerates, and the flip restarts the acceleration. */
  lemma WheelScenario()
    ensures ScrollDelta(INITIAL_SCROLL, 1000, Point(0.0, 1.0)) == Point(0.0, 1.0)
    ensures ScrollDelta(ScrollStep(INITIAL_SCROLL, 1000, Point(0.0, 1.0)), 1050, Point(0.0, 1.0)) == Point(0.0, 1.1)
    ensures ScrollDelta(ScrollStep(ScrollStep(INITIAL_SCROLL, 1000, Point(0.0, 1.0)), 1050, Point(0.0, 1.0)), 1060, Point(0.0, -1.0))
      == Point(0.0, -1.0)
  {
  }
}
