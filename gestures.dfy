/** The gesture classifier of the SDL host: get_button (lib/host/sdl/base_view.cpp:187-245), as a
    step function on the view_info fields it reads and writes. BaseView.Host.GetButton in host.dfy
    performs the same step in place. */
module Gestures {
  import opened Input

  /** Two presses at most this many milliseconds apart belong to one multi-click. */
  const CLICK_WINDOW_MS: Millis := 200

  /** The view_info fields get_button reads and writes. */
  datatype ClickState = ClickState(isDragging: bool, clickStart: Millis, clickCount: int)

  /** The fields as a new view_info holds them: a default-constructed time point is 0. */
  const INITIAL_CLICKS: ClickState := ClickState(false, 0, 0)

  /** The SDL event kinds get_button distinguishes; motion stands for every other type. */
  datatype ButtonEvent = ButtonDown | ButtonUp | Motion

  /** get_button's update of the fields. */
  function ButtonStep(st: ClickState, ev: ButtonEvent, now: Millis): ClickState {
    match ev
    case ButtonDown =>
      ClickState(true, now, if now - st.clickStart > CLICK_WINDOW_MS then 1 else st.clickCount + 1)
    case ButtonUp => st.(isDragging := false)
    case Motion => st
  }

  /** The down flag get_button reports: the drag flag as it was, overridden by a press or a release. */
  function ReportedDown(st: ClickState, ev: ButtonEvent): bool {
    match ev
    case ButtonDown => true
    case ButtonUp => false
    case Motion => st.isDragging
  }

  /** The event get_button returns; the count is the one after the update. */
  function ButtonReport(st: ClickState, ev: ButtonEvent, now: Millis, code: int, mods: set<Modifier>, pos: Point): MouseButton {
    MouseButton(ReportedDown(st, ev), ButtonStep(st, ev, now).clickCount, ButtonFor(code), mods, pos)
  }

  /** A press counts one after a long enough pause and one more otherwise, restarts the pause
      clock and starts a drag; a release ends the drag and leaves the count and the clock alone;
      any other event changes nothing and reports whether a drag is on. */
  lemma ButtonStepCases(st: ClickState, now: Millis)
    ensures ButtonStep(st, ButtonDown, now).clickCount == (if now - st.clickStart > 200 then 1 else st.clickCount + 1)
    ensures ButtonStep(st, ButtonDown, now).clickStart == now && ButtonStep(st, ButtonDown, now).isDragging
    ensures ReportedDown(st, ButtonDown) && !ReportedDown(st, ButtonUp)
    ensures ButtonStep(st, ButtonUp, now) == ClickState(false, st.clickStart, st.clickCount)
    ensures ButtonStep(st, Motion, now) == st && ReportedDown(st, Motion) == st.isDragging
  {
  }

  /** The fields after a run of presses at the given times. */
  function PressAll(st: ClickState, times: seq<Millis>): ClickState
    decreases |times|
  {
    if times == [] then st
    else ButtonStep(PressAll(st, times[..|times| - 1]), ButtonDown, times[|times| - 1])
  }

  /** The pause before the i-th press: since the previous press, or since the clock's start for the first. */
  function Gap(start: Millis, times: seq<Millis>, i: nat): int
    requires i < |times|
  {
    times[i] - (if i == 0 then start else times[i - 1])
  }

  /** The i-th press starts a new multi-click. */
  predicate StartsRun(start: Millis, times: seq<Millis>, i: nat)
    requires i < |times|
  {
    Gap(start, times, i) > CLICK_WINDOW_MS
  }

  lemma GapOfPrefix(start: Millis, times: seq<Millis>, j: nat)
    requires j < |times| - 1
    ensures Gap(start, times[..|times| - 1], j) == Gap(start, times, j)
  {
  }

  /** After a run of presses the count is the number of presses since the last one that started
      a new multi-click, that one included, and the clock holds the time of the last press. */
  lemma {:induction false} ClickCountSinceRunStart(st: ClickState, times: seq<Millis>, i: nat)
    requires i < |times| && StartsRun(st.clickStart, times, i)
    requires forall j :: i < j < |times| ==> !StartsRun(st.clickStart, times, j)
    ensures PressAll(st, times).clickCount == |times| - i
    ensures PressAll(st, times).clickStart == times[|times| - 1]
    decreases |times|
  {
    var init := times[..|times| - 1];
    if i < |times| - 1 {
      GapOfPrefix(st.clickStart, times, i);
      forall j | i < j < |init|
        ensures !StartsRun(st.clickStart, init, j)
      {
        assert !StartsRun(st.clickStart, times, j);
        GapOfPrefix(st.clickStart, times, j);
      }
      ClickCountSinceRunStart(st, init, i);
      assert !StartsRun(st.clickStart, times, |times| - 1);
    }
  }

  /** Without any long pause the count keeps growing from where it was. */
  lemma {:induction false} ClickCountWithoutPause(st: ClickState, times: seq<Millis>)
    requires forall j :: 0 <= j < |times| ==> !StartsRun(st.clickStart, times, j)
    ensures PressAll(st, times).clickCount == st.clickCount + |times|
    ensures times != [] ==> PressAll(st, times).clickStart == times[|times| - 1]
    decreases |times|
  {
    if times != [] {
      var init := times[..|times| - 1];
      forall j | 0 <= j < |init|
        ensures !StartsRun(st.clickStart, init, j)
      {
        assert !StartsRun(st.clickStart, times, j);
        GapOfPrefix(st.clickStart, times, j);
      }
      ClickCountWithoutPause(st, init);
      assert !StartsRun(st.clickStart, times, |times| - 1);
    }
  }

  /** Presses at 1000, 1050 and 1500 ms on a new window report counts 1, 2 and 1: the first press
      comes long after the zero start of the pause clock, the second within 200 ms of it, the
      third after a longer pause. */
  lemma ThreePressScenario()
    ensures PressAll(INITIAL_CLICKS, [1000]).clickCount == 1
    ensures PressAll(INITIAL_CLICKS, [1000, 1050]).clickCount == 2
    ensures PressAll(INITIAL_CLICKS, [1000, 1050, 1500]).clickCount == 1
  {
    assert [1000, 1050][..1] == [1000];
    assert [1000, 1050, 1500][..2] == [1000, 1050];
    assert [1000][..0] == [];
  }
}
