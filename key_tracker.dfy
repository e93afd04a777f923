/** The key-state tracker of the SDL host: handle_key and on_key
    (lib/host/sdl/base_view.cpp:247-293), as functions on the per-window key map. The window's
    object that holds the map and calls these steps in place is BaseView.Host in host.dfy. */
module KeyTracker {
  import opened Options
  import opened Keys
  import opened Input

  /** view_info::key_map: the last action recorded for each key. */
  type KeyMap = map<KeyCode, KeyAction>

  /** keys[key] through std::map's operator[]: a key never recorded reads as the value-initialised
      action, which is release. */
  function Stored(keys: KeyMap, key: KeyCode): KeyAction {
    if key in keys then keys[key] else Release
  }

  /** handle_key's early exit: a release of a key whose recorded action is release. */
  predicate Suppressed(keys: KeyMap, k: KeyInfo) {
    k.action == Release && Stored(keys, k.key) == Release
  }

  /** The event handle_key passes to the view's key handler, or None when it returns false
      without calling it. A press of a key recorded as pressed goes out as a repeat. */
  function Delivered(keys: KeyMap, k: KeyInfo): Option<KeyInfo> {
    if Suppressed(keys, k) then None
    else if k.action == Press && Stored(keys, k.key) == Press then Some(k.(action := Repeat))
    else Some(k)
  }

  /** handle_key's map after the call. On the early exit the operator[] read has inserted the
      default release for a key never seen; otherwise the event's own action is written. */
  function Recorded(keys: KeyMap, k: KeyInfo): KeyMap {
    if Suppressed(keys, k) then (if k.key in keys then keys else keys[k.key := Release])
    else keys[k.key := k.action]
  }

  /** The action of an SDL key event as on_key computes it: key-up is a release, anything else a press. */
  function RawAction(up: bool): KeyAction {
    if up then Release else Press
  }

  /** The handle_key calls on_key makes, in order, for a translated key and its raw action. */
  function KeyRequests(key: KeyCode, action: KeyAction, mods: set<Modifier>): seq<KeyInfo> {
    if key == Unknown then []
    else if action == Release && (key == LeftShift || key == RightShift) then
      [KeyInfo(LeftShift, Release, mods), KeyInfo(RightShift, Release, mods)]
    else if key == PrintScreen then
      [KeyInfo(PrintScreen, Press, mods), KeyInfo(PrintScreen, Release, mods)]
    else [KeyInfo(key, action, mods)]
  }

  /** The map after a run of handle_key calls. */
  function RecordedAll(keys: KeyMap, reqs: seq<KeyInfo>): KeyMap
    decreases |reqs|
  {
    if reqs == [] then keys else RecordedAll(Recorded(keys, reqs[0]), reqs[1..])
  }

  /** The events a run of handle_key calls passes to the view, in order. */
  function DeliveredAll(keys: KeyMap, reqs: seq<KeyInfo>): seq<KeyInfo>
    decreases |reqs|
  {
    if reqs == [] then []
    else
      (match Delivered(keys, reqs[0]) case None => [] case Some(d) => [d])
      + DeliveredAll(Recorded(keys, reqs[0]), reqs[1..])
  }

  /** The OR of the view's answers to the delivered events. */
  function AnyConsumed(answer: KeyInfo -> bool, delivered: seq<KeyInfo>): bool {
    exists i :: 0 <= i < |delivered| && answer(delivered[i])
  }

  /** One SDL key event as on_key sees it: the scancode, whether it is a key-up, and the modifiers. */
  datatype KeyEvent = KeyEvent(scancode: Scancode, up: bool, mods: set<Modifier>)

  function EventRequests(e: KeyEvent): seq<KeyInfo> {
    KeyRequests(TranslateKey(e.scancode), RawAction(e.up), e.mods)
  }

  /** The map after on_key has handled each event of a run in turn. */
  function OnKeyAll(keys: KeyMap, events: seq<KeyEvent>): KeyMap
    decreases |events|
  {
    if events == [] then keys else OnKeyAll(RecordedAll(keys, EventRequests(events[0])), events[1..])
  }

  /** No map entry holds a repeat. */
  predicate RawOnly(keys: KeyMap) {
    forall key :: key in keys ==> keys[key] != Repeat
  }

  // ---------------------------------------------------------------------------------------------
  // handle_key

  /** A release of a key already recorded as released reaches no handler, and every key still
      reads as before. */
  lemma DuplicateReleaseSuppressed(keys: KeyMap, k: KeyInfo, other: KeyCode)
    requires k.action == Release && Stored(keys, k.key) == Release
    ensures Delivered(keys, k) == None
    ensures Stored(Recorded(keys, k), other) == Stored(keys, other)
  {
  }

  /** A press of a key recorded as pressed goes out as a repeat with the same key and modifiers. */
  lemma PressWhilePressedRepeats(keys: KeyMap, k: KeyInfo)
    requires k.action == Press && Stored(keys, k.key) == Press
    ensures Delivered(keys, k) == Some(KeyInfo(k.key, Repeat, k.mods))
  {
  }

  /** Whatever the path, the map afterwards reads the event's own action for its key and is
      unchanged for every other key; in particular a repeat is written only if the caller passed one. */
  lemma RecordedReadsAction(keys: KeyMap, k: KeyInfo, other: KeyCode)
    ensures Stored(Recorded(keys, k), k.key) == k.action
    ensures other != k.key ==> Stored(Recorded(keys, k), other) == Stored(keys, other)
    ensures k.action != Repeat && RawOnly(keys) ==> RawOnly(Recorded(keys, k))
  {
  }

  /** Every event that is not suppressed reaches the view with its key and modifiers unchanged. */
  lemma DeliveredKeepsKeyAndMods(keys: KeyMap, k: KeyInfo)
    ensures Delivered(keys, k).Some? <==> !Suppressed(keys, k)
    ensures Delivered(keys, k).Some? ==>
      Delivered(keys, k).value.key == k.key && Delivered(keys, k).value.mods == k.mods
  {
  }

  // ---------------------------------------------------------------------------------------------
  // on_key

  /** An unknown key makes no call; a Shift release releases both Shift keys, left first; Print
      Screen, up or down, is a press then a release; every other key makes exactly one call with
      its own action. */
  lemma KeyRequestsCases(key: KeyCode, action: KeyAction, mods: set<Modifier>)
    ensures key == Unknown ==> KeyRequests(key, action, mods) == []
    ensures key != Unknown && action == Release && (key == LeftShift || key == RightShift) ==>
      KeyRequests(key, action, mods) == [KeyInfo(LeftShift, Release, mods), KeyInfo(RightShift, Release, mods)]
    ensures key == PrintScreen ==>
      KeyRequests(key, action, mods) == [KeyInfo(PrintScreen, Press, mods), KeyInfo(PrintScreen, Release, mods)]
    ensures key != Unknown && key != PrintScreen && !(action == Release && (key == LeftShift || key == RightShift)) ==>
      KeyRequests(key, action, mods) == [KeyInfo(key, action, mods)]
  {
  }

  /** A run of calls with raw actions never writes a repeat into the map. */
  lemma {:induction false} RecordedAllRawOnly(keys: KeyMap, reqs: seq<KeyInfo>)
    requires RawOnly(keys)
    requires forall i :: 0 <= i < |reqs| ==> reqs[i].action != Repeat
    ensures RawOnly(RecordedAll(keys, reqs))
    decreases |reqs|
  {
    if reqs != [] {
      RecordedReadsAction(keys, reqs[0], reqs[0].key);
      RecordedAllRawOnly(Recorded(keys, reqs[0]), reqs[1..]);
    }
  }

  /** on_key only ever passes a press or a release to handle_key ... */
  lemma KeyRequestsRaw(key: KeyCode, up: bool, mods: set<Modifier>)
    ensures forall i :: 0 <= i < |KeyRequests(key, RawAction(up), mods)| ==>
      KeyRequests(key, RawAction(up), mods)[i].action != Repeat
  {
  }

  /** ... so, starting from an empty map, the map never holds a repeat. */
  lemma {:induction false} OnKeyAllRawOnly(keys: KeyMap, events: seq<KeyEvent>)
    requires RawOnly(keys)
    ensures RawOnly(OnKeyAll(keys, events))
    decreases |events|
  {
    if events != [] {
      var e := events[0];
      KeyRequestsRaw(TranslateKey(e.scancode), e.up, e.mods);
      RecordedAllRawOnly(keys, EventRequests(e));
      OnKeyAllRawOnly(RecordedAll(keys, EventRequests(e)), events[1..]);
    }
  }

  /** The action recorded for a key after a run of calls is the last one requested for it, or
      what was recorded before if none was. */
  function LastAction(keys: KeyMap, reqs: seq<KeyInfo>, key: KeyCode): KeyAction
    decreases |reqs|
  {
    if reqs == [] then Stored(keys, key)
    else if reqs[|reqs| - 1].key == key then reqs[|reqs| - 1].action
    else LastAction(keys, reqs[..|reqs| - 1], key)
  }

  lemma {:induction false} RecordedAllSnoc(keys: KeyMap, reqs: seq<KeyInfo>, k: KeyInfo)
    ensures RecordedAll(keys, reqs + [k]) == Recorded(RecordedAll(keys, reqs), k)
    decreases |reqs|
  {
    if reqs == [] {
      assert [] + [k] == [k];
    } else {
      assert (reqs + [k])[0] == reqs[0];
      assert (reqs + [k])[1..] == reqs[1..] + [k];
      RecordedAllSnoc(Recorded(keys, reqs[0]), reqs[1..], k);
    }
  }

  lemma {:induction false} RecordedAllLastAction(keys: KeyMap, reqs: seq<KeyInfo>, key: KeyCode)
    ensures Stored(RecordedAll(keys, reqs), key) == LastAction(keys, reqs, key)
    decreases |reqs|
  {
    if reqs != [] {
      var init := reqs[..|reqs| - 1];
      var last := reqs[|reqs| - 1];
      assert reqs == init + [last];
      RecordedAllSnoc(keys, init, last);
      RecordedReadsAction(RecordedAll(keys, init), last, key);
      RecordedAllLastAction(keys, init, key);
    }
  }

  /** Print Screen is recorded as released after every on_key call: its only requests end in a
      release, and no other key's request touches it. */
  lemma PrintScreenReleasedAfterEvent(keys: KeyMap, key: KeyCode, action: KeyAction, mods: set<Modifier>)
    requires Stored(keys, PrintScreen) == Release
    ensures Stored(RecordedAll(keys, KeyRequests(key, action, mods)), PrintScreen) == Release
  {
    var reqs := KeyRequests(key, action, mods);
    RecordedAllLastAction(keys, reqs, PrintScreen);
    if |reqs| == 1 {
      assert reqs[..0] == [];
    } else if |reqs| == 2 && reqs[1].key != PrintScreen {
      assert reqs[..1][..0] == [];
      assert LastAction(keys, reqs[..1], PrintScreen) == Stored(keys, PrintScreen);
    }
  }

  /** Hence Print Screen always reads as released between events ... */
  lemma {:induction false} PrintScreenAlwaysReleased(keys: KeyMap, events: seq<KeyEvent>)
    requires Stored(keys, PrintScreen) == Release
    ensures Stored(OnKeyAll(keys, events), PrintScreen) == Release
    decreases |events|
  {
    if events != [] {
      var e := events[0];
      PrintScreenReleasedAfterEvent(keys, TranslateKey(e.scancode), RawAction(e.up), e.mods);
      PrintScreenAlwaysReleased(RecordedAll(keys, EventRequests(events[0])), events[1..]);
    }
  }

  /** ... and every Print Screen event reaches the view as exactly a press and then a release. */
  lemma PrintScreenDeliversPressThenRelease(keys: KeyMap, mods: set<Modifier>, up: bool)
    requires Stored(keys, PrintScreen) == Release
    ensures DeliveredAll(keys, KeyRequests(PrintScreen, RawAction(up), mods))
      == [KeyInfo(PrintScreen, Press, mods), KeyInfo(PrintScreen, Release, mods)]
  {
    var reqs := KeyRequests(PrintScreen, RawAction(up), mods);
    var k1 := Recorded(keys, reqs[0]);
    assert Stored(k1, PrintScreen) == Press;
    assert DeliveredAll(k1, reqs[1..]) == [KeyInfo(PrintScreen, Release, mods)];
  }

  /** A Shift release delivers a release for each Shift key that is recorded as pressed, and
      nothing for the other one: the pair of calls is not always a pair of events. */
  lemma ShiftReleaseDeliveries(keys: KeyMap, shift: KeyCode, mods: set<Modifier>)
    requires shift == LeftShift || shift == RightShift
    ensures DeliveredAll(keys, KeyRequests(shift, Release, mods))
      == (if Stored(keys, LeftShift) == Release then [] else [KeyInfo(LeftShift, Release, mods)])
       + (if Stored(keys, RightShift) == Release then [] else [KeyInfo(RightShift, Release, mods)])
  {
    var reqs := KeyRequests(shift, Release, mods);
    var k1 := Recorded(keys, reqs[0]);
    assert Stored(k1, RightShift) == Stored(keys, RightShift);
    assert reqs[1..][1..] == [];
    assert DeliveredAll(k1, reqs[1..])
      == (if Stored(keys, RightShift) == Release then [] else [KeyInfo(RightShift, Release, mods)]);
    assert DeliveredAll(keys, reqs)
      == (match Delivered(keys, reqs[0]) case None => [] case Some(d) => [d]) + DeliveredAll(k1, reqs[1..]);
  }

  /** Pressing and releasing only the left Shift key, from a fresh map, gives the view two events,
      not three: the synthesised right-Shift release is suppressed. */
  lemma LeftShiftTapScenario(mods: set<Modifier>)
    ensures DeliveredAll(map[], KeyRequests(LeftShift, Press, mods)) == [KeyInfo(LeftShift, Press, mods)]
    ensures DeliveredAll(RecordedAll(map[], KeyRequests(LeftShift, Press, mods)), KeyRequests(LeftShift, Release, mods))
      == [KeyInfo(LeftShift, Release, mods)]
  {
    var k1 := RecordedAll(map[], KeyRequests(LeftShift, Press, mods));
    assert k1 == map[LeftShift := Press];
    ShiftReleaseDeliveries(k1, LeftShift, mods);
  }

  /** on_key's result is the OR of the view's answers: true exactly when some delivered event is consumed. */
  lemma AnyConsumedAppend(answer: KeyInfo -> bool, a: seq<KeyInfo>, b: seq<KeyInfo>)
    ensures AnyConsumed(answer, a + b) == (AnyConsumed(answer, a) || AnyConsumed(answer, b))
  {
    if AnyConsumed(answer, a + b) {
      var i :| 0 <= i < |a + b| && answer((a + b)[i]);
      if i >= |a| {
        assert b[i - |a|] == (a + b)[i];
      }
    }
    if AnyConsumed(answer, a) {
      var i :| 0 <= i < |a| && answer(a[i]);
      assert (a + b)[i] == a[i];
    }
    if AnyConsumed(answer, b) {
      var i :| 0 <= i < |b| && answer(b[i]);
      assert (a + b)[|a| + i] == b[i];
    }
  }
}
