/** The dispatcher of the SDL host (lib/host/sdl/base_view.cpp): which events name a window
    (GetWindowFromEvent), the per-window record view_info, the handle table ViewInfoMaps, and what
    DoEvent does to one window, as pure functions. The Host class in host.dfy runs the same steps
    in place and is proved against these functions. */
module Dispatch {
  import opened Options
  import opened Keys
  import opened Input
  import opened KeyTracker
  import opened Gestures
  import opened Scroll
  import opened Paint

  /** An SDL_Window pointer; NULL is the null pointer. */
  type Handle = nat
  const NULL: Handle := 0

  /** Which base_view a view_info points back to. */
  type ViewId = nat

  // ---------------------------------------------------------------------------------------------
  // Events

  /** The SDL window event types, the seventeen GetWindowFromEvent lists and every other one. */
  datatype WindowEventKind =
    | Shown | Hidden | Exposed | Moved | Resized | PixelSizeChanged | Minimized | Maximized
    | Restored | MouseEnter | MouseLeave | FocusGained | FocusLost | CloseRequested | HitTest
    | IccProfileChanged | DisplayChanged
    | OtherWindowEvent

  /** The groups of event types GetWindowFromEvent lists without a window id, and every type it
      does not list. */
  datatype OtherCategory =
    | Joystick | Gamepad | Finger | ClipboardUpdate | Drop | AudioDevice | Sensor | RenderReset
    | Unlisted

  datatype EventType =
    | WindowEvent(window: WindowEventKind)
    | KeyDown | KeyUp | TextEditing | TextInput | KeymapChanged | TextEditingExt
    | MouseMotion | MouseButtonDown | MouseButtonUp | MouseWheel
    | OtherEvent(category: OtherCategory)

  /** An SDL_Event: its type and the union members the host reads. windowId is what the window id
      slot holds, scancode the key event's scancode, button the button event's button byte, pos
      the pointer position of a motion, button or wheel event, wheelY the wheel's vertical delta. */
  datatype Event = Event(kind: EventType, windowId: nat, scancode: Scancode, button: int, pos: Point, wheelY: real)

  /** GetWindowFromEvent's classification: the event types whose window id it reads. */
  predicate CarriesWindowId(t: EventType) {
    match t
    case WindowEvent(k) => k != OtherWindowEvent
    case OtherEvent(_) => false
    case _ => true
  }

  /** GetWindowFromEvent: the window named by a carried, non-zero id, as SDL_GetWindowFromID
      (a parameter) resolves it; NULL otherwise. */
  function WindowOf(ev: Event, windowFromId: nat -> Handle): (w: Handle)
    ensures !CarriesWindowId(ev.kind) || ev.windowId == 0 ==> w == NULL
    ensures CarriesWindowId(ev.kind) && ev.windowId != 0 ==> w == windowFromId(ev.windowId)
  {
    var windowId := if CarriesWindowId(ev.kind) then ev.windowId else 0;
    if windowId != 0 then windowFromId(windowId) else NULL
  }

  // ---------------------------------------------------------------------------------------------
  // view_info

  /** view_info without the pointer identity: the view it serves and the fields the handlers read
      and write. w and h are the size recorded for the grow check. */
  datatype ViewState = ViewState(
    view: ViewId,
    isDragging: bool,
    w: int, h: int,
    mouseInWindow: bool,
    clickStart: Millis, clickCount: int,
    scrollStart: Millis, velocity: real, scrollDir: Point,
    keys: KeyMap,
    resources: Resources)

  /** `new view_info{_this}`: every field at its default member initialiser. */
  function NewViewState(view: ViewId): (st: ViewState)
    ensures st.view == view && st.keys == map[] && st.resources == NO_RESOURCES
    ensures Clicks(st) == INITIAL_CLICKS && Scrolls(st) == INITIAL_SCROLL
    ensures st.w == 0 && st.h == 0 && !st.mouseInWindow
  {
    ViewState(view, false, 0, 0, false, 0, 0, 0, 1.0, Point(0.0, 0.0), map[], NO_RESOURCES)
  }

  /** The fields get_button works on ... */
  function Clicks(st: ViewState): ClickState {
    ClickState(st.isDragging, st.clickStart, st.clickCount)
  }

  function WithClicks(st: ViewState, c: ClickState): ViewState {
    st.(isDragging := c.isDragging, clickStart := c.clickStart, clickCount := c.clickCount)
  }

  /** ... and the fields on_scroll works on. */
  function Scrolls(st: ViewState): ScrollState {
    ScrollState(st.scrollStart, st.velocity, st.scrollDir)
  }

  function WithScrolls(st: ViewState, s: ScrollState): ViewState {
    st.(scrollStart := s.scrollStart, velocity := s.velocity, scrollDir := s.scrollDir)
  }

  /** What holds of every view_info in the table: the recorded size is never written and stays 0,
      the key map holds only raw presses and releases, Print Screen reads as released, and the
      velocity is at least 1. */
  predicate Sound(st: ViewState) {
    st.w == 0 && st.h == 0 && RawOnly(st.keys) && Stored(st.keys, PrintScreen) == Release && st.velocity >= 1.0
  }

  // ---------------------------------------------------------------------------------------------
  // Calls into the view, and what the host supplies

  /** The base_view callbacks the host calls. TextCall stands for on_text's calls to `text`. */
  datatype ViewCall =
    | KeyCall(k: KeyInfo)
    | TextCall
    | ClickCall(b: MouseButton)
    | DragCall(b: MouseButton)
    | CursorCall(pos: Point, tracking: CursorTracking)
    | ScrollCall(delta: Point, pos: Point)
    | DrawCall(context: Res, width: int, height: int)

  /** One callback call on one view. */
  datatype Call = Call(view: ViewId, what: ViewCall)

  function KeyCalls(v: ViewId, ds: seq<KeyInfo>): seq<Call> {
    seq(|ds|, i requires 0 <= i < |ds| => Call(v, KeyCall(ds[i])))
  }

  /** What SDL reports while one event is handled: the steady clock, the keyboard state, the mouse
      position, the window size, the texture's pitch, the window surface's pixels, and
      SDL_GetWindowFromID. */
  datatype HostEnv = HostEnv(
    now: Millis,
    keyboard: KeyboardState,
    mouse: Point,
    width: int, height: int,
    pitch: int,
    surface: seq<Byte>,
    windowFromId: nat -> Handle)

  /** The state of one window after a step, with the callback calls and graphics calls made. */
  datatype Outcome = Outcome(st: ViewState, calls: seq<Call>, gfx: seq<GfxOp>)

  // ---------------------------------------------------------------------------------------------
  // The handlers

  /** Each paint takes four ids: for the renderer, the texture, the surface and the context it
      may create. */
  const PAINT_IDS: nat := 4

  /** on_paint, its created resources taking ids from id on. */
  function PaintOutcome(st: ViewState, env: HostEnv, id: nat): Outcome {
    var res := PaintResources(st.resources, env.width, env.height, st.w, st.h, id);
    Outcome(st.(resources := res), [Call(st.view, DrawCall(res.context, env.width, env.height))],
            PrepareOps(st.resources, env.width, env.height, st.w, st.h, id) + PresentOps(res))
  }

  /** on_key: the handle_key calls for the translated key, the map they leave and the events
      they deliver. */
  function KeyOutcome(st: ViewState, key: KeyCode, up: bool, mods: set<Modifier>): Outcome {
    var reqs := KeyRequests(key, RawAction(up), mods);
    Outcome(st.(keys := RecordedAll(st.keys, reqs)), KeyCalls(st.view, DeliveredAll(st.keys, reqs)), [])
  }

  /** get_button for an event of the given kind, its report passed to drag or click. */
  function ButtonOutcome(st: ViewState, ev: ButtonEvent, now: Millis, code: int, ks: KeyboardState, pos: Point, drag: bool): Outcome {
    var b := ButtonReport(Clicks(st), ev, now, code, GetMods(ks), pos);
    Outcome(WithClicks(st, ButtonStep(Clicks(st), ev, now)), [Call(st.view, if drag then DragCall(b) else ClickCall(b))], [])
  }

  function CursorOutcome(st: ViewState, pos: Point, tracking: CursorTracking, inWindow: bool): Outcome {
    Outcome(st.(mouseInWindow := inWindow), [Call(st.view, CursorCall(pos, tracking))], [])
  }

  /** on_scroll with the event's wheel delta, the horizontal part always 0. */
  function ScrollOutcome(st: ViewState, now: Millis, y: real, pos: Point): Outcome {
    var dir := Point(0.0, y);
    Outcome(WithScrolls(st, ScrollStep(Scrolls(st), now, dir)), [Call(st.view, ScrollCall(ScrollDelta(Scrolls(st), now, dir), pos))], [])
  }

  /** The handler DoEvent's switch runs for an event, before the final paint. */
  function HandlerOutcome(st: ViewState, ev: Event, env: HostEnv, id: nat): Outcome {
    match ev.kind
    case WindowEvent(k) =>
      if k == Exposed then PaintOutcome(st, env, id)
      else if k == MouseEnter then CursorOutcome(st, env.mouse, Entering, true)
      else if k == MouseLeave then CursorOutcome(st, env.mouse, Entering, false)
      else Outcome(st, [], [])
    case KeyDown => KeyOutcome(st, TranslateKey(ev.scancode), false, GetMods(env.keyboard))
    case KeyUp => KeyOutcome(st, TranslateKey(ev.scancode), true, GetMods(env.keyboard))
    case TextInput => Outcome(st, [Call(st.view, TextCall)], [])
    case MouseMotion =>
      if st.isDragging then ButtonOutcome(st, Motion, env.now, ev.button, env.keyboard, ev.pos, true)
      else if !st.mouseInWindow then CursorOutcome(st, ev.pos, Entering, true)
      else CursorOutcome(st, ev.pos, Hovering, true)
    case MouseButtonDown => ButtonOutcome(st, ButtonDown, env.now, ev.button, env.keyboard, ev.pos, false)
    case MouseButtonUp => ButtonOutcome(st, ButtonUp, env.now, ev.button, env.keyboard, ev.pos, false)
    case MouseWheel => ScrollOutcome(st, env.now, ev.wheelY, ev.pos)
    case _ => Outcome(st, [], [])
  }

  /** The ids the handler's own paint takes: an exposed window is painted once in the switch. */
  function HandlerIds(ev: Event): nat {
    if ev.kind == WindowEvent(Exposed) then PAINT_IDS else 0
  }

  /** The ids the paints of one routed event take. */
  function EventIds(ev: Event): nat {
    HandlerIds(ev) + PAINT_IDS
  }

  /** One routed event, ids from id on: the handler, then the final paint. */
  function EventOutcome(st: ViewState, ev: Event, env: HostEnv, id: nat): Outcome {
    var o := HandlerOutcome(st, ev, env, id);
    var p := PaintOutcome(o.st, env, id + HandlerIds(ev));
    Outcome(p.st, o.calls + p.calls, o.gfx + p.gfx)
  }

  /** A routed event's outcome in terms of its two parts, the handler and the final paint. */
  lemma EventOutcomeParts(st: ViewState, ev: Event, env: HostEnv, id: nat, o: Outcome, q: Outcome)
    requires o == HandlerOutcome(st, ev, env, id) && q == PaintOutcome(o.st, env, id + HandlerIds(ev))
    ensures EventOutcome(st, ev, env, id) == Outcome(q.st, o.calls + q.calls, o.gfx + q.gfx)
  {
  }

  /** An exposure is two paints in a row, the second taking the ids after the first's. */
  lemma ExposedOutcomeParts(st: ViewState, ev: Event, env: HostEnv, id: nat)
    requires ev.kind == WindowEvent(Exposed)
    ensures var q1 := PaintOutcome(st, env, id); var q2 := PaintOutcome(q1.st, env, id + PAINT_IDS);
      EventOutcome(st, ev, env, id) == Outcome(q2.st, q1.calls + q2.calls, q1.gfx + q2.gfx)
      && EventIds(ev) == PAINT_IDS + PAINT_IDS
  {
  }

  // ---------------------------------------------------------------------------------------------
  // ViewInfoMaps

  /** The handle table; an entry may be null, put there by operator[]. */
  type Table = map<Handle, Option<ViewState>>

  /** get_view_info: find, without inserting; null for a missing handle or a null entry. */
  function Lookup(t: Table, k: Handle): (r: Option<ViewState>)
    ensures r.Some? <==> k in t && t[k].Some?
    ensures r.Some? ==> r == t[k]
  {
    if k in t then t[k] else None
  }

  /** The table after an operator[] read: a missing handle gets a null entry. */
  function TableIndex(t: Table, k: Handle): (r: Table)
    ensures k in r && Lookup(r, k) == Lookup(t, k)
    ensures forall k2 :: k2 != k ==> (k2 in r <==> k2 in t) && Lookup(r, k2) == Lookup(t, k2)
  {
    if k in t then t else t[k := None]
  }

  /** unordered_map::insert: adds the entry only when the handle has none, null or not. */
  function TableInsert(t: Table, k: Handle, st: ViewState): (r: Table)
    ensures k in t ==> r == t
    ensures k !in t ==> Lookup(r, k) == Some(st)
    ensures forall k2 :: k2 != k ==> (k2 in r <==> k2 in t) && Lookup(r, k2) == Lookup(t, k2)
  {
    if k in t then t else t[k := Some(st)]
  }

  /** unordered_map::erase. */
  function TableErase(t: Table, k: Handle): (r: Table)
    ensures k !in r
    ensures forall k2 :: k2 != k ==> (k2 in r <==> k2 in t) && Lookup(r, k2) == Lookup(t, k2)
  {
    t - {k}
  }

  /** Every view_info in the table is sound. */
  predicate TableSound(t: Table) {
    forall k :: k in t && t[k].Some? ==> Sound(t[k].value)
  }

  /** Every resource any view_info in the table holds is null or has an id below n. */
  predicate TableIdsBelow(t: Table, n: nat) {
    forall k :: k in t && t[k].Some? ==> IdsBelow(t[k].value.resources, n)
  }

  /** DoEvent on a whole table, ids from id on: the table after it, the calls and graphics calls
      made, the result (None where the function runs off its end without a return), whether the
      texture memory was painted, and the first id not taken. */
  datatype Dispatched = Dispatched(table: Table, calls: seq<Call>, gfx: seq<GfxOp>, result: Option<bool>, painted: bool, nextId: nat)

  function DoEventOutcome(t: Table, ev: Event, env: HostEnv, id: nat): Dispatched {
    var w := WindowOf(ev, env.windowFromId);
    if w == NULL then Dispatched(t, [], [], None, false, id)
    else
      match Lookup(t, w)
      case None => Dispatched(TableIndex(t, w), [], [], None, false, id)
      case Some(st) =>
        var o := EventOutcome(st, ev, env, id);
        Dispatched(t[w := Some(o.st)], o.calls, o.gfx, Some(false), true, id + EventIds(ev))
  }

  // ---------------------------------------------------------------------------------------------
  // Properties of the dispatcher

  /** An event of a type without a window id, or with a zero id, is never routed: DoEvent leaves
      the table alone and returns nothing. */
  lemma UncarriedNeverRouted(t: Table, ev: Event, env: HostEnv, id: nat)
    requires !CarriesWindowId(ev.kind) || ev.windowId == 0
    ensures DoEventOutcome(t, ev, env, id) == Dispatched(t, [], [], None, false, id)
  {
  }

  /** DoEvent returns exactly when the window is registered with a non-null entry, and then it
      returns false; otherwise it makes no call and changes nothing but a null entry. */
  lemma ResultIffRegistered(t: Table, ev: Event, env: HostEnv, id: nat)
    ensures var d := DoEventOutcome(t, ev, env, id); var w := WindowOf(ev, env.windowFromId);
      && (d.result.Some? <==> w != NULL && Lookup(t, w).Some?)
      && d.result != Some(true)
      && (d.result.None? ==>
            d.calls == [] && d.gfx == [] && !d.painted && (d.table == t || d.table == TableIndex(t, w)))
  {
  }

  /** A routed event changes only its own window's entry. */
  lemma OtherWindowsUntouched(t: Table, ev: Event, env: HostEnv, id: nat, k: Handle)
    requires k != WindowOf(ev, env.windowFromId)
    ensures var d := DoEventOutcome(t, ev, env, id);
      (k in d.table <==> k in t) && Lookup(d.table, k) == Lookup(t, k)
  {
  }

  /** Every routed event ends with a paint: the last call is a draw of the whole window by the
      window's own view, and the graphics calls end with the present. */
  lemma AlwaysPaintsLast(st: ViewState, ev: Event, env: HostEnv, id: nat)
    ensures var o := EventOutcome(st, ev, env, id);
      && |o.calls| >= 1
      && o.calls[|o.calls| - 1].view == st.view
      && o.calls[|o.calls| - 1].what.DrawCall?
      && o.calls[|o.calls| - 1].what.width == env.width && o.calls[|o.calls| - 1].what.height == env.height
      && |o.gfx| >= 1 && o.gfx[|o.gfx| - 1].RenderPresent?
  {
  }

  /** Exposure paints twice and makes no other call. */
  lemma ExposedPaintsTwice(st: ViewState, ev: Event, env: HostEnv, id: nat)
    requires ev.kind == WindowEvent(Exposed)
    ensures var o := EventOutcome(st, ev, env, id);
      |o.calls| == 2 && o.calls[0].what.DrawCall? && o.calls[1].what.DrawCall?
  {
  }

  /** Window enter and window leave both report Entering at the mouse position; enter sets the
      in-window flag, leave clears it. */
  lemma EnterAndLeaveReportEntering(st: ViewState, ev: Event, env: HostEnv, id: nat)
    requires ev.kind == WindowEvent(MouseEnter) || ev.kind == WindowEvent(MouseLeave)
    ensures var o := HandlerOutcome(st, ev, env, id);
      o.calls == [Call(st.view, CursorCall(env.mouse, Entering))]
      && o.st == st.(mouseInWindow := ev.kind == WindowEvent(MouseEnter))
  {
  }

  /** Motion without a drag reports Entering exactly when the flag is clear, Hovering otherwise,
      and leaves the flag set; motion during a drag goes to drag with down set and leaves the
      flag and the click fields alone. */
  lemma MotionCursor(st: ViewState, ev: Event, env: HostEnv, id: nat)
    requires ev.kind == MouseMotion
    ensures var o := HandlerOutcome(st, ev, env, id);
      && |o.calls| == 1
      && (!st.isDragging ==>
            o.calls[0].what == CursorCall(ev.pos, if st.mouseInWindow then Hovering else Entering)
            && o.st == st.(mouseInWindow := true))
      && (st.isDragging ==>
            o.calls[0].what.DragCall? && o.calls[0].what.b.down && o.st == st)
  {
  }

  /** Two motions in a row without a drag report Entering once, then Hovering. */
  lemma MotionEntersOnce(st: ViewState, ev: Event, env: HostEnv, id: nat)
    requires ev.kind == MouseMotion && !st.isDragging && !st.mouseInWindow
    ensures HandlerOutcome(st, ev, env, id).calls[0].what == CursorCall(ev.pos, Entering)
    ensures HandlerOutcome(HandlerOutcome(st, ev, env, id).st, ev, env, id).calls[0].what == CursorCall(ev.pos, Hovering)
  {
  }

  lemma KeyCallsAreKeys(v: ViewId, ds: seq<KeyInfo>, i: int)
    requires 0 <= i < |KeyCalls(v, ds)|
    ensures KeyCalls(v, ds)[i].what.KeyCall?
  {
  }

  /** The host never reports Leaving. */
  lemma NeverLeaving(st: ViewState, ev: Event, env: HostEnv, id: nat, i: int)
    requires 0 <= i < |EventOutcome(st, ev, env, id).calls|
    ensures !(EventOutcome(st, ev, env, id).calls[i].what.CursorCall?
              && EventOutcome(st, ev, env, id).calls[i].what.tracking == Leaving)
  {
    var o := HandlerOutcome(st, ev, env, id);
    if i < |o.calls| && (ev.kind == KeyDown || ev.kind == KeyUp) {
      var key := TranslateKey(ev.scancode);
      var k := KeyOutcome(st, key, ev.kind == KeyUp, GetMods(env.keyboard));
      assert o == k;
      KeyCallsAreKeys(st.view, DeliveredAll(st.keys, KeyRequests(key, RawAction(ev.kind == KeyUp), GetMods(env.keyboard))), i);
    }
  }

  /** The key handler keeps the key map free of repeats. */
  lemma KeyOutcomeSound(st: ViewState, key: KeyCode, up: bool, mods: set<Modifier>)
    requires Sound(st)
    ensures Sound(KeyOutcome(st, key, up, mods).st)
  {
    KeyRequestsRaw(key, up, mods);
    RecordedAllRawOnly(st.keys, KeyRequests(key, RawAction(up), mods));
    PrintScreenReleasedAfterEvent(st.keys, key, RawAction(up), mods);
  }

  /** For a sound view_info, every Print Screen event reaches the view as a press and then a
      release, whether it is a key-down or a key-up. */
  lemma PrintScreenEventDelivers(st: ViewState, up: bool, mods: set<Modifier>)
    requires Sound(st)
    ensures KeyOutcome(st, PrintScreen, up, mods).calls
      == [Call(st.view, KeyCall(KeyInfo(PrintScreen, Press, mods))), Call(st.view, KeyCall(KeyInfo(PrintScreen, Release, mods)))]
  {
    PrintScreenDeliversPressThenRelease(st.keys, mods, up);
  }

  /** Every handled event keeps the view_info sound. */
  lemma EventKeepsSound(st: ViewState, ev: Event, env: HostEnv, id: nat)
    requires Sound(st)
    ensures Sound(EventOutcome(st, ev, env, id).st)
  {
    if ev.kind == KeyDown || ev.kind == KeyUp {
      KeyOutcomeSound(st, TranslateKey(ev.scancode), ev.kind == KeyUp, GetMods(env.keyboard));
    } else if ev.kind == MouseWheel {
      VelocityAtLeastOne(Scrolls(st), env.now, Point(0.0, ev.wheelY));
    }
  }

  /** DoEvent keeps every view_info in the table sound. */
  lemma DoEventKeepsSound(t: Table, ev: Event, env: HostEnv, id: nat)
    requires TableSound(t)
    ensures TableSound(DoEventOutcome(t, ev, env, id).table)
  {
    var w := WindowOf(ev, env.windowFromId);
    if w != NULL && Lookup(t, w).Some? {
      EventKeepsSound(t[w].value, ev, env, id);
    }
  }

  // ---------------------------------------------------------------------------------------------
  // Resource ids

  /** A paint with ids from id on leaves every held id below id + 4 and creates only resources
      with ids from id to id + 3. */
  lemma PaintOutcomeIds(st: ViewState, env: HostEnv, id: nat)
    requires IdsBelow(st.resources, id)
    ensures IdsBelow(PaintOutcome(st, env, id).st.resources, id + PAINT_IDS)
    ensures CreatesWithin(PaintOutcome(st, env, id).gfx, id, id + PAINT_IDS)
  {
    PaintIdsFresh(st.resources, env.width, env.height, st.w, st.h, id);
  }

  /** Only the exposure handler paints; every other handler keeps the resources and makes no
      graphics call. */
  lemma HandlerKeepsResources(st: ViewState, ev: Event, env: HostEnv, id: nat)
    requires ev.kind != WindowEvent(Exposed)
    ensures HandlerOutcome(st, ev, env, id).st.resources == st.resources
    ensures HandlerOutcome(st, ev, env, id).gfx == []
  {
  }

  /** The handler takes the ids of its own paints: what it creates has ids from id on, and
      afterwards every id the window holds is below the ids of the final paint. */
  lemma HandlerTakesIds(st: ViewState, ev: Event, env: HostEnv, id: nat)
    requires IdsBelow(st.resources, id)
    ensures IdsBelow(HandlerOutcome(st, ev, env, id).st.resources, id + HandlerIds(ev))
    ensures CreatesWithin(HandlerOutcome(st, ev, env, id).gfx, id, id + HandlerIds(ev))
  {
    if ev.kind == WindowEvent(Exposed) {
      PaintOutcomeIds(st, env, id);
    } else {
      HandlerKeepsResources(st, ev, env, id);
    }
  }

  /** A routed event takes the ids from id to below id + EventIds(ev): what it creates has ids in
      that range, and afterwards every id the window holds is below its end. */
  lemma EventIdsFresh(st: ViewState, ev: Event, env: HostEnv, id: nat)
    requires IdsBelow(st.resources, id)
    ensures IdsBelow(EventOutcome(st, ev, env, id).st.resources, id + EventIds(ev))
    ensures CreatesWithin(EventOutcome(st, ev, env, id).gfx, id, id + EventIds(ev))
  {
    var o := HandlerOutcome(st, ev, env, id);
    var mid := id + HandlerIds(ev);
    var hi := id + EventIds(ev);
    var p := PaintOutcome(o.st, env, mid);
    assert EventOutcome(st, ev, env, id) == Outcome(p.st, o.calls + p.calls, o.gfx + p.gfx);
    HandlerTakesIds(st, ev, env, id);
    PaintOutcomeIds(o.st, env, mid);
    CreatesWithinWiden(o.gfx, id, mid, hi);
    assert CreatesWithin(p.gfx, id, hi);
    CreatesWithinAppend(o.gfx, p.gfx, id, hi);
  }

  /** DoEvent takes the ids from id to below the returned next id, and every resource it creates
      is fresh: when every id held in the table was below id, no created resource is one any
      window held before, and afterwards every held id is below the next id. */
  lemma DoEventIdsFresh(t: Table, ev: Event, env: HostEnv, id: nat)
    requires TableIdsBelow(t, id)
    ensures var d := DoEventOutcome(t, ev, env, id);
      && id <= d.nextId
      && TableIdsBelow(d.table, d.nextId)
      && CreatesWithin(d.gfx, id, d.nextId)
      && (forall i, k :: 0 <= i < |d.gfx| && IsCreate(d.gfx[i]) && k in t && t[k].Some? ==>
            !Holds(t[k].value.resources, Created(d.gfx[i])))
  {
    var d := DoEventOutcome(t, ev, env, id);
    var w := WindowOf(ev, env.windowFromId);
    if w != NULL && Lookup(t, w).Some? {
      EventIdsFresh(t[w].value, ev, env, id);
      forall k | k in d.table && d.table[k].Some?
        ensures IdsBelow(d.table[k].value.resources, d.nextId)
      {
        if k != w {
          IdsBelowMonotone(t[k].value.resources, id, d.nextId);
        }
      }
    }
  }

  /** Writing a view_info whose ids are below n2 into a table whose ids are below n <= n2 leaves
      every id in the table below n2. */
  lemma TableUpdateIds(t: Table, k: Handle, st: ViewState, n: nat, n2: nat)
    requires TableIdsBelow(t, n) && n <= n2 && IdsBelow(st.resources, n2)
    ensures TableIdsBelow(t[k := Some(st)], n2)
  {
    forall k2 | k2 in t && k2 != k && t[k2].Some?
      ensures IdsBelow(t[k2].value.resources, n2)
    {
      IdsBelowMonotone(t[k2].value.resources, n, n2);
    }
  }

  /** The recorded size stays 0, so every paint of a non-empty window of a sound view_info
      replaces texture, surface and context. */
  lemma PaintAlwaysReallocates(st: ViewState, env: HostEnv, id: nat)
    requires Sound(st) && (env.width > 0 || env.height > 0)
    ensures var res := PaintOutcome(st, env, id).st.resources;
      res.renderTarget == Live(id + 1) && res.surface == Live(id + 2) && res.context == Live(id + 3)
  {
    ZeroWatermarkAlwaysGrows(env.width, env.height);
    ReallocatesIffGrows(st.resources, env.width, env.height, st.w, st.h, id);
  }

  /** The paints of one window at the given sizes in turn, each taking the next ids: how many of
      them give the window a new texture. */
  function TextureChanges(st: ViewState, env: HostEnv, id: nat, sizes: seq<(int, int)>): nat
    decreases |sizes|
  {
    if sizes == [] then 0
    else
      var o := PaintOutcome(st, env.(width := sizes[0].0, height := sizes[0].1), id);
      (if o.st.resources.renderTarget != st.resources.renderTarget then 1 else 0)
      + TextureChanges(o.st, env, id + PAINT_IDS, sizes[1..])
  }

  /** A new window painted at 100x100, 200x200, then shrunk to 150x150 and grown to 250x250 gets a
      new texture on all four paints, the shrink included, since the recorded size stays 0. */
  lemma ResizeScenario(v: ViewId, env: HostEnv, id: nat)
    ensures TextureChanges(NewViewState(v), env, id, [(100, 100), (200, 200), (150, 150), (250, 250)]) == 4
  {
  }

  // ---------------------------------------------------------------------------------------------
  // Properties of the table

  /** make_window on a handle that already has an entry changes nothing, null entry included. */
  lemma InsertKeepsExisting(t: Table, k: Handle, st: ViewState)
    requires k in t
    ensures TableInsert(t, k, st) == t && Lookup(TableInsert(t, k, st), k) == Lookup(t, k)
  {
  }

  /** operator[] on a handle the table does not hold (the erased table stands for any table without
      the handle) leaves a null entry, and a later make_window at that handle is then ignored: the
      window stays unregistered. Without the null entry the registration succeeds. */
  lemma StaleNullEntryBlocksRegistration(t: Table, k: Handle, st: ViewState)
    ensures Lookup(TableInsert(TableIndex(TableErase(t, k), k), k, st), k) == None
    ensures Lookup(TableInsert(TableErase(t, k), k, st), k) == Some(st)
  {
  }

  /** An event that DoEvent routes to a window not yet registered leaves a null entry for it, and
      the make_window that registers the window afterwards is ignored: the window never gets a
      view_info, so every later event for it changes nothing. */
  lemma EarlyEventBlocksRegistration(t: Table, ev: Event, env: HostEnv, id: nat, st: ViewState)
    requires WindowOf(ev, env.windowFromId) != NULL && WindowOf(ev, env.windowFromId) !in t
    ensures var w := WindowOf(ev, env.windowFromId);
      var t2 := TableInsert(DoEventOutcome(t, ev, env, id).table, w, st);
      && Lookup(t2, w) == None
      && DoEventOutcome(t2, ev, env, id).result == None
  {
  }

  /** Sound entries stay sound under every table operation. */
  lemma TableOpsKeepSound(t: Table, k: Handle, v: ViewId)
    requires TableSound(t)
    ensures TableSound(TableIndex(t, k)) && TableSound(TableErase(t, k)) && TableSound(TableInsert(t, k, NewViewState(v)))
  {
  }

  /** The table operations add no resource: ids below n stay below n. */
  lemma TableOpsKeepIds(t: Table, k: Handle, v: ViewId, n: nat)
    requires TableIdsBelow(t, n)
    ensures TableIdsBelow(TableIndex(t, k), n) && TableIdsBelow(TableErase(t, k), n)
    ensures TableIdsBelow(TableInsert(t, k, NewViewState(v)), n)
  {
  }
}
