/** The SDL host's window state in place (lib/host/sdl/base_view.cpp): the ViewInfoMaps table as a
    field of a Host object, the handlers that update a window's view_info in it, make_window,
    ~base_view, refresh and DoEvent. Calls into the base_view callbacks and into SDL and cairo are
    appended to two logs; the texture memory on_paint copies into is an array. Each method is
    proved against the pure functions of Dispatch, KeyTracker, Gestures, Scroll and Paint. */
module BaseView {
  import opened Options
  import opened Keys
  import opened Input
  import opened KeyTracker
  import opened Gestures
  import opened Scroll
  import opened Paint
  import opened Dispatch

  /** A window rectangle as base_view passes it around. */
  datatype Rect = Rect(left: real, top: real, right: real, bottom: real)

  /** Appending to a log in two steps is appending the two parts at once. */
  lemma AppendTwice<T>(log: seq<T>, a: seq<T>, b: seq<T>)
    ensures log + a + b == log + (a + b)
  {
  }

  class Host {
    /** ViewInfoMaps. */
    var table: Table
    /** The base_view callback calls made so far, in order. */
    var calls: seq<Call>
    /** The SDL and cairo calls made so far, in order. */
    var gfx: seq<GfxOp>
    /** The id the next resource SDL or cairo creates gets: each paint takes the next four. */
    var nextId: nat
    /** What each view's key handler returns for an event. */
    const keyAnswer: ViewId -> KeyInfo -> bool

    /** Every view_info in the table is sound, and every resource one holds has an id below
        nextId, so a resource created later is none of them. */
    predicate Valid()
      reads this
    {
      TableSound(table) && TableIdsBelow(table, nextId)
    }

    /** The host before any window exists. */
    constructor(keyAnswer: ViewId -> KeyInfo -> bool)
      ensures Valid()
      ensures table == map[] && calls == [] && gfx == [] && nextId == 0 && this.keyAnswer == keyAnswer
    {
      table := map[];
      calls := [];
      gfx := [];
      nextId := 0;
      this.keyAnswer := keyAnswer;
    }

    // -------------------------------------------------------------------------------------------
    // The table

    /** make_window: a NULL host handle means SDL_CreateWindow, whose result is `created`; the new
        view_info is inserted only if the handle has no entry yet. */
    method MakeWindow(view: ViewId, host: Handle, created: Handle) returns (handle: Handle)
      requires Valid()
      modifies this
      ensures Valid()
      ensures handle == (if host == NULL then created else host)
      ensures table == TableInsert(old(table), handle, NewViewState(view))
      ensures calls == old(calls) && gfx == old(gfx) && nextId == old(nextId)
    {
      handle := host;
      if handle == NULL {
        handle := created;
      }
      if handle !in table {
        table := table[handle := Some(NewViewState(view))];
      }
      TableOpsKeepSound(old(table), handle, view);
      TableOpsKeepIds(old(table), handle, view, nextId);
    }

    /** ~base_view: the entry is erased and nothing else happens; the view_info and its resources
        are not released. */
    method Destroy(handle: Handle)
      requires Valid()
      modifies this
      ensures Valid()
      ensures table == TableErase(old(table), handle)
      ensures calls == old(calls) && gfx == old(gfx) && nextId == old(nextId)
    {
      table := table - {handle};
      TableOpsKeepSound(old(table), handle, 0);
      TableOpsKeepIds(old(table), handle, 0, nextId);
    }

    // -------------------------------------------------------------------------------------------
    // The handlers, on the window whose view_info is registered under wnd

    /** handle_key. */
    method HandleKey(wnd: Handle, k: KeyInfo) returns (r: bool)
      requires Lookup(table, wnd).Some?
      modifies this
      ensures var st := old(table[wnd].value);
        && table == old(table)[wnd := Some(st.(keys := Recorded(st.keys, k)))]
        && calls == old(calls) + KeyCalls(st.view, DeliveredAll(st.keys, [k]))
        && r == AnyConsumed(keyAnswer(st.view), DeliveredAll(st.keys, [k]))
        && gfx == old(gfx) && nextId == old(nextId)
    {
      var st := table[wnd].value;
      var keys := st.keys;
      var stored := if k.key in keys then keys[k.key] else Release;
      if k.action == Release && stored == Release {
        if k.key !in keys {
          keys := keys[k.key := Release];
        }
        table := table[wnd := Some(st.(keys := keys))];
        assert DeliveredAll(st.keys, [k]) == [];
        return false;
      }
      var repeated := k.action == Press && stored == Press;
      keys := keys[k.key := k.action];
      table := table[wnd := Some(st.(keys := keys))];
      var delivered := if repeated then k.(action := Repeat) else k;
      r := keyAnswer(st.view)(delivered);
      calls := calls + [Call(st.view, KeyCall(delivered))];
      assert DeliveredAll(st.keys, [k]) == [delivered];
      assert [delivered][0] == delivered;
    }

    /** One or two handle_key calls in a row, as on_key makes them. */
    method HandleKeys(wnd: Handle, reqs: seq<KeyInfo>) returns (r: bool)
      requires Lookup(table, wnd).Some? && 1 <= |reqs| <= 2
      modifies this
      ensures var st := old(table[wnd].value);
        && table == old(table)[wnd := Some(st.(keys := RecordedAll(st.keys, reqs)))]
        && calls == old(calls) + KeyCalls(st.view, DeliveredAll(st.keys, reqs))
        && r == AnyConsumed(keyAnswer(st.view), DeliveredAll(st.keys, reqs))
        && gfx == old(gfx) && nextId == old(nextId)
    {
      ghost var st := table[wnd].value;
      var a := reqs[0];
      r := HandleKey(wnd, a);
      ghost var mid := Recorded(st.keys, a);
      assert RecordedAll(st.keys, [a]) == RecordedAll(mid, []) == mid;
      if |reqs| == 2 {
        var b := reqs[1];
        var r2 := HandleKey(wnd, b);
        r := r || r2;
        assert reqs == [a, b] && reqs[1..] == [b];
        assert RecordedAll(st.keys, reqs) == RecordedAll(mid, [b]) == Recorded(mid, b);
        assert DeliveredAll(st.keys, reqs) == DeliveredAll(st.keys, [a]) + DeliveredAll(mid, [b]);
        assert KeyCalls(st.view, DeliveredAll(st.keys, [a]) + DeliveredAll(mid, [b]))
          == KeyCalls(st.view, DeliveredAll(st.keys, [a])) + KeyCalls(st.view, DeliveredAll(mid, [b]));
        AnyConsumedAppend(keyAnswer(st.view), DeliveredAll(st.keys, [a]), DeliveredAll(mid, [b]));
      } else {
        assert reqs == [a];
      }
    }

    /** on_key: returns the OR of the view's answers to the events delivered. */
    method OnKey(wnd: Handle, scancode: Scancode, up: bool, ks: KeyboardState) returns (r: bool)
      requires Valid() && Lookup(table, wnd).Some?
      modifies this
      ensures Valid()
      ensures var st := old(table[wnd].value);
        var o := KeyOutcome(st, TranslateKey(scancode), up, GetMods(ks));
        && table == old(table)[wnd := Some(o.st)]
        && calls == old(calls) + o.calls
        && r == AnyConsumed(keyAnswer(st.view),
                            DeliveredAll(st.keys, KeyRequests(TranslateKey(scancode), RawAction(up), GetMods(ks))))
        && gfx == old(gfx) && nextId == old(nextId)
    {
      var key := TranslateKey(scancode);
      var mods := GetMods(ks);
      KeyOutcomeSound(table[wnd].value, key, up, mods);
      r := OnTranslatedKey(wnd, key, up, mods);
    }

    /** on_key after translate_key: the unknown-key exit, then the handle_key calls KeyRequests lists
        (the shift-release and print-screen workarounds, or the single call). */
    method OnTranslatedKey(wnd: Handle, key: KeyCode, up: bool, mods: set<Modifier>) returns (r: bool)
      requires Lookup(table, wnd).Some?
      modifies this
      ensures var st := old(table[wnd].value);
        var o := KeyOutcome(st, key, up, mods);
        && table == old(table)[wnd := Some(o.st)]
        && calls == old(calls) + o.calls
        && r == AnyConsumed(keyAnswer(st.view), DeliveredAll(st.keys, KeyRequests(key, RawAction(up), mods)))
        && gfx == old(gfx) && nextId == old(nextId)
    {
      if key == Unknown {
        assert KeyRequests(key, RawAction(up), mods) == [];
        assert table == table[wnd := Some(table[wnd].value)];
        return false;
      }
      r := HandleKeys(wnd, KeyRequests(key, RawAction(up), mods));
    }

    /** get_button: updates the click fields and returns the report. */
    method GetButton(wnd: Handle, ev: ButtonEvent, now: Millis, code: int, ks: KeyboardState, pos: Point)
      returns (b: MouseButton)
      requires Valid() && Lookup(table, wnd).Some?
      modifies this
      ensures Valid()
      ensures var st := old(table[wnd].value);
        && table == old(table)[wnd := Some(WithClicks(st, ButtonStep(Clicks(st), ev, now)))]
        && b == ButtonReport(Clicks(st), ev, now, code, GetMods(ks), pos)
        && calls == old(calls) && gfx == old(gfx) && nextId == old(nextId)
    {
      var st := table[wnd].value;
      var down := st.isDragging;
      match ev {
        case ButtonDown =>
          var elapsed := now - st.clickStart;
          st := st.(clickStart := now);
          if elapsed > CLICK_WINDOW_MS {
            st := st.(clickCount := 1);
          } else {
            st := st.(clickCount := st.clickCount + 1);
          }
          if !st.isDragging {
            st := st.(isDragging := true);
          }
          down := true;
        case ButtonUp =>
          down := false;
          if st.isDragging {
            st := st.(isDragging := false);
          }
        case Motion =>
      }
      table := table[wnd := Some(st)];
      b := MouseButton(down, st.clickCount, ButtonFor(code), GetMods(ks), pos);
    }

    /** on_cursor, followed by DoEvent's update of the in-window flag. */
    method OnCursor(wnd: Handle, pos: Point, tracking: CursorTracking, inWindow: bool)
      requires Valid() && Lookup(table, wnd).Some?
      modifies this
      ensures Valid()
      ensures var o := CursorOutcome(old(table[wnd].value), pos, tracking, inWindow);
        table == old(table)[wnd := Some(o.st)] && calls == old(calls) + o.calls && gfx == old(gfx)
        && nextId == old(nextId)
    {
      var st := table[wnd].value;
      calls := calls + [Call(st.view, CursorCall(pos, tracking))];
      table := table[wnd := Some(st.(mouseInWindow := inWindow))];
    }

    /** on_scroll: updates the acceleration fields and passes the scaled delta to the view. */
    method OnScroll(wnd: Handle, now: Millis, dir: Point, pos: Point)
      requires Valid() && Lookup(table, wnd).Some?
      modifies this
      ensures Valid()
      ensures var st := old(table[wnd].value);
        && table == old(table)[wnd := Some(WithScrolls(st, ScrollStep(Scrolls(st), now, dir)))]
        && calls == old(calls) + [Call(st.view, ScrollCall(ScrollDelta(Scrolls(st), now, dir), pos))]
        && gfx == old(gfx) && nextId == old(nextId)
    {
      var st := table[wnd].value;
      var elapsed := now - st.scrollStart;
      st := st.(scrollStart := now);
      var resetAccel :=
        || elapsed > SCROLL_WINDOW_MS
        || (st.scrollDir.x > 0.0) != (dir.x > 0.0)
        || (st.scrollDir.y > 0.0) != (dir.y > 0.0);
      st := st.(scrollDir := dir);
      if resetAccel {
        st := st.(velocity := 1.0);
      } else {
        st := st.(velocity := st.velocity * ACCELERATION);
      }
      var delta := Point(dir.x * st.velocity, dir.y * st.velocity);
      assert st.velocity == ScrollStep(Scrolls(old(table[wnd].value)), now, dir).velocity;
      assert delta == ScrollDelta(Scrolls(old(table[wnd].value)), now, dir);
      assert st.view == old(table[wnd].value).view;
      table := table[wnd := Some(st)];
      calls := calls + [Call(st.view, ScrollCall(delta, pos))];
    }

    /** on_paint: the resources, taking the next four ids, the draw call, the copy into the
        locked texture memory and the present. */
    method OnPaint(wnd: Handle, env: HostEnv, pixels: array<Byte>)
      requires Valid() && Lookup(table, wnd).Some?
      requires env.width >= 0 && RowsFit(pixels.Length, env.pitch, |env.surface|, 4 * env.width, env.height)
      modifies this, pixels
      ensures Valid()
      ensures var o := PaintOutcome(old(table[wnd].value), env, old(nextId));
        table == old(table)[wnd := Some(o.st)] && calls == old(calls) + o.calls && gfx == old(gfx) + o.gfx
      ensures nextId == old(nextId) + PAINT_IDS
      ensures pixels[..] == Copied(old(pixels[..]), env.surface, 4 * env.width, env.height, env.pitch)
    {
      var st := table[wnd].value;
      var w, h := env.width, env.height;
      var res, ops := Prepare(st.resources, w, h, st.w, st.h, nextId);
      PaintOutcomeIds(st, env, nextId);
      TableUpdateIds(table, wnd, st.(resources := res), nextId, nextId + PAINT_IDS);
      table := table[wnd := Some(st.(resources := res))];
      nextId := nextId + PAINT_IDS;
      calls := calls + [Call(st.view, DrawCall(res.context, w, h))];
      CopyRows(pixels, env.pitch, env.surface, w, h);
      gfx := gfx + ops + PresentOps(res);
    }

    /** refresh: operator[] puts a null entry under an unknown handle, and a null entry means no
        paint. */
    method Refresh(wnd: Handle, env: HostEnv, pixels: array<Byte>)
      requires Valid()
      requires env.width >= 0 && RowsFit(pixels.Length, env.pitch, |env.surface|, 4 * env.width, env.height)
      modifies this, pixels
      ensures Valid()
      ensures Lookup(old(table), wnd).None? ==>
        && table == TableIndex(old(table), wnd) && calls == old(calls) && gfx == old(gfx) && nextId == old(nextId)
        && pixels[..] == old(pixels[..])
      ensures Lookup(old(table), wnd).Some? ==>
        var o := PaintOutcome(old(table[wnd].value), env, old(nextId));
        && table == old(table)[wnd := Some(o.st)] && calls == old(calls) + o.calls && gfx == old(gfx) + o.gfx
        && nextId == old(nextId) + PAINT_IDS
        && pixels[..] == Copied(old(pixels[..]), env.surface, 4 * env.width, env.height, env.pitch)
    {
      if wnd !in table {
        table := table[wnd := None];
      }
      TableOpsKeepSound(old(table), wnd, 0);
      TableOpsKeepIds(old(table), wnd, 0, nextId);
      if table[wnd].None? {
        return;
      }
      OnPaint(wnd, env, pixels);
    }

    /** refresh(rect): the area is ignored. */
    method RefreshArea(wnd: Handle, area: Rect, env: HostEnv, pixels: array<Byte>)
      requires Valid()
      requires env.width >= 0 && RowsFit(pixels.Length, env.pitch, |env.surface|, 4 * env.width, env.height)
      modifies this, pixels
      ensures Valid()
      ensures Lookup(old(table), wnd).None? ==>
        && table == TableIndex(old(table), wnd) && calls == old(calls) && gfx == old(gfx) && nextId == old(nextId)
        && pixels[..] == old(pixels[..])
      ensures Lookup(old(table), wnd).Some? ==>
        var o := PaintOutcome(old(table[wnd].value), env, old(nextId));
        && table == old(table)[wnd := Some(o.st)] && calls == old(calls) + o.calls && gfx == old(gfx) + o.gfx
        && nextId == old(nextId) + PAINT_IDS
        && pixels[..] == Copied(old(pixels[..]), env.surface, 4 * env.width, env.height, env.pitch)
    {
      Refresh(wnd, env, pixels);
    }

    // -------------------------------------------------------------------------------------------
    // DoEvent

    /** The switch of DoEvent for a registered window: the one handler the event type selects.
        The exposure case, a paint, is run by PaintAfterHandler. */
    method RunHandler(wnd: Handle, ev: Event, env: HostEnv)
      requires Valid() && Lookup(table, wnd).Some? && ev.kind != WindowEvent(Exposed)
      modifies this
      ensures Valid()
      ensures var o := HandlerOutcome(old(table[wnd].value), ev, env, old(nextId));
        table == old(table)[wnd := Some(o.st)] && calls == old(calls) + o.calls && gfx == old(gfx) + o.gfx
      ensures nextId == old(nextId)
    {
      var st := table[wnd].value;
      match ev.kind {
        case WindowEvent(k) =>
          if k == MouseEnter {
            OnCursor(wnd, env.mouse, Entering, true);
          } else if k == MouseLeave {
            OnCursor(wnd, env.mouse, Entering, false);
          }
        case KeyDown =>
          var _ := OnKey(wnd, ev.scancode, false, env.keyboard);
        case KeyUp =>
          var _ := OnKey(wnd, ev.scancode, true, env.keyboard);
        case TextInput =>
          calls := calls + [Call(st.view, TextCall)];
        case MouseMotion =>
          if st.isDragging {
            var b := GetButton(wnd, Motion, env.now, ev.button, env.keyboard, ev.pos);
            calls := calls + [Call(st.view, DragCall(b))];
          } else if !st.mouseInWindow {
            OnCursor(wnd, ev.pos, Entering, true);
          } else {
            OnCursor(wnd, ev.pos, Hovering, true);
          }
        case MouseButtonDown =>
          var b := GetButton(wnd, ButtonDown, env.now, ev.button, env.keyboard, ev.pos);
          calls := calls + [Call(st.view, ClickCall(b))];
        case MouseButtonUp =>
          var b := GetButton(wnd, ButtonUp, env.now, ev.button, env.keyboard, ev.pos);
          calls := calls + [Call(st.view, ClickCall(b))];
        case MouseWheel =>
          OnScroll(wnd, env.now, Point(0.0, ev.wheelY), ev.pos);
        case _ =>
      }
    }

    /** A registered window's part of DoEvent: its handler, then the final paint. */
    method PaintAfterHandler(wnd: Handle, ev: Event, env: HostEnv, pixels: array<Byte>)
      requires Valid() && Lookup(table, wnd).Some?
      requires env.width >= 0 && RowsFit(pixels.Length, env.pitch, |env.surface|, 4 * env.width, env.height)
      modifies this, pixels
      ensures Valid()
      ensures var e := EventOutcome(old(table[wnd].value), ev, env, old(nextId));
        table == old(table)[wnd := Some(e.st)] && calls == old(calls) + e.calls && gfx == old(gfx) + e.gfx
      ensures nextId == old(nextId) + EventIds(ev)
      ensures pixels[..] == Copied(old(pixels[..]), env.surface, 4 * env.width, env.height, env.pitch)
    {
      ghost var st, n, c0, g0 := table[wnd].value, nextId, calls, gfx;
      if ev.kind == WindowEvent(Exposed) {
        ghost var q1 := PaintOutcome(st, env, n);
        ghost var q2 := PaintOutcome(q1.st, env, n + PAINT_IDS);
        ExposedOutcomeParts(st, ev, env, n);
        PaintExposed(wnd, env, pixels);
        AppendTwice(c0, q1.calls, q2.calls);
        AppendTwice(g0, q1.gfx, q2.gfx);
      } else {
        ghost var o := HandlerOutcome(st, ev, env, n);
        ghost var q := PaintOutcome(o.st, env, n);
        EventOutcomeParts(st, ev, env, n, o, q);
        HandleThenPaint(wnd, ev, env, pixels);
        AppendTwice(c0, o.calls, q.calls);
        AppendTwice(g0, o.gfx, q.gfx);
      }
    }

    /** Any other event: the handler of the switch, then the paint after it. */
    method HandleThenPaint(wnd: Handle, ev: Event, env: HostEnv, pixels: array<Byte>)
      requires Valid() && Lookup(table, wnd).Some? && ev.kind != WindowEvent(Exposed)
      requires env.width >= 0 && RowsFit(pixels.Length, env.pitch, |env.surface|, 4 * env.width, env.height)
      modifies this, pixels
      ensures Valid()
      ensures var o := HandlerOutcome(old(table[wnd].value), ev, env, old(nextId));
        var q := PaintOutcome(o.st, env, old(nextId));
        && table == old(table)[wnd := Some(q.st)]
        && calls == old(calls) + o.calls + q.calls && gfx == old(gfx) + o.gfx + q.gfx
      ensures nextId == old(nextId) + PAINT_IDS
      ensures pixels[..] == Copied(old(pixels[..]), env.surface, 4 * env.width, env.height, env.pitch)
    {
      RunHandler(wnd, ev, env);
      OnPaint(wnd, env, pixels);
    }

    /** An exposure: the switch's paint, then the paint after the switch, the second taking the
        ids after the first's. Both copies go to the one array that stands for the locked texture
        memory. */
    method PaintExposed(wnd: Handle, env: HostEnv, pixels: array<Byte>)
      requires Valid() && Lookup(table, wnd).Some?
      requires env.width >= 0 && RowsFit(pixels.Length, env.pitch, |env.surface|, 4 * env.width, env.height)
      modifies this, pixels
      ensures Valid()
      ensures var q1 := PaintOutcome(old(table[wnd].value), env, old(nextId));
        var q2 := PaintOutcome(q1.st, env, old(nextId) + PAINT_IDS);
        && table == old(table)[wnd := Some(q2.st)]
        && calls == old(calls) + q1.calls + q2.calls && gfx == old(gfx) + q1.gfx + q2.gfx
      ensures nextId == old(nextId) + PAINT_IDS + PAINT_IDS
      ensures pixels[..] == Copied(old(pixels[..]), env.surface, 4 * env.width, env.height, env.pitch)
    {
      ghost var d0 := pixels[..];
      OnPaint(wnd, env, pixels);
      OnPaint(wnd, env, pixels);
      CopiedTwice(d0, env.surface, 4 * env.width, env.height, env.pitch);
    }

    /** DoEvent: route the event to its window, run one handler, paint, return false. Where the
        window is NULL or unregistered the function runs off its end, and the result is None. */
    method DoEvent(ev: Event, env: HostEnv, pixels: array<Byte>) returns (r: Option<bool>)
      requires Valid()
      requires env.width >= 0 && RowsFit(pixels.Length, env.pitch, |env.surface|, 4 * env.width, env.height)
      modifies this, pixels
      ensures Valid()
      ensures var d := DoEventOutcome(old(table), ev, env, old(nextId));
        && table == d.table && calls == old(calls) + d.calls && gfx == old(gfx) + d.gfx && r == d.result
        && nextId == d.nextId
        && pixels[..] == if d.painted
             then Copied(old(pixels[..]), env.surface, 4 * env.width, env.height, env.pitch) else old(pixels[..])
    {
      var window := WindowOf(ev, env.windowFromId);
      if window == NULL {
        return None;
      }
      if window !in table {
        table := table[window := None];
      }
      TableOpsKeepSound(old(table), window, 0);
      TableOpsKeepIds(old(table), window, 0, nextId);
      if table[window].None? {
        return None;
      }
      PaintAfterHandler(window, ev, env, pixels);
      return Some(false);
    }
  }
}
