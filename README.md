# A verified model of the elements SDL host's input state machine

The elements GUI library runs its views on SDL through a thin host layer. This project models
that layer's core in Dafny and proves what it does:

- the per-window record `view_info` and the handle table `ViewInfoMaps`;
- the key-state tracker (`handle_key`, `on_key`);
- the click counter and drag flag (`get_button`);
- the scroll acceleration (`on_scroll`);
- the dispatcher `DoEvent`, its window lookup `GetWindowFromEvent`, and its cursor-tracking flag;
- the paint pipeline `on_paint`, including its row-by-row copy into the locked texture;
- the modifier mask `get_mods`;
- the scancode table `translate_key`;
- the resource-directory search `find_resources`.

The C++ keeps mutable state, and so does the model. `BaseView.Host` (host.dfy) is a class:

- its field `table` is `ViewInfoMaps`, a map from window handle to an optional `view_info`. An
  entry can be null because `operator[]` puts null entries in the table.
- every handler is a method that updates one window's entry in place;
- the calls the host makes into the view (`key`, `click`, `drag`, `cursor`, `scroll`, `text`,
  `draw`) are appended to the `calls` log;
- the calls into SDL and cairo are appended to the `gfx` log;
- the texture memory that `on_paint` copies into is an `array<Byte>`.

Each method is proved against a pure function of the old state. These functions live in modules
that follow the source's own helpers:

| module | file | models |
|---|---|---|
| `KeyTracker` | key_tracker.dfy | `handle_key`, `on_key` |
| `Gestures` | gestures.dfy | `get_button` |
| `Scroll` | scroll.dfy | `on_scroll` |
| `Paint` | paint.dfy | `on_paint` |
| `Dispatch` | dispatch.dfy | `DoEvent`, the table operations |
| `Keys` | keys.dfy | `translate_key` |
| `AppPaths` | app_paths.dfy | `find_resources` |
| `Input` | input.dfy | `get_mods` and the event values |

The properties are lemmas about those functions.

Foreign inputs and outputs are modelled as follows:

- **SDL and cairo resources**: tokens (`Paint.Res`). The clock, the keyboard state, the mouse
  position, the window size, the surface pixels and `SDL_GetWindowFromID` are fields of
  `Dispatch.HostEnv`, passed in with each event.
- **The view's key handler**: its answer is the function `Host.keyAnswer`.
- **Times**: integer milliseconds.
- **Velocities and positions**: `real`.
- **Paths**: a root flag and a list of names. The directory test and the working directory are
  parameters.

### What the code does, as modelled

- `view_info::w` and `view_info::h` are never assigned, so the grow check compares against 0. Every
  paint of a non-empty window destroys and recreates the texture, the surface and the context
  (`Dispatch.PaintAlwaysReallocates`). For paints of a new window at 100×100, 200×200, 150×150
  and 250×250, a watermark that recorded each allocated size would create a texture three times;
  the code creates one four times (`Dispatch.ResizeScenario`).
- On a Shift release, `on_key` makes two `handle_key` calls, but `handle_key` drops a release of a
  key already recorded as released. So a release reaches the view only for each Shift key recorded
  as pressed (`KeyTracker.ShiftReleaseDeliveries`, `KeyTracker.LeftShiftTapScenario`).
- `DoEvent` returns false after handling an event. Where the window is NULL the `while` loop is never
  entered; where its entry is null it leaves the loop by `break`. Either way control reaches the
  end of the function without a `return`.
  The model gives `None` there (`Dispatch.ResultIffRegistered`). `DoEvent` also reads the table
  with `operator[]`, so an unknown window gets a null entry.
- Every paint takes the next four resource ids from the host's counter `nextId`, so a resource a
  paint creates is never one a table entry already holds (`Dispatch.DoEventIdsFresh`).
- Window enter and window leave both report `entering`. `Leaving` is never produced
  (`Dispatch.NeverLeaving`).
- `refresh(rect)` ignores its area.
- An exposure paints twice: once in the switch and once after it.
- `~base_view` only erases the table entry.

## Model

| member | source | states |
|---|---|---|
| Keys.TranslateKey | lib/host/sdl/key.cpp:35-167 | the switch of `translate_key`, one case per listed scancode, and `unknown` for the rest; its properties are the lemmas below |
| Keys.UnknownIffUnlisted | lib/host/sdl/key.cpp:39-165 | a scancode yields `unknown` exactly when no case of the switch names it |
| Keys.TranslateKeyInjective | lib/host/sdl/key.cpp:41-165 | two scancodes that yield the same key other than `unknown` are the same scancode |
| Keys.CommentedOutCodesNeverProduced | lib/host/sdl/key.cpp:90-143 | the key codes of the commented-out cases (left and right super, world 2) are never produced |
| Keys.UnlistedScancodesUnknown | lib/host/sdl/key.cpp:90-143 | the left and right super scancodes and the non-US backslash key fall to the default case |
| Keys.KeypadPeriodUnknown | lib/host/sdl/key.cpp:149-165 | the keypad period scancode yields `unknown`, while SDL's keypad-decimal scancode yields `kp_decimal` |
| Keys.WorldTwoHexIsKeypadMinus | lib/host/sdl/key.cpp:90 | the commented-out 0x056 is SDL's keypad-minus scancode, which the keypad-minus case still maps to `kp_subtract` |
| Keys.KeysTheHostNames | lib/host/sdl/key.cpp:137-142 | left shift, right shift and print screen map to the three codes `on_key` special-cases |
| Keys.DigitsInOrder | lib/host/sdl/key.cpp:41-50 | digit key d maps to the d-th digit code |
| Keys.LettersInOrder | lib/host/sdl/key.cpp:52-77 | the i-th letter scancode maps to the i-th letter code |
| Keys.FunctionKeysLowInOrder | lib/host/sdl/key.cpp:110-121 | F1 to F12 map to `f1` to `f12` in order |
| Keys.FunctionKeysHighInOrder | lib/host/sdl/key.cpp:122-133 | F13 to F24 map to `f13` to `f24` in order |
| Keys.FunctionKeysInOrder | lib/host/sdl/key.cpp:110-133 | function key n, 1 to 24, maps to the n-th function key code |
| Keys.KeypadDigitsInOrder | lib/host/sdl/key.cpp:149-158 | keypad digit d maps to the d-th keypad digit code |
| Input.ButtonFor | lib/host/sdl/base_view.cpp:221-236 | middle and right map to themselves; every other code, left included, maps to left |
| Input.GetMods | lib/host/sdl/base_view.cpp:163-185 | shift iff either shift key is down; control and action iff either control key is down; alt iff the menu key is down; super iff either super key is down |
| KeyTracker.Stored | lib/host/sdl/base_view.cpp:249 | the action the key map holds for a key, release for a key never seen, as reading `operator[]` gives it |
| KeyTracker.Delivered | lib/host/sdl/base_view.cpp:247-265 | the event `handle_key` passes to the view: none for a duplicate release, a repeat for a press of a pressed key, the event itself otherwise |
| KeyTracker.Recorded | lib/host/sdl/base_view.cpp:247-265 | the key map after `handle_key`: the event's action written, or on the early exit only the default entry `operator[]` inserts |
| KeyTracker.KeyRequests | lib/host/sdl/base_view.cpp:267-293 | the `handle_key` calls `on_key` makes for a translated key, in order |
| KeyTracker.RecordedAll | lib/host/sdl/base_view.cpp:280-289 | the key map after a run of `handle_key` calls |
| KeyTracker.DeliveredAll | lib/host/sdl/base_view.cpp:280-289 | the events a run of `handle_key` calls passes to the view, in order |
| KeyTracker.DuplicateReleaseSuppressed | lib/host/sdl/base_view.cpp:251-253 | a release of a key recorded as released reaches no handler, and every key still reads as before |
| KeyTracker.PressWhilePressedRepeats | lib/host/sdl/base_view.cpp:255-262 | a press of a key recorded as pressed reaches the view as a repeat with the same key and modifiers |
| KeyTracker.RecordedReadsAction | lib/host/sdl/base_view.cpp:251-259 | afterwards the key reads as the event's own action, other keys are unchanged, and a press or release never stores a repeat |
| KeyTracker.DeliveredKeepsKeyAndMods | lib/host/sdl/base_view.cpp:247-265 | an event reaches the view iff it is not a duplicate release, with its key and modifiers unchanged |
| KeyTracker.KeyRequestsCases | lib/host/sdl/base_view.cpp:273-292 | unknown makes no call; a Shift release calls for left then right Shift, both released; Print Screen calls for press then release on key-up and key-down; every other key makes exactly one call with its own action |
| KeyTracker.KeyRequestsRaw | lib/host/sdl/base_view.cpp:270-292 | `on_key` passes only presses and releases to `handle_key` |
| KeyTracker.RecordedAllRawOnly | lib/host/sdl/base_view.cpp:259 | a run of press and release calls never writes a repeat into the map |
| KeyTracker.OnKeyAllRawOnly | lib/host/sdl/base_view.cpp:267-293 | starting from a repeat-free map, any run of key events leaves the map repeat-free |
| KeyTracker.RecordedAllSnoc | lib/host/sdl/base_view.cpp:259 | a run of calls followed by one more is that call applied to the run's map |
| KeyTracker.RecordedAllLastAction | lib/host/sdl/base_view.cpp:247-265 | after a run of calls, each key reads as the last action requested for it, or as before if none was |
| KeyTracker.PrintScreenReleasedAfterEvent | lib/host/sdl/base_view.cpp:284-290 | if Print Screen reads as released before an `on_key` call, it reads as released after it, whatever the key |
| KeyTracker.PrintScreenAlwaysReleased | lib/host/sdl/base_view.cpp:284-290 | from a map where Print Screen reads as released, it reads as released after any run of key events |
| KeyTracker.PrintScreenDeliversPressThenRelease | lib/host/sdl/base_view.cpp:284-290 | each Print Screen event, key-up or key-down, reaches the view as exactly a press then a release |
| KeyTracker.ShiftReleaseDeliveries | lib/host/sdl/base_view.cpp:276-283 | a Shift release delivers a release for each Shift key recorded as pressed, left first, and nothing for the others |
| KeyTracker.LeftShiftTapScenario | lib/host/sdl/base_view.cpp:276-283 | from an empty map, pressing and releasing left Shift delivers the press and only the left release |
| KeyTracker.AnyConsumedAppend | lib/host/sdl/base_view.cpp:280-289 | the answer to two runs of events is the OR of the answers to each |
| Gestures.ButtonStep | lib/host/sdl/base_view.cpp:191-219 | the click count, clock and drag flag after `get_button` |
| Gestures.ReportedDown | lib/host/sdl/base_view.cpp:191-219 | the down flag `get_button` reports |
| Gestures.ButtonReport | lib/host/sdl/base_view.cpp:221-244 | the `mouse_button` `get_button` returns: the down flag, the count after the update, the button, the modifiers and the position |
| Gestures.ButtonStepCases | lib/host/sdl/base_view.cpp:191-218 | a press sets the count to 1 after more than 200 ms and adds one otherwise, restarts the clock, sets the drag flag and reports down. A release clears the flag, reports up and keeps the count and the clock. Motion changes nothing and reports the drag flag |
| Gestures.ClickCountSinceRunStart | lib/host/sdl/base_view.cpp:193-201 | after a run of presses the count is the number of presses since the last one that came after a pause of more than 200 ms, and the clock holds the last press time |
| Gestures.ClickCountWithoutPause | lib/host/sdl/base_view.cpp:193-201 | without such a pause the count grows by one per press |
| Gestures.ThreePressScenario | lib/host/sdl/base_view.cpp:193-201 | presses at 1000, 1050 and 1500 ms on a new window count 1, 2, 1 |
| Scroll.ResetsAcceleration | lib/host/sdl/base_view.cpp:97-101 | `reset_accel`: more than 250 ms since the last wheel event, or a change of sign on either axis |
| Scroll.ScrollStep | lib/host/sdl/base_view.cpp:88-107 | the clock, direction and velocity after `on_scroll` |
| Scroll.ScrollDelta | lib/host/sdl/base_view.cpp:109-110 | the delta passed to the view: the raw delta times the new velocity |
| Scroll.VelocityAtLeastOne | lib/host/sdl/base_view.cpp:97-107 | the velocity never drops below 1 |
| Scroll.VelocitySinceReset | lib/host/sdl/base_view.cpp:97-107 | after a run of wheel events the velocity is 1.1 raised to the number of events since the last reset |
| Scroll.VelocityWithoutReset | lib/host/sdl/base_view.cpp:97-107 | without a reset, the velocity is the old one times 1.1 per event; no cap exists |
| Scroll.DeltaFollowsDirection | lib/host/sdl/base_view.cpp:104-110 | the delta passed on has the raw delta's sign on each axis and is at least as long vertically |
| Scroll.VerticalOnly | lib/host/sdl/base_view.cpp:486-489 | with the zero horizontal delta `DoEvent` passes, only the pause and the vertical sign reset, and the horizontal delta stays 0 |
| Scroll.ZeroIsNotPositive | lib/host/sdl/base_view.cpp:99-100 | going from scrolling down to a zero delta is no change of direction |
| Scroll.WheelScenario | lib/host/sdl/base_view.cpp:88-119 | deltas 1, 1, -1 at 1000, 1050, 1060 ms come out as 1, 1.1, -1 |
| Paint.Grows | lib/host/sdl/base_view.cpp:130 | the grow check: wider or taller than the recorded size |
| Paint.PaintResources | lib/host/sdl/base_view.cpp:124-143 | the resources after a paint: a renderer made if missing; on growth a new texture, surface and context |
| Paint.DestroyOps | lib/host/sdl/base_view.cpp:131-139 | the destroy calls for the live resources, context first |
| Paint.PrepareOps | lib/host/sdl/base_view.cpp:124-143 | the SDL and cairo calls before the draw: renderer creation if missing; on growth the destroys and the three creations |
| Paint.PresentOps | lib/host/sdl/base_view.cpp:149-157 | the calls after the draw: lock, unlock, clear, render, present |
| Paint.Copied | lib/host/sdl/base_view.cpp:150-152 | the texture memory after the row copy; its length is unchanged |
| Paint.DestroyLive | lib/host/sdl/base_view.cpp:131-139 | the destroy calls name each live resource once, context first, and only live ones |
| Paint.Prepare | lib/host/sdl/base_view.cpp:124-143 | the resources and calls of on_paint before the draw, as `PaintResources` and `PrepareOps` give them |
| Paint.RendererCreatedOnce | lib/host/sdl/base_view.cpp:124-126 | a renderer is created iff there was none, and an existing one is kept |
| Paint.ReallocatesIffGrows | lib/host/sdl/base_view.cpp:130-143 | texture, surface and context are all replaced iff the window is wider or taller than the recorded size; otherwise nothing is destroyed or created but a missing renderer |
| Paint.DestroysOnlyOwned | lib/host/sdl/base_view.cpp:131-139 | every destroy call names a resource the window held, and there is one per live resource |
| Paint.ZeroWatermarkAlwaysGrows | lib/host/sdl/base_view.cpp:130 | against a recorded size of 0 the grow check holds iff the window is non-empty |
| Paint.PaintIdsFresh | lib/host/sdl/base_view.cpp:124-143 | when every resource held has an id below `id`, a paint from `id` on creates only resources with ids `id` to `id + 3`, and afterwards every resource held is below `id + 4` |
| Paint.CopiedRowBytes | lib/host/sdl/base_view.cpp:150-152 | byte k of row i of the texture memory is byte 4wi + k of the surface |
| Paint.CopiedAtSourceOffsets | lib/host/sdl/base_view.cpp:150-152 | byte `pitch * i + k` of the texture memory is byte `4 * w * i + k` of the surface, for every row i and every k below 4w |
| Paint.CopiedElsewhereUnchanged | lib/host/sdl/base_view.cpp:150-152 | every byte outside the copied rows keeps its value |
| Paint.CopiedTwice | lib/host/sdl/base_view.cpp:150-152 | copying the same rows again changes nothing |
| Paint.CopyRow | lib/host/sdl/base_view.cpp:151 | one memcpy: the destination range holds the source range, the rest is unchanged |
| Paint.CopyRows | lib/host/sdl/base_view.cpp:150-152 | the loop leaves the texture memory as `Copied` describes it |
| Dispatch.CarriesWindowId | lib/host/sdl/base_view.cpp:312-346 | the event types whose window id `GetWindowFromEvent` reads |
| Dispatch.WindowOf | lib/host/sdl/base_view.cpp:310-408 | NULL for an event type without a window id or with id 0; otherwise the window SDL finds for the id |
| Dispatch.NewViewState | lib/host/sdl/base_view.cpp:50-70 | a new view_info: empty key map, no resources, no clicks, velocity 1, recorded size 0, mouse outside |
| Dispatch.Lookup | lib/host/sdl/base_view.cpp:73-80 | null for a missing handle or a null entry, the entry otherwise |
| Dispatch.TableIndex | lib/host/sdl/base_view.cpp:416-419 | `operator[]` adds a null entry under a missing handle and changes nothing else |
| Dispatch.TableInsert | lib/host/sdl/base_view.cpp:552 | insert keeps an existing entry, null or not, and otherwise adds the new one |
| Dispatch.TableErase | lib/host/sdl/base_view.cpp:576-579 | erase removes the handle and keeps every other entry |
| Dispatch.PaintOutcome | lib/host/sdl/base_view.cpp:121-161 | one paint: the new resources, the draw call, and the SDL and cairo calls |
| Dispatch.KeyOutcome | lib/host/sdl/base_view.cpp:267-293 | `on_key`: the key map after its `handle_key` calls and the key events they deliver |
| Dispatch.ButtonOutcome | lib/host/sdl/base_view.cpp:187-245 | `get_button` with its report passed to `click`, or to `drag` for motion while dragging |
| Dispatch.CursorOutcome | lib/host/sdl/base_view.cpp:82-86 | one cursor call, and the in-window flag set as given |
| Dispatch.ScrollOutcome | lib/host/sdl/base_view.cpp:486-489 | `on_scroll` with the wheel's vertical delta and a horizontal delta of 0 |
| Dispatch.HandlerOutcome | lib/host/sdl/base_view.cpp:420-531 | the switch of `DoEvent`: which handler each event type runs |
| Dispatch.EventOutcome | lib/host/sdl/base_view.cpp:420-533 | one routed event: the handler, then the final paint |
| Dispatch.DoEventOutcome | lib/host/sdl/base_view.cpp:413-534 | `DoEvent`: no change for a NULL window, a null entry added for a missing one, nothing more for a null entry, otherwise the routed event on that entry |
| Dispatch.UncarriedNeverRouted | lib/host/sdl/base_view.cpp:413-416 | an event without a window id, or with id 0, changes nothing and makes no call |
| Dispatch.ResultIffRegistered | lib/host/sdl/base_view.cpp:413-534 | `DoEvent` returns a value exactly when its window has a non-null entry, and never true. Otherwise it makes no call, does not paint, and leaves the table as it was or with a null entry added |
| Dispatch.OtherWindowsUntouched | lib/host/sdl/base_view.cpp:413-534 | an event changes no other window's entry |
| Dispatch.AlwaysPaintsLast | lib/host/sdl/base_view.cpp:532-533 | every routed event ends with a draw of the whole window and a present |
| Dispatch.ExposedPaintsTwice | lib/host/sdl/base_view.cpp:424-427 | an exposure draws twice and makes no other call |
| Dispatch.EnterAndLeaveReportEntering | lib/host/sdl/base_view.cpp:436-449 | enter and leave both report `entering` at the mouse position, then set the in-window flag and clear it respectively |
| Dispatch.MotionCursor | lib/host/sdl/base_view.cpp:467-483 | motion while dragging goes to `drag` with down set and changes no field; otherwise it reports `entering` and sets the flag if clear, `hovering` if set |
| Dispatch.MotionEntersOnce | lib/host/sdl/base_view.cpp:474-480 | two motions in a row report `entering` once, then `hovering` |
| Dispatch.NeverLeaving | lib/host/sdl/base_view.cpp:436-483 | no event reports `leaving` |
| Dispatch.KeyOutcomeSound | lib/host/sdl/base_view.cpp:267-293 | key handling keeps the key map repeat-free and Print Screen recorded as released |
| Dispatch.PrintScreenEventDelivers | lib/host/sdl/base_view.cpp:284-290 | for a sound view_info, every Print Screen event, key-up or key-down, reaches the view as a press then a release |
| Dispatch.EventKeepsSound | lib/host/sdl/base_view.cpp:413-534 | every handled event keeps the view_info invariant: size 0, no stored repeat, Print Screen released, velocity at least 1 |
| Dispatch.DoEventKeepsSound | lib/host/sdl/base_view.cpp:413-534 | `DoEvent` keeps every entry of the table sound |
| Dispatch.PaintOutcomeIds | lib/host/sdl/base_view.cpp:124-143 | the same for a whole paint of a view_info: with every held id below `id`, it creates only ids `id` to `id + 3` and leaves every held id below `id + 4` |
| Dispatch.EventIdsFresh | lib/host/sdl/base_view.cpp:420-533 | with every held id below `id`, a routed event creates only ids from `id` up to `id` plus the ids of its paints, and leaves every held id below that |
| Dispatch.DoEventIdsFresh | lib/host/sdl/base_view.cpp:413-534 | with every held id below `id`, `DoEvent` only creates resources with ids from `id` to its new counter, none of them held by any entry before, and leaves every held id below the new counter |
| Dispatch.ResizeScenario | lib/host/sdl/base_view.cpp:128-143 | paints of a new window at 100×100, 200×200, 150×150, 250×250, each from the state the previous one left, create a new texture four times |
| Dispatch.PaintAlwaysReallocates | lib/host/sdl/base_view.cpp:128-143 | for a sound view_info, every paint of a non-empty window creates a new texture, surface and context |
| Dispatch.InsertKeepsExisting | lib/host/sdl/base_view.cpp:552 | `make_window` on a handle that has an entry leaves the table as it was |
| Dispatch.StaleNullEntryBlocksRegistration | lib/host/sdl/base_view.cpp:416 | `operator[]` on a handle the table does not hold leaves a null entry that makes a later `insert` of the same handle (line 550) a no-op; without it, the registration succeeds |
| Dispatch.EarlyEventBlocksRegistration | lib/host/sdl/base_view.cpp:414-419 | an event for a window that is not yet registered leaves a null entry, so the `make_window` that registers it afterwards (its `insert` at line 550) is ignored and a later event for it is still not handled |
| Dispatch.TableOpsKeepSound | lib/host/sdl/base_view.cpp:71 | the table operations keep every entry sound |
| BaseView.Host.constructor | lib/host/sdl/base_view.cpp:71 | the table starts empty with no calls made and the id counter at 0 |
| BaseView.Host.MakeWindow | lib/host/sdl/base_view.cpp:542-555 | the handle is the host window or the created one, and the table is `TableInsert` of a new view_info |
| BaseView.Host.Destroy | lib/host/sdl/base_view.cpp:576-579 | the table is `TableErase` of the handle and no call is made |
| BaseView.Host.HandleKey | lib/host/sdl/base_view.cpp:247-265 | the entry's key map becomes `Recorded`, the delivered events are logged as key calls, and the result is the view's answer |
| BaseView.Host.HandleKeys | lib/host/sdl/base_view.cpp:280-289 | one or two `handle_key` calls: the map is `RecordedAll`, the calls are logged in order, and the result is the OR of the answers |
| BaseView.Host.OnTranslatedKey | lib/host/sdl/base_view.cpp:273-292 | the state, calls and result of `on_key` for a translated key, as `KeyOutcome` and `KeyRequests` give them |
| BaseView.Host.OnKey | lib/host/sdl/base_view.cpp:267-293 | as `OnTranslatedKey` for `translate_key` of the scancode and `get_mods` of the keyboard; the table stays sound |
| BaseView.Host.GetButton | lib/host/sdl/base_view.cpp:187-245 | the click fields become `ButtonStep`'s, and the report is `ButtonReport` |
| BaseView.Host.OnCursor | lib/host/sdl/base_view.cpp:82-86 | one cursor call, and the in-window flag is set as given |
| BaseView.Host.OnScroll | lib/host/sdl/base_view.cpp:88-119 | the scroll fields become `ScrollStep`'s, and one scroll call carries `ScrollDelta` |
| BaseView.Host.OnPaint | lib/host/sdl/base_view.cpp:121-161 | the resources, draw call and SDL calls of `PaintOutcome` from the counter on, the counter advanced by 4, and the texture memory as `Copied` |
| BaseView.Host.Refresh | lib/host/sdl/base_view.cpp:599-605 | a missing or null entry gives a null entry, no paint and no change to the memory; a registered window is painted from the counter on, and the counter advances by 4 |
| BaseView.Host.RefreshArea | lib/host/sdl/base_view.cpp:607-609 | the same as `Refresh`, whatever the area |
| BaseView.Host.RunHandler | lib/host/sdl/base_view.cpp:428-531 | the switch of `DoEvent` for every event but an exposure: the state and calls of `HandlerOutcome`, the counter unchanged |
| BaseView.Host.PaintAfterHandler | lib/host/sdl/base_view.cpp:420-533 | the handler and then the final paint, as `EventOutcome` gives them, the counter advanced by `EventIds` |
| BaseView.Host.HandleThenPaint | lib/host/sdl/base_view.cpp:428-533 | any event but an exposure: `HandlerOutcome`, then `PaintOutcome` of its state, the counter advanced by 4 |
| BaseView.Host.PaintExposed | lib/host/sdl/base_view.cpp:424-427 | an exposure: two `PaintOutcome`s in a row, the second from the ids after the first, the memory copied once as `Copied` |
| BaseView.Host.DoEvent | lib/host/sdl/base_view.cpp:413-534 | the table, calls, result, id counter and texture memory of `DoEventOutcome`; the table stays sound and every held id stays below the counter |
| AppPaths.Parent | lib/host/sdl/app.cpp:37 | the parent drops the last name; the root and the empty path are their own parent |
| AppPaths.FileName | lib/host/sdl/app.cpp:39 | the last name, or empty for a path without names |
| AppPaths.Join | lib/host/sdl/app.cpp:41 | appending a name gives a path whose file name is that name and whose parent is the original |
| AppPaths.ShareResources | lib/host/sdl/app.cpp:41 | the installed candidate: `share/<program>/resources` beside the program's `bin` directory |
| AppPaths.LocalResources | lib/host/sdl/app.cpp:46 | the candidate next to the program: `resources` in the program's directory |
| AppPaths.FindResources | lib/host/sdl/app.cpp:35-51 | the result ends in `resources`, is one of the three candidates, and is either a directory or the working-directory fallback |
| AppPaths.InstalledLayoutWins | lib/host/sdl/app.cpp:39-44 | in a `bin` directory, an existing `share/<program>/resources` is returned even when `resources` next to the program exists |
| AppPaths.CandidatesDiffer | lib/host/sdl/app.cpp:41-46 | the installed candidate and the local candidate are never the same path |
| AppPaths.ShareOnlyUnderBin | lib/host/sdl/app.cpp:39 | outside a `bin` directory, the result does not depend on whether the share path exists |
| AppPaths.LocalResourcesWhen | lib/host/sdl/app.cpp:46-48 | `resources` next to the program is returned when it exists and the installed layout does not apply; any result that is neither the installed candidate nor the fallback is that directory, and it exists |
| AppPaths.FallbackWhenNothingFound | lib/host/sdl/app.cpp:50 | with neither candidate existing, the result is `resources` under the working directory |
| AppPaths.FindsAnExistingCandidate | lib/host/sdl/app.cpp:39-48 | whenever a consulted candidate exists, the result is an existing directory |
| AppPaths.InstalledScenario | lib/host/sdl/app.cpp:39-44 | `/usr/local/bin/app` finds `/usr/local/share/app/resources` |

## Left out

- on_text (lib/host/sdl/base_view.cpp:295-308): its code points come from `SDL_iconv_utf8_ucs4`, which this model cannot see. A text-input event is one `TextCall` entry in the call log, without its contents.
- lib/host/sdl/window.cpp, `app::run` and its poll loop, `init_app`, `app_data_path`: I/O and start-up, not state this core keeps.
- The clipboard, `set_cursor`, `cursor_pos`, `size`, `hdpi_scale`, `scroll_direction`: these pass through to the platform.
- SDL and cairo themselves. Resource creation is assumed to succeed. A created resource is a token whose id comes from the host's counter `nextId`; the real SDL and cairo handles are pointers, which the model does not see. Failure returns of SDL calls are not modelled.
- make_window's window position and size (SDL_SetWindowPosition, SDL_SetWindowSize), and the bounds the two base_view constructors compute: only the handle and the table insert are modelled.
- The `vptr` null test of on_paint: every entry's view pointer is set when the entry is made, so it is taken as non-null.
- The leaked `view_info` and its resources after `~base_view`: the table entry is erased and the object is simply no longer reachable.
- The SDL_Event union: `windowId`, the button code, the pointer position and the wheel delta are read as plain fields, whatever the event type.
- Scroll.ScrollStep: the velocity is an exact `real`, not a C++ `double`, so rounding in repeated multiplication by 1.1 is not modelled, nor is the overflow to infinity a `double` reaches after about 7,450 wheel events without a reset; the `real` velocity grows without bound.
- Gestures.ButtonStep, Scroll.ResetsAcceleration: times are whole milliseconds, while the C++ compares `steady_clock` durations with `milliseconds(200)` and `milliseconds(250)` (lib/host/sdl/base_view.cpp:97, 197). A gap that differs from the threshold by less than 1 ms, such as 200.4 ms, which starts a new click run in the C++, is not modelled.
- Paint.CopyRows: requires the rows to fit in both buffers (the pitch at least 4w, the memory at least large enough). The C++ relies on SDL to hand out such buffers; a copy outside them is not modelled. BaseView.Host.OnPaint, Refresh, RefreshArea, PaintAfterHandler, HandleThenPaint, PaintExposed and DoEvent carry the same requirement.
- BaseView.Host.DoEvent: where the C++ reaches the end of `DoEvent` without a `return` (a NULL window or a null entry), the model returns `None` rather than any particular value.
- AppPaths.FindResources: `fs::is_directory` and `fs::current_path` (lib/host/sdl/app.cpp:42, 47, 50) throw `filesystem_error` when a status query fails for a reason other than a missing file, or when the working directory cannot be read. The model takes the directory test and the working directory as total parameters, so that error path is not modelled.
- AppPaths.Path: a path is its root flag and names. Trailing separators, `.` and `..` names and the other lexical details of `std::filesystem::path` are not modelled.
- KeyTracker.Stored: a key never seen reads as release because `std::map::operator[]` value-initialises a missing `key_action`, which is `release` only if that is the enum's zero value. The enum is defined in a header that is not part of this model; the model assumes `release` is its zero value.
- BaseView.Host.keyAnswer: the view's answer to a key event is a fixed function of the view and the event, so a view whose answer depends on its own history is not represented. The proved properties (the OR of the answers, `KeyTracker.AnyConsumedAppend`) hold for any answers.
- Input.GetMods: the C++ mask is an `int` built from the `mod_shift`, `mod_control`, `mod_alt`, `mod_super` and `mod_action` bit values, which are defined in a header that is not part of this model. The model takes them as five distinct flags, so "super iff a super key is down" holds for the C++ mask only if `mod_action` shares no bit with `mod_super` (or with any other flag).
- BaseView.Host.PaintExposed, BaseView.Host.DoEvent: one array stands for the memory every `SDL_LockTexture` returns. A paint that creates a new texture locks that texture's own buffer in the C++, so in an exposure the second copy goes to a different buffer than the first; separate buffers per texture are not modelled.
- Keys.TranslateKey: scancodes are SDL's numeric values; `translate_key` reads its scancode from the event, and here it takes the scancode itself.
