/** The portable input values the SDL host hands to a view (lib/host/sdl/base_view.cpp), and the
    modifier mask it reads from SDL's keyboard state (get_mods). */
module Input {
  import opened Keys

  /** Milliseconds on the host's steady clock. The clock itself is not modelled; handlers receive
      the current time as a parameter. */
  type Millis = int

  /** A pointer position or a scroll delta. The host passes SDL's float coordinates through. */
  datatype Point = Point(x: real, y: real)

  datatype KeyAction = Release | Press | Repeat

  /** The modifier flags of a key or mouse event. mod_action is set whenever mod_control is. */
  datatype Modifier = Shift | Control | Alt | Super | Action

  /** A key event as delivered to the view. */
  datatype KeyInfo = KeyInfo(key: KeyCode, action: KeyAction, mods: set<Modifier>)

  datatype ButtonKind = LeftButton | MiddleButton | RightButton

  /** A mouse event as delivered to the view's click and drag handlers. */
  datatype MouseButton = MouseButton(down: bool, count: int, which: ButtonKind, mods: set<Modifier>, pos: Point)

  /** The portable cursor-tracking tags; the host never produces Leaving. */
  datatype CursorTracking = Entering | Hovering | Leaving

  /** SDL's mouse button numbers. */
  const SDL_BUTTON_LEFT: int := 1
  const SDL_BUTTON_MIDDLE: int := 2
  const SDL_BUTTON_RIGHT: int := 3

  /** The button-mapping lambda of get_button: any code other than SDL's three is taken as left. */
  function ButtonFor(code: int): (b: ButtonKind)
    ensures b == MiddleButton <==> code == SDL_BUTTON_MIDDLE
    ensures b == RightButton <==> code == SDL_BUTTON_RIGHT
    ensures b == LeftButton <==> code != SDL_BUTTON_MIDDLE && code != SDL_BUTTON_RIGHT
  {
    if code == SDL_BUTTON_LEFT then LeftButton
    else if code == SDL_BUTTON_MIDDLE then MiddleButton
    else if code == SDL_BUTTON_RIGHT then RightButton
    else LeftButton
  }

  /** The entries of SDL's keyboard-state array that get_mods reads: whether each key is down. */
  datatype KeyboardState = KeyboardState(
    leftShift: bool, rightShift: bool,
    leftControl: bool, rightControl: bool,
    menu: bool,
    leftSuper: bool, rightSuper: bool)

  /** get_mods: one flag per pair of keys. Control sets mod_action as well; the Menu key (not Alt)
      sets mod_alt. */
  function GetMods(ks: KeyboardState): (m: set<Modifier>)
    ensures Shift in m <==> ks.leftShift || ks.rightShift
    ensures Control in m <==> ks.leftControl || ks.rightControl
    ensures Action in m <==> Control in m
    ensures Alt in m <==> ks.menu
    ensures Super in m <==> ks.leftSuper || ks.rightSuper
  {
    (if ks.leftShift || ks.rightShift then {Shift} else {})
    + (if ks.leftControl || ks.rightControl then {Control, Action} else {})
    + (if ks.menu then {Alt} else {})
    + (if ks.leftSuper || ks.rightSuper then {Super} else {})
  }
}
