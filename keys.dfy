/** The scancode-to-key-code table of the SDL host (lib/host/sdl/key.cpp). */
module Keys {

  /** An SDL scancode; SDL numbers its scancodes by USB usage id. */
  type Scancode = int

  /** The portable key codes the table produces, plus the three (left and right super, world 2)
      whose cases are commented out of the table. */
  datatype KeyCode =
    | Unknown
    | Digit0
    | Digit1
    | Digit2
    | Digit3
    | Digit4
    | Digit5
    | Digit6
    | Digit7
    | Digit8
    | Digit9
    | A
    | B
    | C
    | D
    | E
    | F
    | G
    | H
    | I
    | J
    | K
    | L
    | M
    | N
    | O
    | P
    | Q
    | R
    | S
    | T
    | U
    | V
    | W
    | X
    | Y
    | Z
    | Apostrophe
    | Backslash
    | Comma
    | Equal
    | GraveAccent
    | LeftBracket
    | Minus
    | Period
    | RightBracket
    | Semicolon
    | Slash
    | Backspace
    | Delete
    | End
    | Enter
    | Escape
    | Home
    | Insert
    | Menu
    | PageDown
    | PageUp
    | Pause
    | Space
    | Tab
    | CapsLock
    | NumLock
    | ScrollLock
    | F1
    | F2
    | F3
    | F4
    | F5
    | F6
    | F7
    | F8
    | F9
    | F10
    | F11
    | F12
    | F13
    | F14
    | F15
    | F16
    | F17
    | F18
    | F19
    | F20
    | F21
    | F22
    | F23
    | F24
    | LeftAlt
    | LeftControl
    | LeftShift
    | PrintScreen
    | RightAlt
    | RightControl
    | RightShift
    | Down
    | Left
    | Right
    | Up
    | Kp0
    | Kp1
    | Kp2
    | Kp3
    | Kp4
    | Kp5
    | Kp6
    | Kp7
    | Kp8
    | Kp9
    | KpAdd
    | KpDecimal
    | KpDivide
    | KpEnter
    | KpEqual
    | KpMultiply
    | KpSubtract
    | LeftSuper
    | RightSuper
    | World2

  /** SDL's numbers for the scancodes the host code refers to by name. */
  const SCANCODE_LSHIFT: Scancode := 225
  const SCANCODE_RSHIFT: Scancode := 229
  const SCANCODE_PRINTSCREEN: Scancode := 70
  const SCANCODE_KP_MINUS: Scancode := 86
  /** Scancodes that SDL defines and the table does not list, although the portable code exists:
      the super keys and SDL's second non-US key (the world-2 key). */
  const SCANCODE_LGUI: Scancode := 227
  const SCANCODE_RGUI: Scancode := 231
  const SCANCODE_NONUSBACKSLASH: Scancode := 100
  /** SDL's keypad period key; the table lists the keypad decimal key (220) instead. */
  const SCANCODE_KP_PERIOD: Scancode := 99

  /** The scancodes the switch has a case for: SDL's numbers for them form these runs. */
  predicate Listed(s: Scancode) {
    || 4 <= s <= 49
    || 51 <= s <= 98
    || 103 <= s <= 115
    || s == 118
    || s == 220
    || 224 <= s <= 226
    || 228 <= s <= 230
  }

  /** The key codes whose cases are commented out of the switch. */
  const COMMENTED_OUT: set<KeyCode> := {LeftSuper, RightSuper, World2}

  /** translate_key: one switch over the scancode whose default case is Unknown. A switch has no
      order, so its cases are written here grouped by scancode, ten to a group. */
  function TranslateKey(s: Scancode): KeyCode {
    if s < 14 then Keys4To13(s)
    else if s < 24 then Keys14To23(s)
    else if s < 34 then Keys24To33(s)
    else if s < 44 then Keys34To43(s)
    else if s < 55 then Keys44To54(s)
    else if s < 65 then Keys55To64(s)
    else if s < 75 then Keys65To74(s)
    else if s < 85 then Keys75To84(s)
    else if s < 95 then Keys85To94(s)
    else if s < 109 then Keys95To108(s)
    else if s < 225 then Keys109To224(s)
    else Keys225To230(s)
  }

  /** The cases for scancodes 4 to 13. */
  function Keys4To13(s: Scancode): KeyCode {
    if s == 4 then A  // A
    else if s == 5 then B  // B
    else if s == 6 then C  // C
    else if s == 7 then D  // D
    else if s == 8 then E  // E
    else if s == 9 then F  // F
    else if s == 10 then G  // G
    else if s == 11 then H  // H
    else if s == 12 then I  // I
    else if s == 13 then J  // J
    else Unknown
  }

  /** The cases for scancodes 14 to 23. */
  function Keys14To23(s: Scancode): KeyCode {
    if s == 14 then K  // K
    else if s == 15 then L  // L
    else if s == 16 then M  // M
    else if s == 17 then N  // N
    else if s == 18 then O  // O
    else if s == 19 then P  // P
    else if s == 20 then Q  // Q
    else if s == 21 then R  // R
    else if s == 22 then S  // S
    else if s == 23 then T  // T
    else Unknown
  }

  /** The cases for scancodes 24 to 33. */
  function Keys24To33(s: Scancode): KeyCode {
    if s == 24 then U  // U
    else if s == 25 then V  // V
    else if s == 26 then W  // W
    else if s == 27 then X  // X
    else if s == 28 then Y  // Y
    else if s == 29 then Z  // Z
    else if s == 30 then Digit1  // 1
    else if s == 31 then Digit2  // 2
    else if s == 32 then Digit3  // 3
    else if s == 33 then Digit4  // 4
    else Unknown
  }

  /** The cases for scancodes 34 to 43. */
  function Keys34To43(s: Scancode): KeyCode {
    if s == 34 then Digit5  // 5
    else if s == 35 then Digit6  // 6
    else if s == 36 then Digit7  // 7
    else if s == 37 then Digit8  // 8
    else if s == 38 then Digit9  // 9
    else if s == 39 then Digit0  // 0
    else if s == 40 then Enter  // RETURN
    else if s == 41 then Escape  // ESCAPE
    else if s == 42 then Backspace  // BACKSPACE
    else if s == 43 then Tab  // TAB
    else Unknown
  }

  /** The cases for scancodes 44 to 54. */
  function Keys44To54(s: Scancode): KeyCode {
    if s == 44 then Space  // SPACE
    else if s == 45 then Minus  // MINUS
    else if s == 46 then Equal  // EQUALS
    else if s == 47 then LeftBracket  // LEFTBRACKET
    else if s == 48 then RightBracket  // RIGHTBRACKET
    else if s == 49 then Backslash  // BACKSLASH
    else if s == 51 then Semicolon  // SEMICOLON
    else if s == 52 then Apostrophe  // APOSTROPHE
    else if s == 53 then GraveAccent  // GRAVE
    else if s == 54 then Comma  // COMMA
    else Unknown
  }

  /** The cases for scancodes 55 to 64. */
  function Keys55To64(s: Scancode): KeyCode {
    if s == 55 then Period  // PERIOD
    else if s == 56 then Slash  // SLASH
    else if s == 57 then CapsLock  // CAPSLOCK
    else if s == 58 then F1  // F1
    else if s == 59 then F2  // F2
    else if s == 60 then F3  // F3
    else if s == 61 then F4  // F4
    else if s == 62 then F5  // F5
    else if s == 63 then F6  // F6
    else if s == 64 then F7  // F7
    else Unknown
  }

  /** The cases for scancodes 65 to 74. */
  function Keys65To74(s: Scancode): KeyCode {
    if s == 65 then F8  // F8
    else if s == 66 then F9  // F9
    else if s == 67 then F10  // F10
    else if s == 68 then F11  // F11
    else if s == 69 then F12  // F12
    else if s == 70 then PrintScreen  // PRINTSCREEN
    else if s == 71 then ScrollLock  // SCROLLLOCK
    else if s == 72 then Pause  // PAUSE
    else if s == 73 then Insert  // INSERT
    else if s == 74 then Home  // HOME
    else Unknown
  }

  /** The cases for scancodes 75 to 84. */
  function Keys75To84(s: Scancode): KeyCode {
    if s == 75 then PageUp  // PAGEUP
    else if s == 76 then Delete  // DELETE
    else if s == 77 then End  // END
    else if s == 78 then PageDown  // PAGEDOWN
    else if s == 79 then Right  // RIGHT
    else if s == 80 then Left  // LEFT
    else if s == 81 then Down  // DOWN
    else if s == 82 then Up  // UP
    else if s == 83 then NumLock  // NUMLOCKCLEAR
    else if s == 84 then KpDivide  // KP_DIVIDE
    else Unknown
  }

  /** The cases for scancodes 85 to 94. */
  function Keys85To94(s: Scancode): KeyCode {
    if s == 85 then KpMultiply  // KP_MULTIPLY
    else if s == 86 then KpSubtract  // KP_MINUS
    else if s == 87 then KpAdd  // KP_PLUS
    else if s == 88 then KpEnter  // KP_ENTER
    else if s == 89 then Kp1  // KP_1
    else if s == 90 then Kp2  // KP_2
    else if s == 91 then Kp3  // KP_3
    else if s == 92 then Kp4  // KP_4
    else if s == 93 then Kp5  // KP_5
    else if s == 94 then Kp6  // KP_6
    else Unknown
  }

  /** The cases for scancodes 95 to 108. */
  function Keys95To108(s: Scancode): KeyCode {
    if s == 95 then Kp7  // KP_7
    else if s == 96 then Kp8  // KP_8
    else if s == 97 then Kp9  // KP_9
    else if s == 98 then Kp0  // KP_0
    else if s == 103 then KpEqual  // KP_EQUALS
    else if s == 104 then F13  // F13
    else if s == 105 then F14  // F14
    else if s == 106 then F15  // F15
    else if s == 107 then F16  // F16
    else if s == 108 then F17  // F17
    else Unknown
  }

  /** The cases for scancodes 109 to 224. */
  function Keys109To224(s: Scancode): KeyCode {
    if s == 109 then F18  // F18
    else if s == 110 then F19  // F19
    else if s == 111 then F20  // F20
    else if s == 112 then F21  // F21
    else if s == 113 then F22  // F22
    else if s == 114 then F23  // F23
    else if s == 115 then F24  // F24
    else if s == 118 then Menu  // MENU
    else if s == 220 then KpDecimal  // KP_DECIMAL
    else if s == 224 then LeftControl  // LCTRL
    else Unknown
  }

  /** The cases for scancodes 225 to 230. */
  function Keys225To230(s: Scancode): KeyCode {
    if s == 225 then LeftShift  // LSHIFT
    else if s == 226 then LeftAlt  // LALT
    else if s == 228 then RightControl  // RCTRL
    else if s == 229 then RightShift  // RSHIFT
    else if s == 230 then RightAlt  // RALT
    else Unknown
  }

  /** No scancode outside the group Keys4To13 yields the key of a scancode inside it. */
  lemma Keys4To13Distinct(s: Scancode, t: Scancode)
    requires s < 14
    requires TranslateKey(s) == TranslateKey(t) != Unknown
    ensures s == t
  {
  }

  /** No scancode outside the group Keys14To23 yields the key of a scancode inside it. */
  lemma Keys14To23Distinct(s: Scancode, t: Scancode)
    requires 14 <= s && s < 24
    requires TranslateKey(s) == TranslateKey(t) != Unknown
    ensures s == t
  {
  }

  /** No scancode outside the group Keys24To33 yields the key of a scancode inside it. */
  lemma Keys24To33Distinct(s: Scancode, t: Scancode)
    requires 24 <= s && s < 34
    requires TranslateKey(s) == TranslateKey(t) != Unknown
    ensures s == t
  {
  }

  /** No scancode outside the group Keys34To43 yields the key of a scancode inside it. */
  lemma Keys34To43Distinct(s: Scancode, t: Scancode)
    requires 34 <= s && s < 44
    requires TranslateKey(s) == TranslateKey(t) != Unknown
    ensures s == t
  {
  }

  /** No scancode outside the group Keys44To54 yields the key of a scancode inside it. */
  lemma Keys44To54Distinct(s: Scancode, t: Scancode)
    requires 44 <= s && s < 55
    requires TranslateKey(s) == TranslateKey(t) != Unknown
    ensures s == t
  {
  }

  /** No scancode outside the group Keys55To64 yields the key of a scancode inside it. */
  lemma Keys55To64Distinct(s: Scancode, t: Scancode)
    requires 55 <= s && s < 65
    requires TranslateKey(s) == TranslateKey(t) != Unknown
    ensures s == t
  {
  }

  /** No scancode outside the group Keys65To74 yields the key of a scancode inside it. */
  lemma Keys65To74Distinct(s: Scancode, t: Scancode)
    requires 65 <= s && s < 75
    requires TranslateKey(s) == TranslateKey(t) != Unknown
    ensures s == t
  {
  }

  /** No scancode outside the group Keys75To84 yields the key of a scancode inside it. */
  lemma Keys75To84Distinct(s: Scancode, t: Scancode)
    requires 75 <= s && s < 85
    requires TranslateKey(s) == TranslateKey(t) != Unknown
    ensures s == t
  {
  }

  /** No scancode outside the group Keys85To94 yields the key of a scancode inside it. */
  lemma Keys85To94Distinct(s: Scancode, t: Scancode)
    requires 85 <= s && s < 95
    requires TranslateKey(s) == TranslateKey(t) != Unknown
    ensures s == t
  {
  }

  /** No scancode outside the group Keys95To108 yields the key of a scancode inside it. */
  lemma Keys95To108Distinct(s: Scancode, t: Scancode)
    requires 95 <= s && s < 109
    requires TranslateKey(s) == TranslateKey(t) != Unknown
    ensures s == t
  {
  }

  /** No scancode outside the group Keys109To224 yields the key of a scancode inside it. */
  lemma Keys109To224Distinct(s: Scancode, t: Scancode)
    requires 109 <= s && s < 225
    requires TranslateKey(s) == TranslateKey(t) != Unknown
    ensures s == t
  {
  }

  /** No scancode outside the group Keys225To230 yields the key of a scancode inside it. */
  lemma Keys225To230Distinct(s: Scancode, t: Scancode)
    requires 225 <= s
    requires TranslateKey(s) == TranslateKey(t) != Unknown
    ensures s == t
  {
  }

  /** The default case is taken exactly for the scancodes no case names. */
  lemma UnknownIffUnlisted(s: Scancode)
    ensures TranslateKey(s) == Unknown <==> !Listed(s)
  {
  }

  /** No two scancodes are translated to the same real key. */
  lemma TranslateKeyInjective(s: Scancode, t: Scancode)
    requires TranslateKey(s) == TranslateKey(t) != Unknown
    ensures s == t
  {
    if s < 14 { Keys4To13Distinct(s, t); }
    else if s < 24 { Keys14To23Distinct(s, t); }
    else if s < 34 { Keys24To33Distinct(s, t); }
    else if s < 44 { Keys34To43Distinct(s, t); }
    else if s < 55 { Keys44To54Distinct(s, t); }
    else if s < 65 { Keys55To64Distinct(s, t); }
    else if s < 75 { Keys65To74Distinct(s, t); }
    else if s < 85 { Keys75To84Distinct(s, t); }
    else if s < 95 { Keys85To94Distinct(s, t); }
    else if s < 109 { Keys95To108Distinct(s, t); }
    else if s < 225 { Keys109To224Distinct(s, t); }
    else { Keys225To230Distinct(s, t); }
  }

  /** The codes whose cases are commented out of the switch are never produced. */
  lemma CommentedOutCodesNeverProduced(s: Scancode)
    ensures TranslateKey(s) !in COMMENTED_OUT
  {
  }

  /** The scancodes of the super keys and of SDL's world-2 key fall to the default case. */
  lemma UnlistedScancodesUnknown()
    ensures TranslateKey(SCANCODE_LGUI) == Unknown
    ensures TranslateKey(SCANCODE_RGUI) == Unknown
    ensures TranslateKey(SCANCODE_NONUSBACKSLASH) == Unknown
  {
  }

  /** The keypad's period key falls to the default case: the only case yielding the keypad decimal
      key names SDL's separate keypad decimal scancode. */
  lemma KeypadPeriodUnknown()
    ensures TranslateKey(SCANCODE_KP_PERIOD) == Unknown
    ensures TranslateKey(220) == KpDecimal
  {
  }

  /** The commented-out world-2 case names 0x056, which SDL assigns to the keypad minus key: that
      scancode yields the keypad subtract key, not world 2. */
  lemma WorldTwoHexIsKeypadMinus()
    ensures 0x056 == SCANCODE_KP_MINUS
    ensures TranslateKey(0x056) == KpSubtract
  {
  }

  /** The scancodes the key handler treats specially are translated to the keys it tests for. */
  lemma KeysTheHostNames()
    ensures TranslateKey(SCANCODE_LSHIFT) == LeftShift
    ensures TranslateKey(SCANCODE_RSHIFT) == RightShift
    ensures TranslateKey(SCANCODE_PRINTSCREEN) == PrintScreen
  {
  }


  // -------------------------------------------------------------------------------------------
  // The runs of the table

  const LETTERS: seq<KeyCode> := [A, B, C, D, E, F, G, H, I, J, K, L, M, N, O, P, Q, R, S, T, U, V, W, X, Y, Z]
  const DIGITS: seq<KeyCode> := [Digit0, Digit1, Digit2, Digit3, Digit4, Digit5, Digit6, Digit7, Digit8, Digit9]
  const FUNCTION_KEYS: seq<KeyCode> :=
    [F1, F2, F3, F4, F5, F6, F7, F8, F9, F10, F11, F12, F13, F14, F15, F16, F17, F18, F19, F20, F21, F22, F23, F24]
  const KEYPAD_DIGITS: seq<KeyCode> := [Kp0, Kp1, Kp2, Kp3, Kp4, Kp5, Kp6, Kp7, Kp8, Kp9]

  /** SDL_SCANCODE_A; the letters follow it in alphabetical order. */
  const SCANCODE_A: Scancode := 4

  /** SDL's scancode for a digit key: 1 to 9 run from 30, and 0 comes after 9. */
  function DigitScancode(d: nat): Scancode
    requires d < 10
  {
    if d == 0 then 39 else 29 + d
  }

  /** SDL's scancode for function key n: F1 to F12 run from 58, F13 to F24 from 104. */
  function FunctionScancode(n: nat): Scancode
    requires 1 <= n <= 24
  {
    if n <= 12 then 57 + n else 91 + n
  }

  /** SDL's scancode for a keypad digit: 1 to 9 run from 89, and 0 comes after 9. */
  function KeypadDigitScancode(d: nat): Scancode
    requires d < 10
  {
    if d == 0 then 98 else 88 + d
  }

  /** The letter keys map to the letter codes in order. */
  lemma LettersInOrder(i: nat)
    requires i < 26
    ensures TranslateKey(SCANCODE_A + i) == LETTERS[i]
  {
    if i < 10 {
      assert TranslateKey(SCANCODE_A + i) == Keys4To13(SCANCODE_A + i);
    } else if i < 20 {
      assert TranslateKey(SCANCODE_A + i) == Keys14To23(SCANCODE_A + i);
    } else {
      assert TranslateKey(SCANCODE_A + i) == Keys24To33(SCANCODE_A + i);
    }
  }

  /** The digit keys map to the digit codes in order. */
  lemma DigitsInOrder(d: nat)
    requires d < 10
    ensures TranslateKey(DigitScancode(d)) == DIGITS[d]
  {
    if d == 0 || d >= 5 {
      assert TranslateKey(DigitScancode(d)) == Keys34To43(DigitScancode(d));
    } else {
      assert TranslateKey(DigitScancode(d)) == Keys24To33(DigitScancode(d));
    }
  }

  /** F1 to F12, the run from scancode 58. */
  lemma FunctionKeysLowInOrder(n: nat)
    requires 1 <= n <= 12
    ensures TranslateKey(FunctionScancode(n)) == FUNCTION_KEYS[n - 1]
  {
    // The same range appears in two branches to keep each case analysis small.
    if n <= 3 {
      assert TranslateKey(57 + n) == Keys55To64(57 + n);
    } else if n <= 7 {
      assert TranslateKey(57 + n) == Keys55To64(57 + n);
    } else {
      assert TranslateKey(57 + n) == Keys65To74(57 + n);
    }
  }

  /** F13 to F24, the run from scancode 104. */
  lemma FunctionKeysHighInOrder(n: nat)
    requires 13 <= n <= 24
    ensures TranslateKey(FunctionScancode(n)) == FUNCTION_KEYS[n - 1]
  {
    // The same range appears in two branches to keep each case analysis small.
    if n <= 17 {
      assert TranslateKey(91 + n) == Keys95To108(91 + n);
    } else if n <= 21 {
      assert TranslateKey(91 + n) == Keys109To224(91 + n);
    } else {
      assert TranslateKey(91 + n) == Keys109To224(91 + n);
    }
  }

  /** The function keys F1 to F24 map to the function key codes in order. */
  lemma FunctionKeysInOrder(n: nat)
    requires 1 <= n <= 24
    ensures TranslateKey(FunctionScancode(n)) == FUNCTION_KEYS[n - 1]
  {
    if n <= 12 {
      FunctionKeysLowInOrder(n);
    } else {
      FunctionKeysHighInOrder(n);
    }
  }

  /** The keypad digit keys map to the keypad digit codes in order. */
  lemma KeypadDigitsInOrder(d: nat)
    requires d < 10
    ensures TranslateKey(KeypadDigitScancode(d)) == KEYPAD_DIGITS[d]
  {
    if 1 <= d <= 6 {
      assert TranslateKey(88 + d) == Keys85To94(88 + d);
    } else {
      assert TranslateKey(KeypadDigitScancode(d)) == Keys95To108(KeypadDigitScancode(d));
    }
  }
}
