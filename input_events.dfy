/**
 * The engine's event model: keyboard and mouse occurrences as values, the
 * raw device events they are translated from, and the two pure translations
 * the dispatcher uses (mouse-button classification and the character a
 * key-down types).
 *
 * Key and button codes are those of SDL 1.2, the platform layer the engine
 * polls.
 */
module InputEvents {
  import opened Outcomes

  const SDLK_RETURN := 13
  const SDLK_ESCAPE := 27
  const SDLK_QUOTE := 39
  const SDLK_COMMA := 44
  const SDLK_MINUS := 45
  const SDLK_PERIOD := 46
  const SDLK_SLASH := 47
  const SDLK_0 := 48
  const SDLK_9 := 57
  const SDLK_SEMICOLON := 59
  const SDLK_EQUALS := 61
  const SDLK_LEFTBRACKET := 91
  const SDLK_BACKSLASH := 92
  const SDLK_RIGHTBRACKET := 93
  const SDLK_BACKQUOTE := 96
  const SDLK_a := 97
  const SDLK_z := 122
  const SDLK_KP_ENTER := 271
  const SDLK_RSHIFT := 303
  const SDLK_LSHIFT := 304
  /** Number of key codes: the held-key table has one slot per code in [0, SDLK_LAST). */
  const SDLK_LAST := 323

  const SDL_BUTTON_LEFT := 1
  const SDL_BUTTON_MIDDLE := 2
  const SDL_BUTTON_RIGHT := 3
  const SDL_BUTTON_WHEELUP := 4
  const SDL_BUTTON_WHEELDOWN := 5

  /** The four key states; KeyStateCode stands for any other integer a script casts to the enum. */
  datatype KeyState = KeyUp | KeyDown | KeyPressed | KeyTyped | KeyStateCode(code: int)

  datatype MouseState =
    | Unhandled
    | MouseMotion
    | MouseLUp | MouseLDown
    | MouseMUp | MouseMDown
    | MouseRUp | MouseRDown
    | MouseWUp | MouseWDown

  /** An engine input event; equal fields mean equal events, so events can key the binding map. */
  datatype InputEvent =
    | Key(kstate: KeyState, key: int)
    | Mouse(mstate: MouseState, mx: int, my: int)

  /** A raw event drained from the platform queue. */
  datatype DeviceEvent =
    | QuitRequest
    | KeyDownEvent(sym: int)
    | KeyUpEvent(sym: int)
    | MotionEvent(x: int, y: int)
    | ButtonDownEvent(button: int, x: int, y: int)
    | ButtonUpEvent(button: int, x: int, y: int)
    | OtherEvent

  /** The integer the C enum gives a key state. */
  function KeyStateNumber(s: KeyState): int {
    match s
    case KeyUp => 0
    case KeyDown => 1
    case KeyPressed => 2
    case KeyTyped => 3
    case KeyStateCode(n) => n
  }

  /** The key state a script's integer is cast to; named states for 0..3, an unnamed one otherwise. */
  function KeyStateOf(n: int): (s: KeyState)
    ensures KeyStateNumber(s) == n
    ensures s.KeyStateCode? <==> !(0 <= n <= 3)
  {
    if n == 0 then KeyUp
    else if n == 1 then KeyDown
    else if n == 2 then KeyPressed
    else if n == 3 then KeyTyped
    else KeyStateCode(n)
  }

  predicate IsRelease(m: MouseState) {
    m.MouseLUp? || m.MouseMUp? || m.MouseRUp? || m.MouseWUp? || m.MouseWDown?
  }

  /** The physical button a button state stands for (the inverse of CheckMouseState). */
  function ButtonOf(m: MouseState): int
    requires !m.Unhandled? && !m.MouseMotion?
  {
    match m
    case MouseLUp => SDL_BUTTON_LEFT
    case MouseLDown => SDL_BUTTON_LEFT
    case MouseMUp => SDL_BUTTON_MIDDLE
    case MouseMDown => SDL_BUTTON_MIDDLE
    case MouseRUp => SDL_BUTTON_RIGHT
    case MouseRDown => SDL_BUTTON_RIGHT
    case MouseWUp => SDL_BUTTON_WHEELUP
    case MouseWDown => SDL_BUTTON_WHEELDOWN
  }

  /**
   * Classifies a button transition. The three buttons map to their up and
   * down states; a wheel notch yields an event on release only; anything
   * else is unhandled.
   */
  function CheckMouseState(button: int, up: bool): (m: MouseState)
    ensures m.Unhandled? <==>
      !(SDL_BUTTON_LEFT <= button <= SDL_BUTTON_RIGHT
        || (up && (button == SDL_BUTTON_WHEELUP || button == SDL_BUTTON_WHEELDOWN)))
    ensures !m.MouseMotion?
    ensures !m.Unhandled? ==> ButtonOf(m) == button && (IsRelease(m) <==> up)
  {
    if button == SDL_BUTTON_LEFT then (if up then MouseLUp else MouseLDown)
    else if button == SDL_BUTTON_MIDDLE then (if up then MouseMUp else MouseMDown)
    else if button == SDL_BUTTON_RIGHT then (if up then MouseRUp else MouseRDown)
    else if button == SDL_BUTTON_WHEELUP then (if up then MouseWUp else Unhandled)
    else if button == SDL_BUTTON_WHEELDOWN then (if up then MouseWDown else Unhandled)
    else Unhandled
  }

  /** What shift turns each digit key 0..9 into on an American keyboard. */
  const SHIFTED_DIGITS: string := ")!@#$%^&*("

  /** What shift turns each punctuation key into; semicolon is listed but stays ';'. */
  const SHIFTED_PUNCTUATION: map<int, char> := map[
    SDLK_QUOTE := '"',
    SDLK_SEMICOLON := ';',
    SDLK_BACKQUOTE := '~',
    SDLK_MINUS := '_',
    SDLK_SLASH := '?',
    SDLK_COMMA := '<',
    SDLK_PERIOD := '>',
    SDLK_BACKSLASH := '|',
    SDLK_LEFTBRACKET := '{',
    SDLK_RIGHTBRACKET := '}',
    SDLK_EQUALS := '+'
  ]

  /** The character code a key-down types, given whether either shift key is held. */
  function TypedLetter(shift: bool, key: int): (letter: int)
    ensures key == SDLK_RETURN || key == SDLK_KP_ENTER ==> letter == '\n' as int
    ensures !shift && key != SDLK_RETURN && key != SDLK_KP_ENTER ==> letter == key
    ensures shift && SDLK_a <= key <= SDLK_z ==>
      'A' as int <= letter <= 'Z' as int && letter - 'A' as int == key - 'a' as int
    ensures shift && SDLK_0 <= key <= SDLK_9 ==> letter == SHIFTED_DIGITS[key - SDLK_0] as int
    ensures shift && key in SHIFTED_PUNCTUATION && key != SDLK_RETURN ==> letter == SHIFTED_PUNCTUATION[key] as int
    ensures shift && key == SDLK_SEMICOLON ==> letter == ';' as int
    ensures (!(SDLK_a <= key <= SDLK_z) && !(SDLK_0 <= key <= SDLK_9) && key !in SHIFTED_PUNCTUATION
             && key != SDLK_RETURN && key != SDLK_KP_ENTER) ==> letter == key
  {
    var shifted :=
      if !shift then key
      else if SDLK_a <= key <= SDLK_z then key - 32
      else if SDLK_0 <= key <= SDLK_9 then SHIFTED_DIGITS[key - SDLK_0] as int
      else if key in SHIFTED_PUNCTUATION then SHIFTED_PUNCTUATION[key] as int
      else key;
    if key == SDLK_RETURN || key == SDLK_KP_ENTER then '\n' as int else shifted
  }

  /** Shift and the '1' key type '!'; Enter types a newline whether or not shift is held. */
  lemma ShiftedOneAndEnter(shift: bool)
    ensures TypedLetter(true, SDLK_0 + 1) == '!' as int
    ensures TypedLetter(shift, SDLK_RETURN) == '\n' as int
    ensures TypedLetter(shift, SDLK_KP_ENTER) == '\n' as int
  {
  }
}
