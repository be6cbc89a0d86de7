/**
  Translation tables between the backend's input vocabulary and the
  application's: button and key state, mouse buttons, touch, logical keys,
  cursor icons, window level and theme.
*/
module Converters {
  import opened Wrappers
  import T = Tao
  import B = Bevy

  // ---------------------------------------------------------------------------
  // Button state and mouse buttons

  function ConvertElementState(state: T.ElementState): (r: B.ButtonState)
    ensures r.Pressed? <==> state.Pressed?
  {
    match state
    case Pressed => B.ButtonState.Pressed
    case Released => B.ButtonState.Released
  }

  function ConvertMouseButton(button: T.MouseButton): (r: B.MouseButton)
    ensures r.Left? <==> button.Left?
    ensures r.Right? <==> button.Right?
    ensures r.Middle? <==> button.Middle?
    ensures r.Other? <==> button.Other?
    ensures button.Other? ==> r.code == button.code
  {
    match button
    case Left => B.MouseButton.Left
    case Right => B.MouseButton.Right
    case Middle => B.MouseButton.Middle
    case Other(code) => B.MouseButton.Other(code)
  }

  /** Distinct backend buttons stay distinct; the extra-button code is kept. */
  lemma MouseButtonInjective(a: T.MouseButton, b: T.MouseButton)
    requires ConvertMouseButton(a) == ConvertMouseButton(b)
    ensures a == b
  {
  }

  // ---------------------------------------------------------------------------
  // Touch

  function ConvertTouchPhase(phase: T.TouchPhase): (r: B.TouchPhase)
    ensures r.Started? <==> phase.Started?
    ensures r.Moved? <==> phase.Moved?
    ensures r.Ended? <==> phase.Ended?
    ensures r.Canceled? <==> phase.Cancelled?
  {
    match phase
    case Started => B.TouchPhase.Started
    case Moved => B.TouchPhase.Moved
    case Ended => B.TouchPhase.Ended
    case Cancelled => B.TouchPhase.Canceled
  }

  /** The two pressure shapes are kept apart and keep all their fields. */
  function ConvertForce(force: T.Force): (r: B.ForceTouch)
    ensures r.Calibrated? <==> force.Calibrated?
    ensures force.Calibrated? ==>
      r.force == force.force && r.maxPossibleForce == force.maxPossibleForce
      && r.altitudeAngle == force.altitudeAngle
    ensures force.Normalized? ==> r.value == force.value
  {
    match force
    case Calibrated(f, maxF, angle) => B.ForceTouch.Calibrated(f, maxF, angle)
    case Normalized(v) => B.ForceTouch.Normalized(v)
  }

  /**
    `location` is the touch position already converted to logical
    coordinates with the window's current scale factor.
  */
  function ConvertTouchInput(touch: T.Touch, location: B.Vec2): (r: B.TouchInput)
    ensures r.id == touch.id && r.position == location
    ensures r.phase == ConvertTouchPhase(touch.phase)
    ensures r.force.Some? <==> touch.force.Some?
    ensures touch.force.Some? ==> r.force.value == ConvertForce(touch.force.value)
  {
    B.TouchInput(
      ConvertTouchPhase(touch.phase),
      location,
      if touch.force.Some? then Some(ConvertForce(touch.force.value)) else None,
      touch.id)
  }

  /** Touch translation loses nothing: equal results come from equal touches. */
  lemma TouchInputInjective(a: T.Touch, b: T.Touch, location: B.Vec2)
    requires a.x == b.x && a.y == b.y
    requires ConvertTouchInput(a, location) == ConvertTouchInput(b, location)
    ensures a == b
  {
    assert a.phase == b.phase by {
      assert ConvertTouchPhase(a.phase) == ConvertTouchPhase(b.phase);
    }
    if a.force.Some? {
      assert ConvertForce(a.force.value) == ConvertForce(b.force.value);
    }
  }

  // ---------------------------------------------------------------------------
  // Logical keys

  /** The `Key::Character` part of the key table: one-character texts only. */
  function CharacterKeyCode(text: string): Option<B.KeyCode> {
    if |text| == 1 then CharKeyCode(text[0]) else None
  }

  function CharKeyCode(c: char): Option<B.KeyCode> {
    match c
    case '1' => Some(B.Digit(B.DigitCode.Key1))
    case '2' => Some(B.Digit(B.DigitCode.Key2))
    case '3' => Some(B.Digit(B.DigitCode.Key3))
    case '4' => Some(B.Digit(B.DigitCode.Key4))
    case '5' => Some(B.Digit(B.DigitCode.Key5))
    case '6' => Some(B.Digit(B.DigitCode.Key6))
    case '7' => Some(B.Digit(B.DigitCode.Key7))
    case '8' => Some(B.Digit(B.DigitCode.Key8))
    case '9' => Some(B.Digit(B.DigitCode.Key9))
    case '0' => Some(B.Digit(B.DigitCode.Key0))
    case 'A' => Some(B.Letter(B.LetterCode.A))
    case 'B' => Some(B.Letter(B.LetterCode.B))
    case 'C' => Some(B.Letter(B.LetterCode.C))
    case 'D' => Some(B.Letter(B.LetterCode.D))
    case 'E' => Some(B.Letter(B.LetterCode.E))
    case 'F' => Some(B.Letter(B.LetterCode.F))
    case 'G' => Some(B.Letter(B.LetterCode.G))
    case 'H' => Some(B.Letter(B.LetterCode.H))
    case 'I' => Some(B.Letter(B.LetterCode.I))
    case 'J' => Some(B.Letter(B.LetterCode.J))
    case 'K' => Some(B.Letter(B.LetterCode.K))
    case 'L' => Some(B.Letter(B.LetterCode.L))
    case 'M' => Some(B.Letter(B.LetterCode.M))
    case 'N' => Some(B.Letter(B.LetterCode.N))
    case 'O' => Some(B.Letter(B.LetterCode.O))
    case 'P' => Some(B.Letter(B.LetterCode.P))
    case 'Q' => Some(B.Letter(B.LetterCode.Q))
    case 'R' => Some(B.Letter(B.LetterCode.R))
    case 'S' => Some(B.Letter(B.LetterCode.S))
    case 'T' => Some(B.Letter(B.LetterCode.T))
    case 'U' => Some(B.Letter(B.LetterCode.U))
    case 'V' => Some(B.Letter(B.LetterCode.V))
    case 'W' => Some(B.Letter(B.LetterCode.W))
    case 'X' => Some(B.Letter(B.LetterCode.X))
    case 'Y' => Some(B.Letter(B.LetterCode.Y))
    case 'Z' => Some(B.Letter(B.LetterCode.Z))
    case '+' => Some(B.Symbol(B.SymbolCode.Plus))
    case '*' => Some(B.Symbol(B.SymbolCode.Asterisk))
    case '^' => Some(B.Symbol(B.SymbolCode.Caret))
    case '[' => Some(B.Symbol(B.SymbolCode.BracketLeft))
    case '\'' => Some(B.Symbol(B.SymbolCode.Apostrophe))
    case '\\' => Some(B.Symbol(B.SymbolCode.Backslash))
    case ':' => Some(B.Symbol(B.SymbolCode.Colon))
    case ',' => Some(B.Symbol(B.SymbolCode.Comma))
    case '-' => Some(B.Symbol(B.SymbolCode.Minus))
    case '=' => Some(B.Symbol(B.SymbolCode.Equals))
    case '`' => Some(B.Symbol(B.SymbolCode.Grave))
    case '.' => Some(B.Symbol(B.SymbolCode.Period))
    case ']' => Some(B.Symbol(B.SymbolCode.BracketRight))
    case ';' => Some(B.Symbol(B.SymbolCode.Semicolon))
    case '/' => Some(B.Symbol(B.SymbolCode.Slash))
    case _ => None
  }

  /**
    The key table: characters through `CharacterKeyCode`, the named keys of
    the three families entry by entry; every other key has no key code.
  */
  function ConvertVirtualKeyCode(key: T.Key): (code: Option<B.KeyCode>)
    ensures (code.Some? && code.value.Function?) <==> key.FunctionKey?
    ensures (code.Some? && code.value.Navigation?) <==> key.NavigationKey?
    ensures (code.Some? && code.value.System?) <==> key.SystemKey?
    ensures code.Some? && (code.value.Digit? || code.value.Letter? || code.value.Symbol?) ==>
      key.Character? && |key.text| == 1
  {
    match key
    case Character(text) => CharacterKeyCode(text)
    case FunctionKey(name) => Some(B.Function(ConvertFunctionKey(name)))
    case NavigationKey(name) => Some(B.Navigation(ConvertNavigationKey(name)))
    case SystemKey(name) => Some(B.System(ConvertSystemKey(name)))
    case _ => None
  }

  function ConvertFunctionKey(name: T.FunctionName): B.FunctionCode {
    match name
    case Escape => B.FunctionCode.Escape
    case F1 => B.FunctionCode.F1
    case F2 => B.FunctionCode.F2
    case F3 => B.FunctionCode.F3
    case F4 => B.FunctionCode.F4
    case F5 => B.FunctionCode.F5
    case F6 => B.FunctionCode.F6
    case F7 => B.FunctionCode.F7
    case F8 => B.FunctionCode.F8
    case F9 => B.FunctionCode.F9
    case F10 => B.FunctionCode.F10
    case F11 => B.FunctionCode.F11
    case F12 => B.FunctionCode.F12
    case F13 => B.FunctionCode.F13
    case F14 => B.FunctionCode.F14
    case F15 => B.FunctionCode.F15
    case F16 => B.FunctionCode.F16
    case F17 => B.FunctionCode.F17
    case F18 => B.FunctionCode.F18
    case F19 => B.FunctionCode.F19
    case F20 => B.FunctionCode.F20
    case F21 => B.FunctionCode.F21
    case F22 => B.FunctionCode.F22
    case F23 => B.FunctionCode.F23
    case F24 => B.FunctionCode.F24
  }

  function ConvertNavigationKey(name: T.NavigationName): B.NavigationCode {
    match name
    case PrintScreen => B.NavigationCode.Snapshot
    case ScrollLock => B.NavigationCode.Scroll
    case Pause => B.NavigationCode.Pause
    case Insert => B.NavigationCode.Insert
    case Home => B.NavigationCode.Home
    case Delete => B.NavigationCode.Delete
    case End => B.NavigationCode.End
    case PageDown => B.NavigationCode.PageDown
    case PageUp => B.NavigationCode.PageUp
    case ArrowLeft => B.NavigationCode.Left
    case ArrowUp => B.NavigationCode.Up
    case ArrowRight => B.NavigationCode.Right
    case ArrowDown => B.NavigationCode.Down
    case Backspace => B.NavigationCode.Back
    case Enter => B.NavigationCode.Return
    case Space => B.NavigationCode.Space
    case Compose => B.NavigationCode.Compose
    case NumLock => B.NavigationCode.Numlock
    case Convert => B.NavigationCode.Convert
    case KanaMode => B.NavigationCode.Kana
    case KanjiMode => B.NavigationCode.Kanji
  }

  function ConvertSystemKey(name: T.SystemName): B.SystemCode {
    match name
    case Alt => B.SystemCode.AltLeft
    case Control => B.SystemCode.ControlLeft
    case Shift => B.SystemCode.ShiftLeft
    case Super => B.SystemCode.SuperLeft
    case LaunchMail => B.SystemCode.Mail
    case MediaPlay => B.SystemCode.MediaSelect
    case MediaStop => B.SystemCode.MediaStop
    case AudioVolumeMute => B.SystemCode.Mute
    case GoHome => B.SystemCode.MyComputer
    case BrowserForward => B.SystemCode.NavigateForward
    case BrowserBack => B.SystemCode.NavigateBackward
    case MediaTrackNext => B.SystemCode.NextTrack
    case MediaPlayPause => B.SystemCode.PlayPause
    case Power => B.SystemCode.Power
    case MediaTrackPrevious => B.SystemCode.PrevTrack
    case Tab => B.SystemCode.Tab
    case BrowserStop => B.SystemCode.Stop
    case AudioVolumeDown => B.SystemCode.VolumeDown
    case AudioVolumeUp => B.SystemCode.VolumeUp
    case WakeUp => B.SystemCode.Wake
    case Copy => B.SystemCode.Copy
    case Paste => B.SystemCode.Paste
    case Cut => B.SystemCode.Cut
  }

  // The table read backwards, family by family.

  function FunctionNameOf(code: B.FunctionCode): T.FunctionName {
    match code
    case Escape => T.FunctionName.Escape
    case F1 => T.FunctionName.F1
    case F2 => T.FunctionName.F2
    case F3 => T.FunctionName.F3
    case F4 => T.FunctionName.F4
    case F5 => T.FunctionName.F5
    case F6 => T.FunctionName.F6
    case F7 => T.FunctionName.F7
    case F8 => T.FunctionName.F8
    case F9 => T.FunctionName.F9
    case F10 => T.FunctionName.F10
    case F11 => T.FunctionName.F11
    case F12 => T.FunctionName.F12
    case F13 => T.FunctionName.F13
    case F14 => T.FunctionName.F14
    case F15 => T.FunctionName.F15
    case F16 => T.FunctionName.F16
    case F17 => T.FunctionName.F17
    case F18 => T.FunctionName.F18
    case F19 => T.FunctionName.F19
    case F20 => T.FunctionName.F20
    case F21 => T.FunctionName.F21
    case F22 => T.FunctionName.F22
    case F23 => T.FunctionName.F23
    case F24 => T.FunctionName.F24
  }

  function NavigationNameOf(code: B.NavigationCode): T.NavigationName {
    match code
    case Snapshot => T.NavigationName.PrintScreen
    case Scroll => T.NavigationName.ScrollLock
    case Pause => T.NavigationName.Pause
    case Insert => T.NavigationName.Insert
    case Home => T.NavigationName.Home
    case Delete => T.NavigationName.Delete
    case End => T.NavigationName.End
    case PageDown => T.NavigationName.PageDown
    case PageUp => T.NavigationName.PageUp
    case Left => T.NavigationName.ArrowLeft
    case Up => T.NavigationName.ArrowUp
    case Right => T.NavigationName.ArrowRight
    case Down => T.NavigationName.ArrowDown
    case Back => T.NavigationName.Backspace
    case Return => T.NavigationName.Enter
    case Space => T.NavigationName.Space
    case Compose => T.NavigationName.Compose
    case Numlock => T.NavigationName.NumLock
    case Convert => T.NavigationName.Convert
    case Kana => T.NavigationName.KanaMode
    case Kanji => T.NavigationName.KanjiMode
  }

  function SystemNameOf(code: B.SystemCode): T.SystemName {
    match code
    case AltLeft => T.SystemName.Alt
    case ControlLeft => T.SystemName.Control
    case ShiftLeft => T.SystemName.Shift
    case SuperLeft => T.SystemName.Super
    case Mail => T.SystemName.LaunchMail
    case MediaSelect => T.SystemName.MediaPlay
    case MediaStop => T.SystemName.MediaStop
    case Mute => T.SystemName.AudioVolumeMute
    case MyComputer => T.SystemName.GoHome
    case NavigateForward => T.SystemName.BrowserForward
    case NavigateBackward => T.SystemName.BrowserBack
    case NextTrack => T.SystemName.MediaTrackNext
    case PlayPause => T.SystemName.MediaPlayPause
    case Power => T.SystemName.Power
    case PrevTrack => T.SystemName.MediaTrackPrevious
    case Tab => T.SystemName.Tab
    case Stop => T.SystemName.BrowserStop
    case VolumeDown => T.SystemName.AudioVolumeDown
    case VolumeUp => T.SystemName.AudioVolumeUp
    case Wake => T.SystemName.WakeUp
    case Copy => T.SystemName.Copy
    case Paste => T.SystemName.Paste
    case Cut => T.SystemName.Cut
  }

  function DigitChar(code: B.DigitCode): char {
    match code
    case Key1 => '1'
    case Key2 => '2'
    case Key3 => '3'
    case Key4 => '4'
    case Key5 => '5'
    case Key6 => '6'
    case Key7 => '7'
    case Key8 => '8'
    case Key9 => '9'
    case Key0 => '0'
  }

  function LetterChar(code: B.LetterCode): char {
    match code
    case A => 'A'
    case B => 'B'
    case C => 'C'
    case D => 'D'
    case E => 'E'
    case F => 'F'
    case G => 'G'
    case H => 'H'
    case I => 'I'
    case J => 'J'
    case K => 'K'
    case L => 'L'
    case M => 'M'
    case N => 'N'
    case O => 'O'
    case P => 'P'
    case Q => 'Q'
    case R => 'R'
    case S => 'S'
    case T => 'T'
    case U => 'U'
    case V => 'V'
    case W => 'W'
    case X => 'X'
    case Y => 'Y'
    case Z => 'Z'
  }

  function SymbolChar(code: B.SymbolCode): char {
    match code
    case Plus => '+'
    case Asterisk => '*'
    case Caret => '^'
    case BracketLeft => '['
    case Apostrophe => '\''
    case Backslash => '\\'
    case Colon => ':'
    case Comma => ','
    case Minus => '-'
    case Equals => '='
    case Grave => '`'
    case Period => '.'
    case BracketRight => ']'
    case Semicolon => ';'
    case Slash => '/'
  }

  /** The one backend key that yields each key code. */
  function KeyOf(code: B.KeyCode): T.Key {
    match code
    case Digit(c) => T.Character([DigitChar(c)])
    case Letter(c) => T.Character([LetterChar(c)])
    case Symbol(c) => T.Character([SymbolChar(c)])
    case Function(c) => T.FunctionKey(FunctionNameOf(c))
    case Navigation(c) => T.NavigationKey(NavigationNameOf(c))
    case System(c) => T.SystemKey(SystemNameOf(c))
  }

  /** Each function key has exactly one code... */
  lemma FunctionKeyRoundTrip(name: T.FunctionName)
    ensures FunctionNameOf(ConvertFunctionKey(name)) == name
  {
    match name
    case Escape =>
    case F1 =>
    case F2 =>
    case F3 =>
    case F4 =>
    case F5 =>
    case F6 =>
    case F7 =>
    case F8 =>
    case F9 =>
    case F10 =>
    case F11 =>
    case F12 =>
    case F13 =>
    case F14 =>
    case F15 =>
    case F16 =>
    case F17 =>
    case F18 =>
    case F19 =>
    case F20 =>
    case F21 =>
    case F22 =>
    case F23 =>
    case F24 =>
  }

  /** ...and each of those codes exactly one key. */
  lemma FunctionCodeRoundTrip(code: B.FunctionCode)
    ensures ConvertFunctionKey(FunctionNameOf(code)) == code
  {
    match code
    case Escape =>
    case F1 =>
    case F2 =>
    case F3 =>
    case F4 =>
    case F5 =>
    case F6 =>
    case F7 =>
    case F8 =>
    case F9 =>
    case F10 =>
    case F11 =>
    case F12 =>
    case F13 =>
    case F14 =>
    case F15 =>
    case F16 =>
    case F17 =>
    case F18 =>
    case F19 =>
    case F20 =>
    case F21 =>
    case F22 =>
    case F23 =>
    case F24 =>
  }

  /** Each navigation key has exactly one code... */
  lemma NavigationKeyRoundTrip(name: T.NavigationName)
    ensures NavigationNameOf(ConvertNavigationKey(name)) == name
  {
    match name
    case PrintScreen =>
    case ScrollLock =>
    case Pause =>
    case Insert =>
    case Home =>
    case Delete =>
    case End =>
    case PageDown =>
    case PageUp =>
    case ArrowLeft =>
    case ArrowUp =>
    case ArrowRight =>
    case ArrowDown =>
    case Backspace =>
    case Enter =>
    case Space =>
    case Compose =>
    case NumLock =>
    case Convert =>
    case KanaMode =>
    case KanjiMode =>
  }

  /** ...and each of those codes exactly one key. */
  lemma NavigationCodeRoundTrip(code: B.NavigationCode)
    ensures ConvertNavigationKey(NavigationNameOf(code)) == code
  {
    match code
    case Snapshot =>
    case Scroll =>
    case Pause =>
    case Insert =>
    case Home =>
    case Delete =>
    case End =>
    case PageDown =>
    case PageUp =>
    case Left =>
    case Up =>
    case Right =>
    case Down =>
    case Back =>
    case Return =>
    case Space =>
    case Compose =>
    case Numlock =>
    case Convert =>
    case Kana =>
    case Kanji =>
  }

  /** Each system key has exactly one code... */
  lemma SystemKeyRoundTrip(name: T.SystemName)
    ensures SystemNameOf(ConvertSystemKey(name)) == name
  {
    match name
    case Alt =>
    case Control =>
    case Shift =>
    case Super =>
    case LaunchMail =>
    case MediaPlay =>
    case MediaStop =>
    case AudioVolumeMute =>
    case GoHome =>
    case BrowserForward =>
    case BrowserBack =>
    case MediaTrackNext =>
    case MediaPlayPause =>
    case Power =>
    case MediaTrackPrevious =>
    case Tab =>
    case BrowserStop =>
    case AudioVolumeDown =>
    case AudioVolumeUp =>
    case WakeUp =>
    case Copy =>
    case Paste =>
    case Cut =>
  }

  /** ...and each of those codes exactly one key. */
  lemma SystemCodeRoundTrip(code: B.SystemCode)
    ensures ConvertSystemKey(SystemNameOf(code)) == code
  {
    match code
    case AltLeft =>
    case ControlLeft =>
    case ShiftLeft =>
    case SuperLeft =>
    case Mail =>
    case MediaSelect =>
    case MediaStop =>
    case Mute =>
    case MyComputer =>
    case NavigateForward =>
    case NavigateBackward =>
    case NextTrack =>
    case PlayPause =>
    case Power =>
    case PrevTrack =>
    case Tab =>
    case Stop =>
    case VolumeDown =>
    case VolumeUp =>
    case Wake =>
    case Copy =>
    case Paste =>
    case Cut =>
  }

  /** A character the table translates is the one `KeyOf` names for its code. */
  lemma CharLeftInverse(c: char)
    requires CharKeyCode(c).Some?
    ensures KeyOf(CharKeyCode(c).value) == T.Character([c])
  {
  }

  /** Every key code of the table is produced, by exactly the key `KeyOf` names. */
  lemma KeyTableCovers(code: B.KeyCode)
    ensures ConvertVirtualKeyCode(KeyOf(code)) == Some(code)
  {
    match code
    case Digit(c) =>
    case Letter(c) =>
    case Symbol(c) =>
    case Function(c) => FunctionCodeRoundTrip(c);
    case Navigation(c) => NavigationCodeRoundTrip(c);
    case System(c) => SystemCodeRoundTrip(c);
  }

  /** A key the table translates is the key `KeyOf` names for its code. */
  lemma KeyTableLeftInverse(key: T.Key)
    requires ConvertVirtualKeyCode(key).Some?
    ensures KeyOf(ConvertVirtualKeyCode(key).value) == key
  {
    match key
    case Character(text) =>
      assert text == [text[0]];
      CharLeftInverse(text[0]);
    case FunctionKey(name) => FunctionKeyRoundTrip(name);
    case NavigationKey(name) => NavigationKeyRoundTrip(name);
    case SystemKey(name) => SystemKeyRoundTrip(name);
  }

  /** No two entries of the key table produce the same key code. */
  lemma KeyTableInjective(k1: T.Key, k2: T.Key)
    requires ConvertVirtualKeyCode(k1).Some?
    requires ConvertVirtualKeyCode(k1) == ConvertVirtualKeyCode(k2)
    ensures k1 == k2
  {
    KeyTableLeftInverse(k1);
    KeyTableLeftInverse(k2);
  }

  const DigitCodes: seq<B.DigitCode> :=
    [B.Key0, B.Key1, B.Key2, B.Key3, B.Key4, B.Key5, B.Key6, B.Key7, B.Key8, B.Key9]

  const LetterCodes: seq<B.LetterCode> :=
    [B.A, B.B, B.C, B.D, B.E, B.F, B.G, B.H, B.I, B.J, B.K, B.L, B.M,
     B.N, B.O, B.P, B.Q, B.R, B.S, B.T, B.U, B.V, B.W, B.X, B.Y, B.Z]

  /** The digits "0" to "9" map to Key0 to Key9. */
  lemma DigitKeys(c: char)
    requires '0' <= c <= '9'
    ensures ConvertVirtualKeyCode(T.Character([c]))
      == Some(B.Digit(DigitCodes[c as int - '0' as int]))
  {
  }

  /** The upper-case letters "A" to "Z" map to A to Z. */
  lemma CapitalLetterKeys(c: char)
    requires 'A' <= c <= 'Z'
    ensures ConvertVirtualKeyCode(T.Character([c]))
      == Some(B.Letter(LetterCodes[c as int - 'A' as int]))
  {
  }

  /** Lower-case letters are not in the table: they have no key code. */
  lemma LowerCaseLettersUnknown(c: char)
    requires 'a' <= c <= 'z'
    ensures ConvertVirtualKeyCode(T.Character([c])) == None
  {
  }

  /**
    A keyboard event becomes an application key event for `window`; the scan
    code must be reported (the source unwraps it).
  */
  function ConvertKeyboardInput(event: T.KeyEvent, window: B.Entity): (r: B.KeyboardInput)
    requires event.scanCode.Some?
    ensures r.window == window && r.scanCode == event.scanCode.value
    ensures r.state == ConvertElementState(event.state)
    ensures r.keyCode == ConvertVirtualKeyCode(event.logicalKey)
  {
    B.KeyboardInput(
      event.scanCode.value,
      ConvertElementState(event.state),
      ConvertVirtualKeyCode(event.logicalKey),
      window)
  }

  /** A key outside the table still produces an event: no key code, scan code kept. */
  lemma UnknownKeyKeepsScanCode(event: T.KeyEvent, window: B.Entity)
    requires event.scanCode.Some?
    requires event.logicalKey.OtherNamed? || event.logicalKey.Unidentified?
      || event.logicalKey.Dead?
    ensures ConvertKeyboardInput(event, window).keyCode == None
    ensures ConvertKeyboardInput(event, window).scanCode == event.scanCode.value
  {
  }

  // ---------------------------------------------------------------------------
  // Cursor icons

  /** The engine's cursor icon as the backend's icon of the same name; `CursorIconOf` undoes it. */
  function ConvertCursorIcon(icon: B.CursorIcon): (native: T.CursorIcon)
    ensures CursorIconOf(native) == icon
  {
    match icon
    case Default => T.CursorIcon.Default
    case Crosshair => T.CursorIcon.Crosshair
    case Hand => T.CursorIcon.Hand
    case Arrow => T.CursorIcon.Arrow
    case Move => T.CursorIcon.Move
    case Text => T.CursorIcon.Text
    case Wait => T.CursorIcon.Wait
    case Help => T.CursorIcon.Help
    case Progress => T.CursorIcon.Progress
    case NotAllowed => T.CursorIcon.NotAllowed
    case ContextMenu => T.CursorIcon.ContextMenu
    case Cell => T.CursorIcon.Cell
    case VerticalText => T.CursorIcon.VerticalText
    case Alias => T.CursorIcon.Alias
    case Copy => T.CursorIcon.Copy
    case NoDrop => T.CursorIcon.NoDrop
    case Grab => T.CursorIcon.Grab
    case Grabbing => T.CursorIcon.Grabbing
    case AllScroll => T.CursorIcon.AllScroll
    case ZoomIn => T.CursorIcon.ZoomIn
    case ZoomOut => T.CursorIcon.ZoomOut
    case EResize => T.CursorIcon.EResize
    case NResize => T.CursorIcon.NResize
    case NeResize => T.CursorIcon.NeResize
    case NwResize => T.CursorIcon.NwResize
    case SResize => T.CursorIcon.SResize
    case SeResize => T.CursorIcon.SeResize
    case SwResize => T.CursorIcon.SwResize
    case WResize => T.CursorIcon.WResize
    case EwResize => T.CursorIcon.EwResize
    case NsResize => T.CursorIcon.NsResize
    case NeswResize => T.CursorIcon.NeswResize
    case NwseResize => T.CursorIcon.NwseResize
    case ColResize => T.CursorIcon.ColResize
    case RowResize => T.CursorIcon.RowResize
  }

  /** The cursor-icon table read backwards. */
  function CursorIconOf(icon: T.CursorIcon): B.CursorIcon {
    match icon
    case Default => B.CursorIcon.Default
    case Crosshair => B.CursorIcon.Crosshair
    case Hand => B.CursorIcon.Hand
    case Arrow => B.CursorIcon.Arrow
    case Move => B.CursorIcon.Move
    case Text => B.CursorIcon.Text
    case Wait => B.CursorIcon.Wait
    case Help => B.CursorIcon.Help
    case Progress => B.CursorIcon.Progress
    case NotAllowed => B.CursorIcon.NotAllowed
    case ContextMenu => B.CursorIcon.ContextMenu
    case Cell => B.CursorIcon.Cell
    case VerticalText => B.CursorIcon.VerticalText
    case Alias => B.CursorIcon.Alias
    case Copy => B.CursorIcon.Copy
    case NoDrop => B.CursorIcon.NoDrop
    case Grab => B.CursorIcon.Grab
    case Grabbing => B.CursorIcon.Grabbing
    case AllScroll => B.CursorIcon.AllScroll
    case ZoomIn => B.CursorIcon.ZoomIn
    case ZoomOut => B.CursorIcon.ZoomOut
    case EResize => B.CursorIcon.EResize
    case NResize => B.CursorIcon.NResize
    case NeResize => B.CursorIcon.NeResize
    case NwResize => B.CursorIcon.NwResize
    case SResize => B.CursorIcon.SResize
    case SeResize => B.CursorIcon.SeResize
    case SwResize => B.CursorIcon.SwResize
    case WResize => B.CursorIcon.WResize
    case EwResize => B.CursorIcon.EwResize
    case NsResize => B.CursorIcon.NsResize
    case NeswResize => B.CursorIcon.NeswResize
    case NwseResize => B.CursorIcon.NwseResize
    case ColResize => B.CursorIcon.ColResize
    case RowResize => B.CursorIcon.RowResize
  }

  /** The cursor-icon table is onto: every native icon comes from the engine icon it names. */
  lemma NativeCursorIconRoundTrip(native: T.CursorIcon)
    ensures ConvertCursorIcon(CursorIconOf(native)) == native
  {
    if
      native.Default? || native.Crosshair? || native.Hand? || native.Arrow? || native.Move? || native.Text?
      || native.Wait? || native.Help? || native.Progress? || native.NotAllowed? || native.ContextMenu?
      || native.Cell?
    {
      PointerIconRoundTrip(native);
    } else if
      native.VerticalText? || native.Alias? || native.Copy? || native.NoDrop? || native.Grab?
      || native.Grabbing? || native.AllScroll? || native.ZoomIn? || native.ZoomOut? || native.EResize?
      || native.NResize?
    {
      DragIconRoundTrip(native);
    } else {
      ResizeIconRoundTrip(native);
    }
  }

  /** The round trip for the pointer and status icons, Default to Cell. */
  lemma PointerIconRoundTrip(native: T.CursorIcon)
    requires
      native.Default? || native.Crosshair? || native.Hand? || native.Arrow? || native.Move? || native.Text?
      || native.Wait? || native.Help? || native.Progress? || native.NotAllowed? || native.ContextMenu?
      || native.Cell?
    ensures ConvertCursorIcon(CursorIconOf(native)) == native
  {
  }

  /** The round trip for the drag, scroll and zoom icons, VerticalText to NResize. */
  lemma DragIconRoundTrip(native: T.CursorIcon)
    requires
      native.VerticalText? || native.Alias? || native.Copy? || native.NoDrop? || native.Grab?
      || native.Grabbing? || native.AllScroll? || native.ZoomIn? || native.ZoomOut? || native.EResize?
      || native.NResize?
    ensures ConvertCursorIcon(CursorIconOf(native)) == native
  {
  }

  /** The round trip for the resize icons, NeResize to RowResize. */
  lemma ResizeIconRoundTrip(native: T.CursorIcon)
    requires
      native.NeResize? || native.NwResize? || native.SResize? || native.SeResize? || native.SwResize?
      || native.WResize? || native.EwResize? || native.NsResize? || native.NeswResize? || native.NwseResize?
      || native.ColResize? || native.RowResize?
    ensures ConvertCursorIcon(CursorIconOf(native)) == native
  {
  }


  // ---------------------------------------------------------------------------
  // Window level and theme

  /** The (always-on-top, always-on-bottom) pair requested for a window level. */
  function WindowLevelFlags(level: B.WindowLevel): (flags: (bool, bool))
    ensures !(flags.0 && flags.1)
    ensures flags.0 <==> level.AlwaysOnTop?
    ensures flags.1 <==> level.AlwaysOnBottom?
  {
    match level
    case AlwaysOnBottom => (false, true)
    case Normal => (false, false)
    case AlwaysOnTop => (true, false)
  }

  function ConvertTaoTheme(theme: T.Theme): (r: B.WindowTheme)
    ensures r.Dark? <==> theme.Dark?
  {
    match theme
    case Light => B.WindowTheme.Light
    case Dark => B.WindowTheme.Dark
  }

  function ConvertWindowTheme(theme: B.WindowTheme): (r: T.Theme)
    ensures r.Dark? <==> theme.Dark?
  {
    match theme
    case Light => T.Theme.Light
    case Dark => T.Theme.Dark
  }

  /** The two theme translations are mutual inverses. */
  lemma ThemeRoundTrip(theme: B.WindowTheme, native: T.Theme)
    ensures ConvertTaoTheme(ConvertWindowTheme(theme)) == theme
    ensures ConvertWindowTheme(ConvertTaoTheme(native)) == native
  {
  }
}
