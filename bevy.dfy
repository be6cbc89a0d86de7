/**
  The application side of the bridge (the Bevy engine's window and input types):
  the declarative window descriptor the application owns, the normalized input
  values, and the events the bridge sends to the application.
*/
module Bevy {
  import opened Wrappers
  import opened Tao
  import opened Casts

  /** An application entity (Bevy's `Entity`). */
  type Entity = nat

  /** A scale factor; the engine never stores zero or a negative one. */
  type ScaleFactor = r: real | r > 0.0 witness 1.0

  datatype Vec2 = Vec2(x: real, y: real)

  datatype ButtonState = Pressed | Released

  datatype MouseButton = Left | Right | Middle | Other(code: U16)

  datatype TouchPhase = Started | Moved | Ended | Canceled

  datatype ForceTouch =
    | Calibrated(force: real, maxPossibleForce: real, altitudeAngle: Option<real>)
    | Normalized(value: real)

  datatype TouchInput = TouchInput(phase: TouchPhase, position: Vec2, force: Option<ForceTouch>, id: U64)

  /**
    The key codes the backend's key table can produce. The engine's `KeyCode`
    is one flat enumeration; here its variants are kept under their own names
    and grouped into six families.
  */
  datatype KeyCode =
    | Digit(digit: DigitCode)
    | Letter(letter: LetterCode)
    | Symbol(symbol: SymbolCode)
    | Function(fkey: FunctionCode)
    | Navigation(nav: NavigationCode)
    | System(sys: SystemCode)

  /** The digit keys of the main row. */
  datatype DigitCode =
    | Key1 | Key2 | Key3 | Key4 | Key5 | Key6 | Key7 | Key8 | Key9 | Key0

  /** The letter keys. */
  datatype LetterCode =
    | A | B | C | D | E | F | G | H | I | J | K | L | M | N | O | P | Q | R | S | T
    | U | V | W | X | Y | Z

  /** The punctuation keys. */
  datatype SymbolCode =
    | Plus | Asterisk | Caret | BracketLeft | Apostrophe | Backslash | Colon | Comma
    | Minus | Equals | Grave | Period | BracketRight | Semicolon | Slash

  /** Escape and the function keys. */
  datatype FunctionCode =
    | Escape | F1 | F2 | F3 | F4 | F5 | F6 | F7 | F8 | F9 | F10 | F11 | F12 | F13
    | F14 | F15 | F16 | F17 | F18 | F19 | F20 | F21 | F22 | F23 | F24

  /** The navigation, editing and input-method keys. */
  datatype NavigationCode =
    | Snapshot | Scroll | Pause | Insert | Home | Delete | End | PageDown | PageUp
    | Left | Up | Right | Down | Back | Return | Space | Compose | Numlock | Convert
    | Kana | Kanji

  /** The modifier, media and system keys. */
  datatype SystemCode =
    | AltLeft | ControlLeft | ShiftLeft | SuperLeft | Mail | MediaSelect | MediaStop
    | Mute | MyComputer | NavigateForward | NavigateBackward | NextTrack | PlayPause
    | Power | PrevTrack | Tab | Stop | VolumeDown | VolumeUp | Wake | Copy | Paste
    | Cut

  datatype KeyboardInput = KeyboardInput(scanCode: U32, state: ButtonState, keyCode: Option<KeyCode>, window: Entity)

  datatype CursorIcon =
    | Default | Crosshair | Hand | Arrow | Move | Text | Wait | Help | Progress
    | NotAllowed | ContextMenu | Cell | VerticalText | Alias | Copy | NoDrop
    | Grab | Grabbing | AllScroll | ZoomIn | ZoomOut
    | EResize | NResize | NeResize | NwResize | SResize | SeResize | SwResize | WResize
    | EwResize | NsResize | NeswResize | NwseResize | ColResize | RowResize

  /** The engine's `CursorGrabMode::None` is `NoGrab` here (None is the empty Option). */
  datatype CursorGrabMode = NoGrab | Confined | Locked

  datatype WindowLevel = AlwaysOnBottom | Normal | AlwaysOnTop

  datatype WindowTheme = Light | Dark

  datatype WindowMode = Windowed | BorderlessFullscreen | SizedFullscreen | Fullscreen

  datatype MonitorSelection = Current | Primary | Index(n: nat)

  datatype WindowPosition = Automatic | Centered(monitor: MonitorSelection) | At(x: I32, y: I32)

  /**
    Physical size plus the backend-reported scale factor and an optional
    application override; the logical size divides by the effective factor.
  */
  datatype WindowResolution = WindowResolution(
    physicalWidth: U32,
    physicalHeight: U32,
    scaleFactorOverride: Option<ScaleFactor>,
    scaleFactor: ScaleFactor)
  {
    function EffectiveScaleFactor(): ScaleFactor {
      if scaleFactorOverride.Some? then scaleFactorOverride.value else scaleFactor
    }

    function Width(): real {
      physicalWidth as real / EffectiveScaleFactor()
    }

    function Height(): real {
      physicalHeight as real / EffectiveScaleFactor()
    }

    /**
      The engine's `set_scale_factor`: records the backend's factor and
      re-derives the physical size from the logical size, truncating.
    */
    function WithScaleFactor(factor: ScaleFactor): WindowResolution {
      var (width, height) := (Width(), Height());
      var updated := this.(scaleFactor := factor);
      updated.(physicalWidth := TruncateU32(width * updated.EffectiveScaleFactor()),
               physicalHeight := TruncateU32(height * updated.EffectiveScaleFactor()))
    }
  }

  /** `physicalPosition` is the cursor position the backend last reported. */
  datatype Cursor = Cursor(
    icon: CursorIcon,
    visible: bool,
    grabMode: CursorGrabMode,
    hitTest: bool,
    physicalPosition: Option<Vec2>)

  /** Minimum and maximum logical size; a `None` maximum is an infinite one. */
  datatype ResizeConstraints = ResizeConstraints(
    minWidth: real,
    minHeight: real,
    maxWidth: Option<real>,
    maxHeight: Option<real>)
  {
    /** Minimums of at least one pixel, and no maximum below its minimum. */
    predicate WellFormed() {
      && minWidth >= 1.0 && minHeight >= 1.0
      && (maxWidth.Some? ==> maxWidth.value >= minWidth)
      && (maxHeight.Some? ==> maxHeight.value >= minHeight)
    }

    /**
      The engine's `check_constraints`: raises each minimum to one pixel and
      each finite maximum to its minimum, and keeps infinite maximums infinite.
    */
    function Checked(): (c: ResizeConstraints)
      ensures c.WellFormed()
      ensures c.minWidth >= minWidth && (c.minWidth == 1.0 || c.minWidth == minWidth)
      ensures c.minHeight >= minHeight && (c.minHeight == 1.0 || c.minHeight == minHeight)
      ensures (c.maxWidth.Some? <==> maxWidth.Some?) && (c.maxHeight.Some? <==> maxHeight.Some?)
      ensures maxWidth.Some? ==>
        c.maxWidth.value >= maxWidth.value && (c.maxWidth.value == maxWidth.value || c.maxWidth.value == c.minWidth)
      ensures maxHeight.Some? ==>
        c.maxHeight.value >= maxHeight.value && (c.maxHeight.value == maxHeight.value || c.maxHeight.value == c.minHeight)
    {
      var minW := if minWidth < 1.0 then 1.0 else minWidth;
      var minH := if minHeight < 1.0 then 1.0 else minHeight;
      ResizeConstraints(
        minW, minH,
        if maxWidth.Some? && maxWidth.value < minW then Some(minW) else maxWidth,
        if maxHeight.Some? && maxHeight.value < minH then Some(minH) else maxHeight)
    }
  }

  /** Well-formed constraints pass the check unchanged, so the check is idempotent. */
  lemma CheckedKeepsWellFormed(constraints: ResizeConstraints)
    ensures constraints.WellFormed() ==> constraints.Checked() == constraints
    ensures constraints.Checked().Checked() == constraints.Checked()
  {
  }

  /**
    The declarative window descriptor. `maximizeRequest` and `minimizeRequest`
    are the one-shot requests the engine keeps in the window's internal state.
  */
  datatype Window = Window(
    cursor: Cursor,
    mode: WindowMode,
    position: WindowPosition,
    resolution: WindowResolution,
    title: string,
    resizable: bool,
    decorations: bool,
    transparent: bool,
    focused: bool,
    windowLevel: WindowLevel,
    windowTheme: Option<WindowTheme>,
    imePosition: Vec2,
    resizeConstraints: ResizeConstraints,
    maximizeRequest: Option<bool>,
    minimizeRequest: Option<bool>)
  {
    /**
      The engine's `physical_cursor_position`: the reported cursor position
      when it lies inside the window's physical area, and none otherwise.
    */
    function PhysicalCursorPosition(): (p: Option<Vec2>)
      ensures p.Some? <==>
        && cursor.physicalPosition.Some?
        && 0.0 <= cursor.physicalPosition.value.x < resolution.physicalWidth as real
        && 0.0 <= cursor.physicalPosition.value.y < resolution.physicalHeight as real
      ensures p.Some? ==> p == cursor.physicalPosition
    {
      match cursor.physicalPosition
      case None => None
      case Some(position) =>
        if 0.0 <= position.x < resolution.physicalWidth as real
           && 0.0 <= position.y < resolution.physicalHeight as real
        then Some(position)
        else None
    }
  }

  datatype MouseScrollUnit = Line | Pixel

  /** Every event the bridge sends to the application. */
  datatype AppEvent =
    | WindowCreated(window: Entity)
    | WindowClosed(window: Entity)
    | WindowResized(window: Entity, width: real, height: real)
    | WindowCloseRequested(window: Entity)
    | WindowFocused(window: Entity, focused: bool)
    | WindowMoved(entity: Entity, newPosition: PhysicalPosition)
    | WindowThemeChanged(window: Entity, theme: WindowTheme)
    | WindowDestroyed(window: Entity)
    | KeyboardInputEvent(input: KeyboardInput)
    | ReceivedCharacter(window: Entity, character: char)
    | MouseButtonInput(button: MouseButton, state: ButtonState, window: Entity)
    | MouseWheel(unit: MouseScrollUnit, x: real, y: real, window: Entity)
    | MouseMotion(delta: Vec2)
    | TouchInputEvent(touch: TouchInput)
    | CursorMoved(window: Entity, position: Vec2)
    | CursorEntered(window: Entity)
    | CursorLeft(window: Entity)
    | DroppedFile(window: Entity, path: string)
    | HoveredFile(window: Entity, path: string)
    | HoveredFileCanceled(window: Entity)
}
