/**
  The vocabulary of the native windowing backend (the `tao` crate) as far as the
  bridge uses it: integer widths, input enumerations, monitors, video modes and
  the events the backend's loop delivers. Floating-point quantities are `real`.
*/
module Tao {
  import opened Wrappers

  type U16 = x: int | 0 <= x < 0x1_0000
  type U32 = x: int | 0 <= x < 0x1_0000_0000
  type U64 = x: int | 0 <= x < 0x1_0000_0000_0000_0000
  type I32 = x: int | -0x8000_0000 <= x < 0x8000_0000

  const U32_MAX: int := 0xFFFF_FFFF
  const I32_MIN: int := -0x8000_0000
  const I32_MAX: int := 0x7FFF_FFFF

  /** Native window identifier, chosen by the backend when a window is built. */
  type WindowId = nat

  datatype ElementState = Pressed | Released

  datatype MouseButton = Left | Right | Middle | Other(code: U16)

  datatype TouchPhase = Started | Moved | Ended | Cancelled

  datatype Force =
    | Calibrated(force: real, maxPossibleForce: real, altitudeAngle: Option<real>)
    | Normalized(value: real)

  datatype Touch = Touch(phase: TouchPhase, x: real, y: real, force: Option<Force>, id: U64)

  /**
    The logical key of a key event. `Character` carries the produced text; the
    named keys the translation table knows are grouped into three families
    (the backend's own enumeration is flat; the names are kept); `OtherNamed`
    stands for every other named key of the backend (CapsLock, Fn, Hyper, ...).
  */
  datatype Key =
    | Character(text: string)
    | FunctionKey(fkey: FunctionName)
    | NavigationKey(nav: NavigationName)
    | SystemKey(sys: SystemName)
    | Unidentified
    | Dead(composed: Option<char>)
    | OtherNamed(name: string)

  /** Escape and the function keys. */
  datatype FunctionName =
    | Escape | F1 | F2 | F3 | F4 | F5 | F6 | F7 | F8 | F9 | F10 | F11 | F12
    | F13 | F14 | F15 | F16 | F17 | F18 | F19 | F20 | F21 | F22 | F23 | F24

  /** Navigation, editing and input-method keys. */
  datatype NavigationName =
    | PrintScreen | ScrollLock | Pause | Insert | Home | Delete | End
    | PageDown | PageUp | ArrowLeft | ArrowUp | ArrowRight | ArrowDown
    | Backspace | Enter | Space | Compose | NumLock | Convert | KanaMode | KanjiMode

  /** Modifier, media and system keys. */
  datatype SystemName =
    | Alt | Control | Shift | Super
    | LaunchMail | MediaPlay | MediaStop | AudioVolumeMute | GoHome
    | BrowserForward | BrowserBack | MediaTrackNext | MediaPlayPause | Power
    | MediaTrackPrevious | Tab | BrowserStop | AudioVolumeDown | AudioVolumeUp
    | WakeUp | Copy | Paste | Cut

  /** `scanCode` is what `physical_key.to_scancode()` reports. */
  datatype KeyEvent = KeyEvent(scanCode: Option<U32>, logicalKey: Key, state: ElementState)

  datatype CursorIcon =
    | Default | Crosshair | Hand | Arrow | Move | Text | Wait | Help | Progress
    | NotAllowed | ContextMenu | Cell | VerticalText | Alias | Copy | NoDrop
    | Grab | Grabbing | AllScroll | ZoomIn | ZoomOut
    | EResize | NResize | NeResize | NwResize | SResize | SeResize | SwResize | WResize
    | EwResize | NsResize | NeswResize | NwseResize | ColResize | RowResize

  datatype Theme = Light | Dark

  datatype PhysicalSize = PhysicalSize(width: U32, height: U32)

  datatype PhysicalPosition = PhysicalPosition(x: I32, y: I32)

  datatype VideoMode = VideoMode(width: U32, height: U32, bitDepth: U16, refreshRate: U16)

  datatype Monitor = Monitor(
    name: string,
    size: PhysicalSize,
    position: PhysicalPosition,
    scaleFactor: real,
    videoModes: seq<VideoMode>)

  datatype Fullscreen = Exclusive(mode: VideoMode) | Borderless(monitor: Option<Monitor>)

  datatype MouseScrollDelta = LineDelta(x: real, y: real) | PixelDelta(x: real, y: real)

  datatype StartCause = ResumeTimeReached | WaitCancelled | Poll | Init

  datatype ControlFlow = Poll | Wait | WaitUntil(deadline: nat) | Exit

  /** Events about one window. Variants the handler ignores are `OtherWindowEvent`. */
  datatype WindowEvent =
    | Resized(size: PhysicalSize)
    | Moved(position: PhysicalPosition)
    | CloseRequested
    | Destroyed
    | DroppedFile(path: string)
    | HoveredFile(path: string)
    | HoveredFileCancelled
    | ReceivedImeText(text: string)
    | Focused(focused: bool)
    | KeyboardInput(keyEvent: KeyEvent)
    | CursorMoved(x: real, y: real)
    | CursorEntered
    | CursorLeft
    | MouseWheel(delta: MouseScrollDelta)
    | MouseInput(state: ElementState, button: MouseButton)
    | TouchEvent(touch: Touch)
    | ThemeChanged(theme: Theme)
    | OtherWindowEvent

  datatype DeviceEvent = MouseMotion(dx: real, dy: real) | OtherDeviceEvent

  /** What the backend's loop hands to the event handler, one at a time. */
  datatype Event =
    | NewEvents(cause: StartCause)
    | OnWindow(windowId: WindowId, event: WindowEvent)
    | OnDevice(deviceEvent: DeviceEvent)
    | UserEvent
    | Suspended
    | Resumed
    | MainEventsCleared
    | RedrawRequested(redrawWindow: WindowId)
    | RedrawEventsCleared
    | LoopDestroyed
}
