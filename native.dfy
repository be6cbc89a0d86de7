/**
  The native side of the bridge as the window code sees it. Building a window
  and every setter call is one entry appended to a log, and what the operating
  system reports about a window (its theme, scale factor, decorations, position,
  whether the cursor hit-test can be changed) is an input snapshot.
*/
module Native {
  import opened Wrappers
  import opened Tao
  import B = Bevy

  /** A size in logical pixels (the backend's `LogicalSize<f64>`). */
  datatype LogicalSize = LogicalSize(width: real, height: real)

  /** The inner size handed to the window builder, in logical or in physical pixels. */
  datatype InnerSize = Logical(logical: LogicalSize) | Physical(width: real, height: real)

  /** Everything the window builder is given before the window is built. */
  datatype WindowAttributes = WindowAttributes(
    fullscreen: Option<Fullscreen>,
    position: Option<PhysicalPosition>,
    innerSize: Option<InnerSize>,
    theme: Option<Theme>,
    resizable: bool,
    decorations: bool,
    minInnerSize: LogicalSize,
    maxInnerSize: Option<LogicalSize>,
    title: string)

  /** A setter called on a built window. */
  datatype NativeOp =
    | SetTitle(title: string)
    | SetFullscreen(fullscreen: Option<Fullscreen>)
    | SetInnerSize(size: PhysicalSize)
    | SetCursorPosition(x: real, y: real)
    | SetCursorIcon(icon: CursorIcon)
    | SetCursorGrab(grab: bool)
    | SetCursorVisible(visible: bool)
    | SetIgnoreCursorEvents(ignore: bool)
    | SetDecorations(decorations: bool)
    | SetResizable(resizable: bool)
    | SetMinInnerSize(minSize: LogicalSize)
    | SetMaxInnerSize(maxSize: LogicalSize)
    | SetOuterPosition(position: PhysicalPosition)
    | SetMaximized(maximized: bool)
    | SetMinimized(minimized: bool)
    | SetFocus
    | SetAlwaysOnTop(onTop: bool)
    | SetAlwaysOnBottom(onBottom: bool)
    | SetImePosition(x: real, y: real)

  /** One entry of the native call log. */
  datatype Call =
    | Built(id: WindowId, attributes: WindowAttributes)
    | Invoked(target: WindowId, op: NativeOp)

  /** What the operating system reports about one built window. */
  datatype NativeWindow = NativeWindow(
    theme: Theme,
    scaleFactor: B.ScaleFactor,
    fullscreen: Option<Fullscreen>,
    decorated: bool,
    resizable: bool,
    innerSize: PhysicalSize,
    outerPosition: Option<PhysicalPosition>,
    currentMonitor: Option<Monitor>,
    ignoreCursorEventsSupported: bool)

  /** The monitors the running event loop knows about. */
  datatype EventLoopTarget = EventLoopTarget(primaryMonitor: Option<Monitor>, availableMonitors: seq<Monitor>)

  /**
    The native windowing backend: it hands out a fresh id for every window it
    builds and records every call made to it.
  */
  class Backend {
    var nextId: WindowId
    var log: seq<Call>
    const target: EventLoopTarget
    const query: WindowId -> NativeWindow

    constructor (target: EventLoopTarget, query: WindowId -> NativeWindow)
      ensures nextId == 0 && log == []
      ensures this.target == target && this.query == query
    {
      nextId := 0;
      log := [];
      this.target := target;
      this.query := query;
    }

    /** Every id this backend has handed out is below `nextId`. */
    predicate Issued(id: WindowId)
      reads this
    {
      id < nextId
    }

    method Build(attributes: WindowAttributes) returns (id: WindowId)
      modifies this
      ensures id == old(nextId) && nextId == id + 1
      ensures log == old(log) + [Built(id, attributes)]
    {
      id := nextId;
      nextId := nextId + 1;
      log := log + [Built(id, attributes)];
    }

    method Invoke(window: WindowId, op: NativeOp)
      modifies this
      ensures nextId == old(nextId)
      ensures log == old(log) + [Invoked(window, op)]
    {
      log := log + [Invoked(window, op)];
    }

    /** Calls the setters in order; `ops` is logged as it is. */
    method InvokeAll(window: WindowId, ops: seq<NativeOp>)
      modifies this
      ensures nextId == old(nextId)
      ensures log == old(log) + Invocations(window, ops)
    {
      var i := 0;
      while i < |ops|
        invariant 0 <= i <= |ops|
        invariant nextId == old(nextId)
        invariant log == old(log) + Invocations(window, ops[..i])
      {
        InvocationsAppend(window, ops[..i], ops[i]);
        assert ops[..i + 1] == ops[..i] + [ops[i]];
        Invoke(window, ops[i]);
        i := i + 1;
      }
      assert ops[..i] == ops;
    }
  }

  /** The log entries for calling `ops` on `window`, in order. */
  function Invocations(window: WindowId, ops: seq<NativeOp>): (calls: seq<Call>)
    ensures |calls| == |ops|
    ensures forall i :: 0 <= i < |ops| ==> calls[i] == Invoked(window, ops[i])
  {
    if ops == [] then [] else [Invoked(window, ops[0])] + Invocations(window, ops[1..])
  }

  lemma InvocationsAppend(window: WindowId, ops: seq<NativeOp>, op: NativeOp)
    ensures Invocations(window, ops + [op]) == Invocations(window, ops) + [Invoked(window, op)]
  {
  }
}
