/**
  The event-loop driver: the handler the backend's loop calls once per event.
  It finishes the application's setup once, stops the loop when the
  application asks to exit, turns each backend event into descriptor updates
  and application events, and creates pending windows while the application
  is active.

  What the application reports when the handler runs (whether it is ready,
  whether it asked to exit or to redraw, the descriptors added since the last
  creation pass, the clock) is an input, `AppStatus`.
*/
module Runner {
  import opened Wrappers
  import opened Tao
  import B = Bevy
  import C = Converters
  import N = Native
  import TW = TaoWindows
  import S = System

  /** The state the handler keeps between frames. */
  datatype Persistent = Persistent(
    active: bool,
    lowPowerEvent: bool,
    redrawRequestSent: bool,
    timeoutReached: bool,
    lastUpdate: nat)

  /** The state at start-up: suspended, with nothing seen yet; `now` is the clock. */
  function DefaultPersistent(now: nat): (p: Persistent)
    ensures !p.active && !p.lowPowerEvent && !p.redrawRequestSent && !p.timeoutReached
    ensures p.lastUpdate == now
  {
    Persistent(false, false, false, false, now)
  }

  /** The application's answers when the handler runs. */
  datatype AppStatus = AppStatus(
    ready: bool,
    exitRequested: bool,
    redrawRequested: bool,
    windowChanged: bool,
    added: seq<B.Entity>,
    now: nat)

  /**
    Everything the handler reads and writes: its persistent state, the one-way
    setup flag, how often setup and the application update ran, the loop's
    control flow, and the windowing state.
  */
  datatype Snapshot = Snapshot(
    tao: Persistent,
    setupDone: bool,
    setupRuns: nat,
    updates: nat,
    controlFlow: ControlFlow,
    system: S.SystemState)

  /** Setup runs at most once, and the window registry stays consistent. */
  predicate Valid(r: Snapshot) {
    && r.system.Valid()
    && r.setupRuns == (if r.setupDone then 1 else 0)
  }

  /**
    A window event the handler can take apart: a key event reports its scan
    code and a received text has at least one character (the handler unwraps
    both).
  */
  predicate Handleable(event: WindowEvent) {
    && (event.KeyboardInput? ==> event.keyEvent.scanCode.Some?)
    && (event.ReceivedImeText? ==> event.text != [])
  }

  /** Every window event in `event` is handleable. */
  predicate Unwrappable(event: Event) {
    event.OnWindow? ==> Handleable(event.event)
  }

  // ---------------------------------------------------------------------------
  // Window events

  /**
    What one window event does to the window's descriptor, the events it
    sends, and whether it wrote the descriptor.
  */
  datatype Response = Response(window: B.Window, events: seq<B.AppEvent>, written: bool)

  /**
    The response to `event` for the window of entity `e`. Only a resize, a
    cursor move or exit, a focus change and a move write the descriptor, each
    one field; every event the handler knows sends exactly one application
    event.
  */
  function Respond(w: B.Window, e: B.Entity, event: WindowEvent): (r: Response)
    requires Handleable(event)
    ensures r.written <==> event.Resized? || event.CursorMoved? || event.CursorLeft? || event.Focused? || event.Moved?
    ensures !r.written ==> r.window == w
    ensures |r.events| == if event.OtherWindowEvent? then 0 else 1
  {
    var scale := w.resolution.EffectiveScaleFactor();
    match event
    case Resized(size) =>
      var resized := w.(resolution := w.resolution.(physicalWidth := size.width, physicalHeight := size.height));
      Response(resized, [B.WindowResized(e, resized.resolution.Width(), resized.resolution.Height())], true)
    case CloseRequested =>
      Response(w, [B.WindowCloseRequested(e)], false)
    case KeyboardInput(keyEvent) =>
      Response(w, [B.KeyboardInputEvent(C.ConvertKeyboardInput(keyEvent, e))], false)
    case CursorMoved(x, y) =>
      var moved := w.(cursor := w.cursor.(physicalPosition := Some(B.Vec2(x, y))));
      Response(moved, [B.CursorMoved(e, B.Vec2(x / scale, y / scale))], true)
    case CursorEntered =>
      Response(w, [B.CursorEntered(e)], false)
    case CursorLeft =>
      Response(w.(cursor := w.cursor.(physicalPosition := None)), [B.CursorLeft(e)], true)
    case MouseInput(state, button) =>
      Response(w, [B.MouseButtonInput(C.ConvertMouseButton(button), C.ConvertElementState(state), e)], false)
    case MouseWheel(delta) =>
      var unit := match delta case LineDelta(_, _) => B.Line case PixelDelta(_, _) => B.Pixel;
      Response(w, [B.MouseWheel(unit, delta.x, delta.y, e)], false)
    case TouchEvent(touch) =>
      var location := B.Vec2(touch.x / scale, touch.y / scale);
      Response(w, [B.TouchInputEvent(C.ConvertTouchInput(touch, location))], false)
    case ReceivedImeText(text) =>
      Response(w, [B.ReceivedCharacter(e, text[0])], false)
    case Focused(focused) =>
      Response(w.(focused := focused), [B.WindowFocused(e, focused)], true)
    case DroppedFile(path) =>
      Response(w, [B.DroppedFile(e, path)], false)
    case HoveredFile(path) =>
      Response(w, [B.HoveredFile(e, path)], false)
    case HoveredFileCancelled =>
      Response(w, [B.HoveredFileCanceled(e)], false)
    case Moved(position) =>
      Response(w.(position := B.At(position.x, position.y)), [B.WindowMoved(e, position)], true)
    case ThemeChanged(theme) =>
      Response(w, [B.WindowThemeChanged(e, C.ConvertTaoTheme(theme))], false)
    case Destroyed =>
      Response(w, [B.WindowDestroyed(e)], false)
    case OtherWindowEvent =>
      Response(w, [], false)
  }

  /** What each writing event writes, and the event it sends. */
  lemma RespondWrites(w: B.Window, e: B.Entity, event: WindowEvent)
    requires Handleable(event)
    ensures var r := Respond(w, e, event);
      event.Resized? ==>
        && r.window == w.(resolution := w.resolution.(physicalWidth := event.size.width, physicalHeight := event.size.height))
        && r.events == [B.WindowResized(e, r.window.resolution.Width(), r.window.resolution.Height())]
    ensures var r := Respond(w, e, event);
      event.CursorMoved? ==>
        && r.window == w.(cursor := w.cursor.(physicalPosition := Some(B.Vec2(event.x, event.y))))
        && r.events[0].CursorMoved? && r.events[0].window == e
    ensures var r := Respond(w, e, event);
      event.CursorLeft? ==>
        r.window == w.(cursor := w.cursor.(physicalPosition := None)) && r.events == [B.CursorLeft(e)]
    ensures var r := Respond(w, e, event);
      event.Focused? ==>
        r.window == w.(focused := event.focused) && r.events == [B.WindowFocused(e, event.focused)]
    ensures var r := Respond(w, e, event);
      event.Moved? ==>
        r.window == w.(position := B.At(event.position.x, event.position.y)) && r.events == [B.WindowMoved(e, event.position)]
  {
  }

  /** A wheel event keeps its unit and deltas; a received text sends its first character. */
  lemma RespondReports(w: B.Window, e: B.Entity, event: WindowEvent)
    requires Handleable(event)
    ensures event.MouseWheel? ==>
      Respond(w, e, event).events
        == [B.MouseWheel(if event.delta.LineDelta? then B.Line else B.Pixel, event.delta.x, event.delta.y, e)]
    ensures event.ReceivedImeText? ==> Respond(w, e, event).events == [B.ReceivedCharacter(e, event.text[0])]
  {
  }

  /**
    A cursor move reports the position in logical pixels: scaled back by the
    window's scale factor it is the physical position the backend reported.
  */
  lemma CursorMovedIsLogical(w: B.Window, e: B.Entity, x: real, y: real)
    ensures var p := Respond(w, e, CursorMoved(x, y)).events[0].position;
      var scale := w.resolution.EffectiveScaleFactor();
      p.x * scale == x && p.y * scale == y
  {
  }

  /**
    A touch reports its location in logical pixels: scaled back by the
    window's scale factor it is the physical location the backend reported;
    the touch keeps its id and the descriptor is not touched.
  */
  lemma TouchIsLogical(w: B.Window, e: B.Entity, touch: Touch)
    ensures var response := Respond(w, e, TouchEvent(touch));
      && response.window == w && !response.written
      && |response.events| == 1 && response.events[0].TouchInputEvent?
      && response.events[0].touch.id == touch.id
    ensures var p := Respond(w, e, TouchEvent(touch)).events[0].touch.position;
      var scale := w.resolution.EffectiveScaleFactor();
      p.x * scale == touch.x && p.y * scale == touch.y
  {
  }

  /**
    Applies a window event to entity `e`'s descriptor; the cached copy is
    refreshed when the descriptor counts as changed, either because the event
    wrote it or because the application changed it (`changed`).
  */
  function ApplyWindowEvent(s: S.SystemState, e: B.Entity, event: WindowEvent, changed: bool): (r: S.SystemState)
    requires e in s.windows && e in s.cached
    requires Handleable(event)
    ensures r.registry == s.registry && r.nextId == s.nextId
    ensures r.windows.Keys == s.windows.Keys && r.cached.Keys == s.cached.Keys
    ensures r.windows[e].mode == s.windows[e].mode
    ensures forall x | x in s.windows && x != e :: r.windows[x] == s.windows[x]
    ensures var response := Respond(s.windows[e], e, event);
      r.windows[e] == response.window && r.events == s.events + response.events
    ensures changed || Respond(s.windows[e], e, event).written ==> r.cached[e] == S.CachedWindow(r.windows[e])
    ensures !(changed || Respond(s.windows[e], e, event).written) ==> r.cached == s.cached
    ensures forall x | x in s.cached && x != e :: r.cached[x] == s.cached[x]
  {
    var response := Respond(s.windows[e], e, event);
    s.(windows := s.windows[e := response.window],
       cached := if changed || response.written then s.cached[e := S.CachedWindow(response.window)] else s.cached,
       events := s.events + response.events)
  }

  /** The entity whose descriptor and cached copy a window event reaches, if any. */
  function EventTarget(s: S.SystemState, id: WindowId): Option<B.Entity> {
    var found := s.registry.GetWindowEntity(id);
    if found.Some? && found.value in s.windows && found.value in s.cached then found else None
  }

  // ---------------------------------------------------------------------------
  // The handler

  /** The handler's state after a dispatch, and whether it returned early. */
  datatype Outcome = Outcome(snapshot: Snapshot, returned: bool)

  /** Finishes the application's setup the first time it is ready. */
  function SetUp(r: Snapshot, ready: bool): (p: Snapshot)
    ensures p.setupDone <==> r.setupDone || ready
    ensures p == r.(setupDone := p.setupDone, setupRuns := p.setupRuns)
    ensures p.setupRuns == if !r.setupDone && ready then r.setupRuns + 1 else r.setupRuns
  {
    if !r.setupDone && ready then r.(setupDone := true, setupRuns := r.setupRuns + 1) else r
  }

  /** The per-event part of the handler, after setup and the exit check. */
  function Dispatched(r: Snapshot, event: Event, status: AppStatus): (o: Outcome)
    requires Unwrappable(event)
    ensures o.snapshot.setupDone == r.setupDone && o.snapshot.setupRuns == r.setupRuns
    ensures o.snapshot.system.registry == r.system.registry && o.snapshot.system.nextId == r.system.nextId
    ensures o.returned <==> event.OnWindow? && EventTarget(r.system, event.windowId).None?
    ensures o.returned ==> o.snapshot == r
  {
    match event
    case NewEvents(cause) =>
      Outcome(r.(tao := r.tao.(lowPowerEvent := false, timeoutReached := cause.ResumeTimeReached?)), false)
    case OnWindow(id, windowEvent) =>
      var target := EventTarget(r.system, id);
      if target.None? then
        Outcome(r, true)
      else
        var system := ApplyWindowEvent(r.system, target.value, windowEvent, status.windowChanged);
        Outcome(r.(tao := r.tao.(lowPowerEvent := true), system := system), false)
    case OnDevice(deviceEvent) =>
      if deviceEvent.MouseMotion? then
        var motion := B.MouseMotion(B.Vec2(deviceEvent.dx, deviceEvent.dy));
        Outcome(r.(system := r.system.(events := r.system.events + [motion])), false)
      else
        Outcome(r, false)
    case Suspended =>
      Outcome(r.(tao := r.tao.(active := false)), false)
    case Resumed =>
      Outcome(r.(tao := r.tao.(active := true)), false)
    case MainEventsCleared =>
      if r.setupDone then
        Outcome(r.(tao := r.tao.(lastUpdate := status.now), updates := r.updates + 1), false)
      else
        Outcome(r, false)
    case RedrawEventsCleared =>
      Outcome(r.(controlFlow := ControlFlow.Poll, tao := r.tao.(redrawRequestSent := status.redrawRequested)), false)
    case UserEvent => Outcome(r, false)
    case RedrawRequested(_) => Outcome(r, false)
    case LoopDestroyed => Outcome(r, false)
  }

  /**
    Raw mouse motion from a device is forwarded as a motion event carrying the
    backend's delta, and nothing else changes.
  */
  lemma DeviceMotionForwarded(r: Snapshot, dx: real, dy: real, status: AppStatus)
    ensures var o := Dispatched(r, OnDevice(MouseMotion(dx, dy)), status);
      && !o.returned
      && o.snapshot.system.events == r.system.events + [B.MouseMotion(B.Vec2(dx, dy))]
      && o.snapshot.(system := r.system) == r
      && o.snapshot.system.(events := r.system.events) == r.system
  {
  }

  /**
    Other device events, user events, redraw requests and the loop's end are
    ignored: the snapshot is left as it was and the handler goes on.
  */
  lemma IgnoredEventsKeepSnapshot(r: Snapshot, event: Event, status: AppStatus)
    requires || (event.OnDevice? && !event.deviceEvent.MouseMotion?)
             || event.UserEvent? || event.RedrawRequested? || event.LoopDestroyed?
    ensures Dispatched(r, event, status) == Outcome(r, false)
  {
  }

  /** The handler up to window creation: setup, then the exit check, then the dispatch. */
  function BeforeCreation(r: Snapshot, event: Event, status: AppStatus): Outcome
    requires Unwrappable(event)
  {
    var prepared := SetUp(r, status.ready);
    if status.exitRequested then Outcome(prepared.(controlFlow := Exit), true)
    else Dispatched(prepared, event, status)
  }

  /** Pending windows are created when the handler did not return early and the application is active. */
  predicate Creates(o: Outcome) {
    !o.returned && o.snapshot.tao.active
  }

  /** Dispatch never removes a descriptor nor changes a mode, so what could be created still can. */
  lemma BeforeCreationKeepsReady(r: Snapshot, event: Event, status: AppStatus, target: N.EventLoopTarget)
    requires Unwrappable(event)
    requires S.CanCreate(r.system, status.added, target)
    ensures S.CanCreate(BeforeCreation(r, event, status).snapshot.system, status.added, target)
  {
    var prepared := SetUp(r, status.ready);
    if !status.exitRequested && event.OnWindow? {
      var e := EventTarget(prepared.system, event.windowId);
      if e.Some? {
        var s := prepared.system;
        var s' := ApplyWindowEvent(s, e.value, event.event, status.windowChanged);
        forall x | x in status.added
          ensures S.Ready(s', x, target)
        {
          assert S.Ready(s, x, target);
        }
      }
    }
  }

  /**
    The state after the handler has run for `event`. Until the application is
    ready nothing is set up; the first time it is, setup runs once, and it
    stays done.
  */
  function Handled(r: Snapshot, event: Event, status: AppStatus, target: N.EventLoopTarget,
                   query: WindowId -> N.NativeWindow): (h: Snapshot)
    requires Unwrappable(event) && S.CanCreate(r.system, status.added, target)
    ensures h.setupDone <==> r.setupDone || status.ready
    ensures h.setupRuns == (if !r.setupDone && status.ready then r.setupRuns + 1 else r.setupRuns)
  {
    var o := BeforeCreation(r, event, status);
    BeforeCreationKeepsReady(r, event, status, target);
    if Creates(o) then o.snapshot.(system := S.CreateAll(o.snapshot.system, status.added, target, query))
    else o.snapshot
  }

  /** The native calls the handler makes for `event`: those of window creation, if it runs. */
  function HandleLog(r: Snapshot, event: Event, status: AppStatus, target: N.EventLoopTarget,
                     query: WindowId -> N.NativeWindow): seq<N.Call>
    requires Unwrappable(event) && S.CanCreate(r.system, status.added, target)
  {
    var o := BeforeCreation(r, event, status);
    BeforeCreationKeepsReady(r, event, status, target);
    if Creates(o) then S.CreationLog(o.snapshot.system, status.added, target, query) else []
  }

  /** The handler is its part up to creation, followed by creation when that runs. */
  lemma HandledSplits(r: Snapshot, event: Event, status: AppStatus, target: N.EventLoopTarget,
                      query: WindowId -> N.NativeWindow)
    requires Unwrappable(event) && S.CanCreate(r.system, status.added, target)
    ensures var o := BeforeCreation(r, event, status);
      && S.CanCreate(o.snapshot.system, status.added, target)
      && Handled(r, event, status, target, query)
         == (if Creates(o) then o.snapshot.(system := S.CreateAll(o.snapshot.system, status.added, target, query))
             else o.snapshot)
      && HandleLog(r, event, status, target, query)
         == (if Creates(o) then S.CreationLog(o.snapshot.system, status.added, target, query) else [])
  {
    BeforeCreationKeepsReady(r, event, status, target);
  }

  /**
    The handler closure: its persistent state and flags are fields, and it
    reaches the windowing state through the world, the registry and the
    backend it was built with.
  */
  class Handler {
    var tao: Persistent
    var setupDone: bool
    var setupRuns: nat
    var updates: nat
    var controlFlow: ControlFlow
    const world: S.World
    const registry: TW.TaoWindows
    const backend: N.Backend

    function Model(): Snapshot
      reads this, world, registry, backend
    {
      Snapshot(tao, setupDone, setupRuns, updates, controlFlow, S.State(world, registry, backend))
    }

    constructor (world: S.World, registry: TW.TaoWindows, backend: N.Backend, now: nat, controlFlow: ControlFlow)
      ensures this.world == world && this.registry == registry && this.backend == backend
      ensures tao == DefaultPersistent(now) && !setupDone && setupRuns == 0 && updates == 0
      ensures this.controlFlow == controlFlow
    {
      tao := DefaultPersistent(now);
      setupDone := false;
      setupRuns := 0;
      updates := 0;
      this.controlFlow := controlFlow;
      this.world := world;
      this.registry := registry;
      this.backend := backend;
    }

    /** Handles one backend event. */
    method Handle(event: Event, status: AppStatus)
      requires Unwrappable(event)
      requires S.CanCreate(S.State(world, registry, backend), status.added, backend.target)
      modifies this, world, registry, backend
      ensures Model() == Handled(old(Model()), event, status, backend.target, backend.query)
      ensures backend.log == old(backend.log) + HandleLog(old(Model()), event, status, backend.target, backend.query)
    {
      ghost var r0 := Model();
      ghost var o := BeforeCreation(r0, event, status);
      HandledSplits(r0, event, status, backend.target, backend.query);
      if !setupDone {
        if status.ready {
          // The application's finish and cleanup steps
          setupRuns := setupRuns + 1;
          setupDone := true;
        }
      }
      assert Model() == SetUp(r0, status.ready);
      if status.exitRequested {
        controlFlow := Exit;
        assert !Creates(o);
        return;
      }
      var returned := Dispatch(event, status);
      assert Outcome(Model(), returned) == o;
      if returned {
        return;
      }
      if tao.active {
        S.CreateWindows(world, registry, backend, status.added);
      }
    }

    /** The per-event part of the handler; `returned` when it stops early. */
    method Dispatch(event: Event, status: AppStatus) returns (returned: bool)
      requires Unwrappable(event)
      modifies this, world
      ensures Outcome(Model(), returned) == Dispatched(old(Model()), event, status)
    {
      returned := false;
      match event {
        case NewEvents(cause) =>
          tao := tao.(lowPowerEvent := false, timeoutReached := cause.ResumeTimeReached?);
        case OnWindow(id, windowEvent) =>
          returned := HandleWindowEvent(id, windowEvent, status.windowChanged);
        case OnDevice(deviceEvent) =>
          if deviceEvent.MouseMotion? {
            world.events := world.events + [B.MouseMotion(B.Vec2(deviceEvent.dx, deviceEvent.dy))];
          }
        case Suspended =>
          tao := tao.(active := false);
        case Resumed =>
          tao := tao.(active := true);
        case MainEventsCleared =>
          if setupDone {
            tao := tao.(lastUpdate := status.now);
            updates := updates + 1;
          }
        case RedrawEventsCleared =>
          controlFlow := ControlFlow.Poll;
          tao := tao.(redrawRequestSent := status.redrawRequested);
        case UserEvent =>
        case RedrawRequested(_) =>
        case LoopDestroyed =>
      }
    }

    /**
      An event for native window `id`: dropped (`returned`) unless the window
      is registered and its descriptor and cached copy exist.
    */
    method HandleWindowEvent(id: WindowId, event: WindowEvent, changed: bool) returns (returned: bool)
      requires Handleable(event)
      modifies this, world
      ensures returned <==> EventTarget(old(Model()).system, id).None?
      ensures returned ==> Model() == old(Model())
      ensures !returned ==>
        Model() == old(Model()).(tao := old(tao).(lowPowerEvent := true),
                                 system := ApplyWindowEvent(old(Model()).system, EventTarget(old(Model()).system, id).value, event, changed))
    {
      var found := registry.Model().GetWindowEntity(id);
      if found.None? {
        return true;
      }
      var e := found.value;
      if e !in world.windows || e !in world.cached {
        return true;
      }
      tao := tao.(lowPowerEvent := true);
      var response := Respond(world.windows[e], e, event);
      world.windows := world.windows[e := response.window];
      world.events := world.events + response.events;
      if changed || response.written {
        world.cached := world.cached[e := S.CachedWindow(response.window)];
      }
      return false;
    }
  }

  // ---------------------------------------------------------------------------
  // Properties of the handler

  /** Setup runs at most once, and the registry stays consistent across events. */
  lemma HandledKeepsValid(r: Snapshot, event: Event, status: AppStatus, target: N.EventLoopTarget,
                          query: WindowId -> N.NativeWindow)
    requires Valid(r) && Unwrappable(event) && S.CanCreate(r.system, status.added, target)
    ensures Valid(Handled(r, event, status, target, query))
  {
    var o := BeforeCreation(r, event, status);
    BeforeCreationKeepsReady(r, event, status, target);
    if Creates(o) {
      S.CreateAllRegisters(o.snapshot.system, status.added, target, query);
    }
  }

  /** A pending exit stops the loop before any dispatch or window creation. */
  lemma ExitReturnsFirst(r: Snapshot, event: Event, status: AppStatus, target: N.EventLoopTarget,
                         query: WindowId -> N.NativeWindow)
    requires Unwrappable(event) && S.CanCreate(r.system, status.added, target)
    requires status.exitRequested
    ensures Handled(r, event, status, target, query) == SetUp(r, status.ready).(controlFlow := Exit)
    ensures HandleLog(r, event, status, target, query) == []
  {
  }

  /** A new frame resets the low-power flag and records whether the wait timed out. */
  lemma NewEventsResetsFrame(r: Snapshot, cause: StartCause, status: AppStatus, target: N.EventLoopTarget,
                             query: WindowId -> N.NativeWindow)
    requires S.CanCreate(r.system, status.added, target) && !status.exitRequested
    ensures var h := Handled(r, NewEvents(cause), status, target, query);
      && !h.tao.lowPowerEvent
      && (h.tao.timeoutReached <==> cause == ResumeTimeReached)
  {
  }

  /**
    An event for a native window the registry does not know, or whose
    descriptor is gone, changes nothing but setup, and no window is created
    even while active.
  */
  lemma UnknownWindowIgnored(r: Snapshot, id: WindowId, event: WindowEvent, status: AppStatus,
                             target: N.EventLoopTarget, query: WindowId -> N.NativeWindow)
    requires Unwrappable(OnWindow(id, event)) && S.CanCreate(r.system, status.added, target)
    requires EventTarget(r.system, id).None?
    ensures Handled(r, OnWindow(id, event), status, target, query) == SetUp(r, status.ready)
      || status.exitRequested
    ensures HandleLog(r, OnWindow(id, event), status, target, query) == []
  {
  }

  /** An event for a known window counts as activity for low-power mode and updates that window. */
  lemma KnownWindowEvent(r: Snapshot, id: WindowId, event: WindowEvent, status: AppStatus)
    requires Unwrappable(OnWindow(id, event)) && !status.exitRequested
    requires EventTarget(r.system, id).Some?
    ensures var o := BeforeCreation(r, OnWindow(id, event), status);
      var e := EventTarget(r.system, id).value;
      && !o.returned && o.snapshot.tao.lowPowerEvent
      && o.snapshot.system.windows[e] == Respond(r.system.windows[e], e, event).window
      && o.snapshot.system.events == r.system.events + Respond(r.system.windows[e], e, event).events
      && (status.windowChanged || Respond(r.system.windows[e], e, event).written ==>
            o.snapshot.system.cached[e] == S.CachedWindow(o.snapshot.system.windows[e]))
      && (!(status.windowChanged || Respond(r.system.windows[e], e, event).written) ==>
            o.snapshot.system.cached == r.system.cached)
  {
  }

  /** Windows are created only while the application is active, and always then unless the handler returned. */
  lemma CreationOnlyWhileActive(r: Snapshot, event: Event, status: AppStatus, target: N.EventLoopTarget,
                                query: WindowId -> N.NativeWindow)
    requires Unwrappable(event) && S.CanCreate(r.system, status.added, target)
    ensures var o := BeforeCreation(r, event, status);
      var h := Handled(r, event, status, target, query);
      && (Creates(o) ==> h.tao.active && h.system == S.CreateAll(o.snapshot.system, status.added, target, query))
      && (!Creates(o) ==> h == o.snapshot && HandleLog(r, event, status, target, query) == [])
  {
  }

  /** Suspending deactivates and creates nothing; resuming activates and creates the pending windows. */
  lemma SuspendAndResume(r: Snapshot, status: AppStatus, target: N.EventLoopTarget,
                         query: WindowId -> N.NativeWindow)
    requires S.CanCreate(r.system, status.added, target) && !status.exitRequested
    ensures var h := Handled(r, Suspended, status, target, query);
      !h.tao.active && h.system == r.system && HandleLog(r, Suspended, status, target, query) == []
    ensures var h := Handled(r, Resumed, status, target, query);
      h.tao.active && h.system == S.CreateAll(r.system, status.added, target, query)
  {
  }

  /** The application is updated at the end of the main events exactly when setup is done. */
  lemma MainEventsClearedUpdates(r: Snapshot, status: AppStatus, target: N.EventLoopTarget,
                                 query: WindowId -> N.NativeWindow)
    requires S.CanCreate(r.system, status.added, target) && !status.exitRequested
    ensures var h := Handled(r, MainEventsCleared, status, target, query);
      && h.updates == (if r.setupDone || status.ready then r.updates + 1 else r.updates)
      && (r.setupDone || status.ready ==> h.tao.lastUpdate == status.now)
  {
  }

  /** After the redraw events the loop polls, and a redraw request is remembered. */
  lemma RedrawEventsClearedPolls(r: Snapshot, status: AppStatus, target: N.EventLoopTarget,
                                 query: WindowId -> N.NativeWindow)
    requires S.CanCreate(r.system, status.added, target) && !status.exitRequested
    ensures var h := Handled(r, RedrawEventsCleared, status, target, query);
      h.controlFlow == ControlFlow.Poll && (h.tao.redrawRequestSent <==> status.redrawRequested)
  {
  }

  // ---------------------------------------------------------------------------
  // Entering the loop

  /** How the loop is entered: never returning, or returning to the caller when it ends. */
  datatype LoopEntry = Run | RunReturn

  /** The default setting: the loop does not return. */
  const DefaultReturnFromRun := false

  function Entry(returnFromRun: bool): (entry: LoopEntry)
    ensures entry.RunReturn? <==> returnFromRun
  {
    if returnFromRun then RunReturn else Run
  }
}
