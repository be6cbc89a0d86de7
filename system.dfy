/**
  The three window systems of the bridge: creating native windows for new
  window descriptors, closing the native side of despawned ones, and pushing
  every change the application made to a descriptor out to its native window.
*/
module System {
  import opened Wrappers
  import opened Tao
  import B = Bevy
  import N = Native
  import C = Converters
  import TW = TaoWindows
  import Casts

  /** The copy of a descriptor taken after its last synchronisation. */
  datatype CachedWindow = CachedWindow(window: B.Window)

  /**
    The application world as far as windows go: the `Window` component and
    the `CachedWindow` component of each entity that has them, and the window
    events sent so far.
  */
  class World {
    var windows: map<B.Entity, B.Window>
    var cached: map<B.Entity, CachedWindow>
    var events: seq<B.AppEvent>

    constructor (windows: map<B.Entity, B.Window>)
      ensures this.windows == windows && cached == map[] && events == []
    {
      this.windows := windows;
      cached := map[];
      events := [];
    }
  }

  /**
    Everything the window systems read or change, as one value, except the
    native call log, which is specified beside it.
  */
  datatype SystemState = SystemState(
    registry: TW.Registry,
    nextId: WindowId,
    windows: map<B.Entity, B.Window>,
    cached: map<B.Entity, CachedWindow>,
    events: seq<B.AppEvent>)
  {
    /** The registry is consistent and every id it has seen was handed out. */
    predicate Valid() {
      registry.Valid() && registry.IdsBelow(nextId)
    }
  }

  function State(world: World, registry: TW.TaoWindows, backend: N.Backend): SystemState
    reads world, registry, backend
  {
    SystemState(registry.Model(), backend.nextId, world.windows, world.cached, world.events)
  }

  lemma AppendAssociative<T>(a: seq<T>, b: seq<T>, c: seq<T>)
    ensures (a + b) + c == a + (b + c)
  {
  }

  predicate Distinct(es: seq<B.Entity>) {
    forall i, j | 0 <= i < j < |es| :: es[i] != es[j]
  }

  // ---------------------------------------------------------------------------
  // Creating windows

  /**
    `e` has a descriptor the backend can build: an exclusive fullscreen mode
    needs a primary monitor with a video mode.
  */
  predicate Ready(s: SystemState, e: B.Entity, target: N.EventLoopTarget) {
    e in s.windows && TW.ExclusiveReady(s.windows[e].mode, target.primaryMonitor)
  }

  /** Every entity to create has a descriptor the backend can build. */
  predicate CanCreate(s: SystemState, created: seq<B.Entity>, target: N.EventLoopTarget) {
    forall e | e in created :: Ready(s, e, target)
  }

  /**
    The descriptor after creation: the theme and the scale factor are the ones
    the operating system reports for the new window, the physical size is
    re-derived from the logical size at the new factor, and every other field
    is the application's.
  */
  function Adopt(window: B.Window, native: N.NativeWindow): (w: B.Window)
    ensures w.windowTheme == Some(C.ConvertTaoTheme(native.theme))
    ensures w.resolution.scaleFactor == native.scaleFactor
    ensures w.resolution.scaleFactorOverride == window.resolution.scaleFactorOverride
    ensures w.resolution.physicalWidth
      == Casts.TruncateU32(window.resolution.Width() * w.resolution.EffectiveScaleFactor())
    ensures w.resolution.physicalHeight
      == Casts.TruncateU32(window.resolution.Height() * w.resolution.EffectiveScaleFactor())
    ensures w.(windowTheme := window.windowTheme, resolution := window.resolution) == window
  {
    window.(windowTheme := Some(C.ConvertTaoTheme(native.theme)),
            resolution := window.resolution.WithScaleFactor(native.scaleFactor))
  }

  /**
    One entity of the creation system: skipped when it already has a window,
    otherwise built, registered, adopted, cached and announced.
  */
  function CreateOne(s: SystemState, e: B.Entity, target: N.EventLoopTarget,
                     query: WindowId -> N.NativeWindow): (r: SystemState)
    requires Ready(s, e, target)
    ensures forall x | Ready(s, x, target) :: Ready(r, x, target)
    ensures s.registry.GetWindow(e).Some? ==> r == s
    ensures s.registry.GetWindow(e).None? ==>
      && r.registry.GetWindow(e) == Some(s.nextId)
      && r.registry.GetWindowEntity(s.nextId) == Some(e)
      && r.nextId == s.nextId + 1
      && e in r.windows && e in r.cached
      && r.windows[e].windowTheme == Some(C.ConvertTaoTheme(query(s.nextId).theme))
      && r.windows[e].resolution.scaleFactor == query(s.nextId).scaleFactor
      && r.cached[e] == CachedWindow(r.windows[e])
      && r.events == s.events + [B.WindowCreated(e)]
    ensures s.registry.GetWindow(e).None? ==>
      && r.windows == s.windows[e := Adopt(s.windows[e], query(s.nextId))]
      && r.cached == s.cached[e := CachedWindow(r.windows[e])]
  {
    if s.registry.GetWindow(e).Some? then
      s
    else
      var id := s.nextId;
      var window := Adopt(s.windows[e], query(id));
      SystemState(
        s.registry.Insert(e, id),
        id + 1,
        s.windows[e := window],
        s.cached[e := CachedWindow(window)],
        s.events + [B.WindowCreated(e)])
  }

  /**
    The registry side of the creation system: the registry, the next native
    id, and the entities that were given a window so far.
  */
  datatype Registration = Registration(registry: TW.Registry, nextId: WindowId, added: seq<B.Entity>)
  {
    predicate Valid() {
      registry.Valid() && registry.IdsBelow(nextId)
    }
  }

  function RegisterOne(g: Registration, e: B.Entity): Registration {
    if g.registry.GetWindow(e).Some? then g
    else Registration(g.registry.Insert(e, g.nextId), g.nextId + 1, g.added + [e])
  }

  function RegisterAll(g: Registration, es: seq<B.Entity>): Registration
    decreases |es|
  {
    if es == [] then g else RegisterOne(RegisterAll(g, es[..|es| - 1]), es[|es| - 1])
  }

  function CreatedEvents(es: seq<B.Entity>): (events: seq<B.AppEvent>)
    ensures |events| == |es|
    ensures forall i | 0 <= i < |es| :: events[i] == B.WindowCreated(es[i])
  {
    if es == [] then [] else CreatedEvents(es[..|es| - 1]) + [B.WindowCreated(es[|es| - 1])]
  }

  /** The creation system over `created`, in order. */
  function CreateAll(s: SystemState, created: seq<B.Entity>, target: N.EventLoopTarget,
                     query: WindowId -> N.NativeWindow): (r: SystemState)
    requires CanCreate(s, created, target)
    ensures forall x | Ready(s, x, target) :: Ready(r, x, target)
    decreases |created|
  {
    if created == [] then
      s
    else
      var prefix := created[..|created| - 1];
      assert forall e | e in prefix :: e in created;
      CreateOne(CreateAll(s, prefix, target, query), created[|created| - 1], target, query)
  }

  /**
    The native calls the creation system makes for `e`: none when it already
    has a window, otherwise building it under the next id, then the cursor
    calls.
  */
  function BuildLog(s: SystemState, e: B.Entity, target: N.EventLoopTarget): (calls: seq<N.Call>)
    requires Ready(s, e, target)
    ensures calls == [] <==> s.registry.GetWindow(e).Some?
    ensures calls != [] ==> calls[0] == N.Built(s.nextId, TW.BuilderAttributes(s.windows[e], target))
  {
    if s.registry.GetWindow(e).Some? then [] else TW.CreationCalls(s.nextId, s.windows[e], target)
  }

  /** The native calls of the creation system over `created`, in order. */
  function CreationLog(s: SystemState, created: seq<B.Entity>, target: N.EventLoopTarget,
                       query: WindowId -> N.NativeWindow): seq<N.Call>
    requires CanCreate(s, created, target)
    decreases |created|
  {
    if created == [] then
      []
    else
      var prefix := created[..|created| - 1];
      assert forall e | e in prefix :: e in created;
      assert Ready(s, created[|created| - 1], target);
      CreationLog(s, prefix, target, query) + BuildLog(CreateAll(s, prefix, target, query), created[|created| - 1], target)
  }

  /** The registry and the next native id after creation are the ones registration gives. */
  lemma {:induction false} CreateAllRegistry(s: SystemState, created: seq<B.Entity>, target: N.EventLoopTarget,
                                             query: WindowId -> N.NativeWindow)
    requires CanCreate(s, created, target)
    ensures var r := CreateAll(s, created, target, query);
      var g := RegisterAll(Registration(s.registry, s.nextId, []), created);
      r.registry == g.registry && r.nextId == g.nextId
    decreases |created|
  {
    if created != [] {
      var prefix := created[..|created| - 1];
      assert forall e | e in prefix :: e in created;
      CreateAllRegistry(s, prefix, target, query);
    }
  }

  /** One `WindowCreated` is sent per entity that registration gives a window, in order. */
  lemma {:induction false} CreateAllEvents(s: SystemState, created: seq<B.Entity>, target: N.EventLoopTarget,
                                           query: WindowId -> N.NativeWindow)
    requires CanCreate(s, created, target)
    ensures var r := CreateAll(s, created, target, query);
      var g := RegisterAll(Registration(s.registry, s.nextId, []), created);
      r.events == s.events + CreatedEvents(g.added)
    decreases |created|
  {
    if created != [] {
      var prefix := created[..|created| - 1];
      var last := created[|created| - 1];
      assert forall e | e in prefix :: e in created;
      CreateAllRegistry(s, prefix, target, query);
      CreateAllEvents(s, prefix, target, query);
      var g := RegisterAll(Registration(s.registry, s.nextId, []), prefix);
      assert CreatedEvents(g.added + [last]) == CreatedEvents(g.added) + [B.WindowCreated(last)];
      AppendAssociative(s.events, CreatedEvents(g.added), [B.WindowCreated(last)]);
    }
  }

  /** When registration gives no entity a window, the creation system changes nothing at all. */
  lemma {:induction false} CreateAllUnchanged(s: SystemState, created: seq<B.Entity>, target: N.EventLoopTarget,
                                              query: WindowId -> N.NativeWindow)
    requires CanCreate(s, created, target)
    requires RegisterAll(Registration(s.registry, s.nextId, []), created).added == []
    ensures CreateAll(s, created, target, query) == s
    decreases |created|
  {
    if created != [] {
      var prefix := created[..|created| - 1];
      assert forall e | e in prefix :: e in created;
      CreateAllRegistry(s, prefix, target, query);
      CreateAllUnchanged(s, prefix, target, query);
    }
  }

  /** The creation system calls the backend at all exactly when registration gives some entity a window. */
  lemma {:induction false} CreationLogEmpty(s: SystemState, created: seq<B.Entity>, target: N.EventLoopTarget,
                                            query: WindowId -> N.NativeWindow)
    requires CanCreate(s, created, target)
    ensures CreationLog(s, created, target, query) == []
      <==> RegisterAll(Registration(s.registry, s.nextId, []), created).added == []
    decreases |created|
  {
    if created != [] {
      var prefix := created[..|created| - 1];
      assert forall e | e in prefix :: e in created;
      CreateAllRegistry(s, prefix, target, query);
      CreationLogEmpty(s, prefix, target, query);
    }
  }

  /** Registering one entity keeps the registry valid and other entities' lookups. */
  lemma RegisterOneFrame(g: Registration, e: B.Entity)
    requires g.Valid()
    ensures var h := RegisterOne(g, e);
      && h.Valid()
      && h.registry.GetWindow(e).Some?
      && (forall x | x != e :: h.registry.GetWindow(x) == g.registry.GetWindow(x))
  {
    if g.registry.GetWindow(e).None? {
      TW.InsertIdsBelow(g.registry, e, g.nextId);
      TW.InsertValid(g.registry, e, g.nextId);
      forall x | x != e
        ensures RegisterOne(g, e).registry.GetWindow(x) == g.registry.GetWindow(x)
      {
        TW.InsertKeepsOthers(g.registry, e, g.nextId, x);
      }
    }
  }

  /**
    After the creation system every listed entity has a window, the registry
    is still valid, and entities outside the list keep their lookups.
  */
  lemma {:induction false} RegisterAllRegisters(g: Registration, es: seq<B.Entity>)
    requires g.Valid()
    ensures var h := RegisterAll(g, es);
      && h.Valid()
      && (forall e | e in es :: h.registry.GetWindow(e).Some?)
      && (forall e | e !in es :: h.registry.GetWindow(e) == g.registry.GetWindow(e))
    decreases |es|
  {
    if es != [] {
      var prefix := es[..|es| - 1];
      var last := es[|es| - 1];
      RegisterAllRegisters(g, prefix);
      var m := RegisterAll(g, prefix);
      RegisterOneFrame(m, last);
      forall e | e in es
        ensures RegisterAll(g, es).registry.GetWindow(e).Some?
      {
        if e != last {
          assert e in prefix;
        }
      }
      forall e | e !in es
        ensures RegisterAll(g, es).registry.GetWindow(e) == g.registry.GetWindow(e)
      {
        assert e !in prefix;
      }
    }
  }

  /** A pass over entities that all have windows registers nothing. */
  lemma {:induction false} RegisterAllSkips(g: Registration, es: seq<B.Entity>)
    requires forall e | e in es :: g.registry.GetWindow(e).Some?
    ensures RegisterAll(g, es) == g
    decreases |es|
  {
    if es != [] {
      RegisterAllSkips(g, es[..|es| - 1]);
    }
  }

  /** The entities of `es` that have no window in `registry`, in order. */
  function Unregistered(registry: TW.Registry, es: seq<B.Entity>): (r: seq<B.Entity>)
    ensures forall e | e in r :: e in es && registry.GetWindow(e).None?
    ensures forall e | e in es && registry.GetWindow(e).None? :: e in r
    decreases |es|
  {
    if es == [] then []
    else
      var rest := Unregistered(registry, es[..|es| - 1]);
      assert forall e | e in es :: e in es[..|es| - 1] || e == es[|es| - 1];
      if registry.GetWindow(es[|es| - 1]).None? then rest + [es[|es| - 1]] else rest
  }

  /**
    Over distinct entities, exactly the entities that had no window are given
    one, in order.
  */
  lemma {:induction false} RegisterAllAdds(g: Registration, es: seq<B.Entity>)
    requires g.Valid() && Distinct(es)
    ensures RegisterAll(g, es).added == g.added + Unregistered(g.registry, es)
    decreases |es|
  {
    if es != [] {
      var prefix := es[..|es| - 1];
      var last := es[|es| - 1];
      RegisterAllAdds(g, prefix);
      RegisterAllRegisters(g, prefix);
      assert last !in prefix;
    }
  }

  /**
    After the creation system the registry is still valid and every listed
    entity has a window.
  */
  lemma CreateAllRegisters(s: SystemState, created: seq<B.Entity>, target: N.EventLoopTarget,
                           query: WindowId -> N.NativeWindow)
    requires CanCreate(s, created, target) && s.Valid()
    ensures var r := CreateAll(s, created, target, query);
      r.Valid() && forall e | e in created :: r.registry.GetWindow(e).Some?
  {
    CreateAllRegistry(s, created, target, query);
    RegisterAllRegisters(Registration(s.registry, s.nextId, []), created);
  }

  /**
    Over distinct entities, the creation system sends exactly one
    `WindowCreated` for each entity that had no window, in order.
  */
  lemma CreateAllAnnounces(s: SystemState, created: seq<B.Entity>, target: N.EventLoopTarget,
                           query: WindowId -> N.NativeWindow)
    requires CanCreate(s, created, target) && s.Valid() && Distinct(created)
    ensures CreateAll(s, created, target, query).events
      == s.events + CreatedEvents(Unregistered(s.registry, created))
  {
    var g := Registration(s.registry, s.nextId, []);
    CreateAllEvents(s, created, target, query);
    RegisterAllAdds(g, created);
    assert RegisterAll(g, created).added == Unregistered(s.registry, created) by {
      assert [] + Unregistered(s.registry, created) == Unregistered(s.registry, created);
    }
  }

  /** Running the creation system a second time builds and sends nothing. */
  lemma CreateAllIdempotent(s: SystemState, created: seq<B.Entity>, target: N.EventLoopTarget,
                            query: WindowId -> N.NativeWindow)
    requires CanCreate(s, created, target) && s.Valid()
    ensures var r := CreateAll(s, created, target, query);
      && CanCreate(r, created, target)
      && CreateAll(r, created, target, query) == r
      && CreationLog(r, created, target, query) == []
  {
    var r := CreateAll(s, created, target, query);
    var g := Registration(s.registry, s.nextId, []);
    CreateAllRegistry(s, created, target, query);
    RegisterAllRegisters(g, created);
    assert CanCreate(r, created, target);
    RegisterAllSkips(Registration(r.registry, r.nextId, []), created);
    CreateAllUnchanged(r, created, target, query);
    CreationLogEmpty(r, created, target, query);
  }

  /** Builds, registers, adopts, caches and announces one new window. */
  method CreateWindowFor(world: World, registry: TW.TaoWindows, backend: N.Backend, e: B.Entity)
    requires Ready(State(world, registry, backend), e, backend.target)
    modifies world, registry, backend
    ensures State(world, registry, backend)
      == CreateOne(old(State(world, registry, backend)), e, backend.target, backend.query)
    ensures backend.log == old(backend.log) + BuildLog(old(State(world, registry, backend)), e, backend.target)
  {
    if registry.Model().GetWindow(e).None? {
      var window := world.windows[e];
      var id := registry.CreateWindow(backend, e, window);
      var adopted := Adopt(window, backend.query(id));
      world.windows := world.windows[e := adopted];
      world.cached := world.cached[e := CachedWindow(adopted)];
      world.events := world.events + [B.WindowCreated(e)];
    }
  }

  /** One more entity of the creation system, as the loop below takes it. */
  lemma CreateAllStep(s: SystemState, created: seq<B.Entity>, i: nat, target: N.EventLoopTarget,
                      query: WindowId -> N.NativeWindow)
    requires CanCreate(s, created, target) && i < |created|
    ensures CanCreate(s, created[..i], target) && CanCreate(s, created[..i + 1], target)
    ensures Ready(CreateAll(s, created[..i], target, query), created[i], target)
    ensures CreateAll(s, created[..i + 1], target, query)
      == CreateOne(CreateAll(s, created[..i], target, query), created[i], target, query)
    ensures CreationLog(s, created[..i + 1], target, query)
      == CreationLog(s, created[..i], target, query) + BuildLog(CreateAll(s, created[..i], target, query), created[i], target)
  {
    assert created[..i + 1][..i] == created[..i];
    assert forall x | x in created[..i + 1] :: x in created;
    assert Ready(s, created[i], target);
  }

  /**
    The creation system: for each new descriptor in turn, builds its native
    window unless it already has one.
  */
  method CreateWindows(world: World, registry: TW.TaoWindows, backend: N.Backend, created: seq<B.Entity>)
    requires CanCreate(State(world, registry, backend), created, backend.target)
    modifies world, registry, backend
    ensures State(world, registry, backend)
      == CreateAll(old(State(world, registry, backend)), created, backend.target, backend.query)
    ensures backend.log
      == old(backend.log) + CreationLog(old(State(world, registry, backend)), created, backend.target, backend.query)
  {
    ghost var s0 := State(world, registry, backend);
    var i := 0;
    while i < |created|
      invariant 0 <= i <= |created|
      invariant State(world, registry, backend) == CreateAll(s0, created[..i], backend.target, backend.query)
      invariant backend.log == old(backend.log) + CreationLog(s0, created[..i], backend.target, backend.query)
    {
      CreateAllStep(s0, created, i, backend.target, backend.query);
      ghost var calls := BuildLog(State(world, registry, backend), created[i], backend.target);
      AppendAssociative(old(backend.log), CreationLog(s0, created[..i], backend.target, backend.query), calls);
      CreateWindowFor(world, registry, backend, created[i]);
      i := i + 1;
    }
    assert created[..i] == created;
  }

  // ---------------------------------------------------------------------------
  // Despawning windows

  /**
    One removed `Window` component: when the entity really has no `Window`
    any more, its native window is dropped and `WindowClosed` is sent.
  */
  function DespawnOne(s: SystemState, e: B.Entity): (r: SystemState)
    ensures e in s.windows ==> r == s
    ensures e !in s.windows ==>
      && r.registry.GetWindow(e).None?
      && r.registry.nativeToEntity == s.registry.nativeToEntity
      && r.events == s.events + [B.WindowClosed(e)]
      && r.registry == s.registry.Remove(e).0
    ensures forall x | x != e && x in s.registry.entityToNative ::
      x in r.registry.entityToNative && r.registry.entityToNative[x] == s.registry.entityToNative[x]
    ensures s.Valid() ==> forall x | x != e :: r.registry.GetWindow(x) == s.registry.GetWindow(x)
    ensures r.windows == s.windows && r.cached == s.cached && r.nextId == s.nextId
  {
    if e in s.windows then
      s
    else
      s.(registry := s.registry.Remove(e).0, events := s.events + [B.WindowClosed(e)])
  }

  function DespawnAll(s: SystemState, removed: seq<B.Entity>): SystemState
    decreases |removed|
  {
    if removed == [] then s else DespawnOne(DespawnAll(s, removed[..|removed| - 1]), removed[|removed| - 1])
  }

  /**
    Closing keeps the system valid, and the closed window's native id still
    names its entity.
  */
  lemma DespawnOneValid(s: SystemState, e: B.Entity)
    requires s.Valid()
    ensures DespawnOne(s, e).Valid()
    ensures e !in s.windows && e in s.registry.entityToNative ==>
      DespawnOne(s, e).registry.GetWindowEntity(s.registry.entityToNative[e]) == Some(e)
  {
    if e !in s.windows {
      TW.RemoveValid(s.registry, e);
    }
  }

  /** The despawn system keeps the registry valid and touches no descriptor or native window. */
  lemma {:induction false} DespawnAllValid(s: SystemState, removed: seq<B.Entity>)
    requires s.Valid()
    ensures var r := DespawnAll(s, removed);
      r.Valid() && r.windows == s.windows && r.cached == s.cached
    decreases |removed|
  {
    if removed != [] {
      DespawnAllValid(s, removed[..|removed| - 1]);
      DespawnOneValid(DespawnAll(s, removed[..|removed| - 1]), removed[|removed| - 1]);
    }
  }

  /**
    The despawn system: for each removed `Window` component in turn, closes
    the native side unless the entity has a `Window` again. The backend is
    only read.
  */
  method DespawnWindows(world: World, registry: TW.TaoWindows, backend: N.Backend, removed: seq<B.Entity>)
    modifies world, registry
    ensures State(world, registry, backend) == DespawnAll(old(State(world, registry, backend)), removed)
  {
    ghost var s0 := State(world, registry, backend);
    var i := 0;
    while i < |removed|
      invariant 0 <= i <= |removed|
      invariant State(world, registry, backend) == DespawnAll(s0, removed[..i])
    {
      var e := removed[i];
      assert removed[..i + 1][..i] == removed[..i];
      if e !in world.windows {
        var _ := registry.RemoveWindow(e);
        world.events := world.events + [B.WindowClosed(e)];
      }
      i := i + 1;
    }
    assert removed[..i] == removed;
  }

  // ---------------------------------------------------------------------------
  // Pushing descriptor changes to native windows

  /**
    A changed mode can be applied: an exclusive mode needs a current monitor
    with a video mode.
  */
  predicate ModeReady(w: B.Window, c: B.Window, native: N.NativeWindow) {
    w.mode != c.mode ==> TW.ExclusiveReady(w.mode, native.currentMonitor)
  }

  /** The fullscreen state a changed mode asks for, borderless on no particular monitor. */
  function ChangedFullscreen(w: B.Window, native: N.NativeWindow): Option<Fullscreen>
    requires TW.ExclusiveReady(w.mode, native.currentMonitor)
  {
    TW.FullscreenFor(w, None, native.currentMonitor)
  }

  /** The backend's cursor position for the descriptor's one, with the vertical axis flipped. */
  function FlippedCursorPosition(p: B.Vec2, native: N.NativeWindow): N.NativeOp {
    N.SetCursorPosition(p.x, native.innerSize.height as real - p.y)
  }

  /** The position a changed `position` asks for, on the window's monitors. */
  function ChangedPosition(w: B.Window, native: N.NativeWindow, target: N.EventLoopTarget): Option<PhysicalPosition> {
    TW.TaoWindowPosition(w.position, w.resolution, target.availableMonitors,
                         target.primaryMonitor, native.currentMonitor)
  }

  /**
    Where a setter stands in the change pass, one place per kind of call:
    title, fullscreen, size, then the cursor, the frame, the requests and the
    IME position, as the bridge writes them.
  */
  function Rank(op: N.NativeOp): nat {
    match op
    case SetTitle(_) => 0
    case SetFullscreen(_) => 1
    case SetInnerSize(_) => 2
    case SetCursorPosition(_, _) => 3
    case SetCursorIcon(_) => 4
    case SetCursorGrab(_) => 5
    case SetCursorVisible(_) => 6
    case SetIgnoreCursorEvents(_) => 7
    case SetDecorations(_) => 8
    case SetResizable(_) => 9
    case SetMinInnerSize(_) => 10
    case SetMaxInnerSize(_) => 11
    case SetOuterPosition(_) => 12
    case SetMaximized(_) => 13
    case SetMinimized(_) => 14
    case SetFocus => 15
    case SetAlwaysOnTop(_) => 16
    case SetAlwaysOnBottom(_) => 17
    case SetImePosition(_, _) => 18
  }

  /**
    The calls follow the change pass's order within its stretch from `lo` up
    to `hi`: each ranks at least `lo`, below `hi`, and above the one before.
  */
  predicate InSourceOrder(ops: seq<N.NativeOp>, lo: nat, hi: nat)
    decreases |ops|
  {
    ops == [] || (lo <= Rank(ops[0]) < hi && InSourceOrder(ops[1..], Rank(ops[0]) + 1, hi))
  }

  /** Two stretches of the change pass run one after the other keep its order. */
  lemma {:induction false} InOrderConcat(a: seq<N.NativeOp>, b: seq<N.NativeOp>, lo: nat, mid: nat, hi: nat)
    requires lo <= mid <= hi
    requires InSourceOrder(a, lo, mid) && InSourceOrder(b, mid, hi)
    ensures InSourceOrder(a + b, lo, hi)
    decreases |a|
  {
    if a == [] {
      assert a + b == b;
    } else {
      assert (a + b)[1..] == a[1..] + b;
      InOrderConcat(a[1..], b, Rank(a[0]) + 1, mid, hi);
    }
  }

  /** Four consecutive stretches of the change pass keep its order. */
  lemma InOrder4(a: seq<N.NativeOp>, b: seq<N.NativeOp>, c: seq<N.NativeOp>, d: seq<N.NativeOp>,
                 r0: nat, r1: nat, r2: nat, r3: nat, r4: nat)
    requires r0 <= r1 <= r2 <= r3 <= r4
    requires InSourceOrder(a, r0, r1) && InSourceOrder(b, r1, r2)
    requires InSourceOrder(c, r2, r3) && InSourceOrder(d, r3, r4)
    ensures InSourceOrder(a + b + c + d, r0, r4)
  {
    InOrderConcat(a, b, r0, r1, r2);
    InOrderConcat(a + b, c, r0, r2, r3);
    InOrderConcat(a + b + c, d, r0, r3, r4);
  }

  /** Five consecutive stretches of the change pass keep its order. */
  lemma InOrder5(a: seq<N.NativeOp>, b: seq<N.NativeOp>, c: seq<N.NativeOp>, d: seq<N.NativeOp>, e: seq<N.NativeOp>,
                 r0: nat, r1: nat, r2: nat, r3: nat, r4: nat, r5: nat)
    requires r0 <= r1 <= r2 <= r3 <= r4 <= r5
    requires InSourceOrder(a, r0, r1) && InSourceOrder(b, r1, r2)
    requires InSourceOrder(c, r2, r3) && InSourceOrder(d, r3, r4)
    requires InSourceOrder(e, r4, r5)
    ensures InSourceOrder(a + b + c + d + e, r0, r5)
  {
    InOrder4(a, b, c, d, r0, r1, r2, r3, r4);
    InOrderConcat(a + b + c + d, e, r0, r4, r5);
  }

  /**
    Calls in the change pass's order stay in its stretch and rank strictly
    upward, so no kind of call appears twice.
  */
  lemma {:induction false} InSourceOrderDistinct(ops: seq<N.NativeOp>, lo: nat, hi: nat)
    requires InSourceOrder(ops, lo, hi)
    ensures forall i | 0 <= i < |ops| :: lo <= Rank(ops[i]) < hi
    ensures forall i, j | 0 <= i < j < |ops| :: Rank(ops[i]) < Rank(ops[j])
    decreases |ops|
  {
    if ops != [] {
      var rest := ops[1..];
      InSourceOrderDistinct(rest, Rank(ops[0]) + 1, hi);
      forall i | 0 < i < |ops|
        ensures Rank(ops[0]) < Rank(ops[i]) < hi
      {
        assert ops[i] == rest[i - 1];
      }
      forall i, j | 0 < i < j < |ops|
        ensures Rank(ops[i]) < Rank(ops[j])
      {
        assert ops[i] == rest[i - 1] && ops[j] == rest[j - 1];
      }
    }
  }

  /** Title, fullscreen state and size, in that order. */
  function ShapeOps(w: B.Window, c: B.Window, native: N.NativeWindow): (ops: seq<N.NativeOp>)
    requires ModeReady(w, c, native)
    ensures forall op | op in ops :: op.SetTitle? || op.SetFullscreen? || op.SetInnerSize?
    ensures w.title == c.title && w.mode == c.mode && w.resolution == c.resolution ==> ops == []
  {
    (if w.title != c.title then [N.SetTitle(w.title)] else [])
    + (if w.mode != c.mode && native.fullscreen != ChangedFullscreen(w, native)
       then [N.SetFullscreen(ChangedFullscreen(w, native))] else [])
    + (if w.resolution != c.resolution
       then [N.SetInnerSize(PhysicalSize(w.resolution.physicalWidth, w.resolution.physicalHeight))] else [])
  }

  /** Cursor position, icon, grab, visibility and hit test, in that order. */
  function CursorOps(w: B.Window, c: B.Window, native: N.NativeWindow): (ops: seq<N.NativeOp>)
    ensures forall op | op in ops ::
      op.SetCursorPosition? || op.SetCursorIcon? || op.SetCursorGrab? || op.SetCursorVisible? || op.SetIgnoreCursorEvents?
    ensures w.cursor == c.cursor && w.resolution == c.resolution ==> ops == []
    ensures N.SetIgnoreCursorEvents(true) in ops <==> w.cursor.hitTest != c.cursor.hitTest && !w.cursor.hitTest
    ensures N.SetIgnoreCursorEvents(false) in ops <==> w.cursor.hitTest != c.cursor.hitTest && w.cursor.hitTest
  {
    (if w.PhysicalCursorPosition() != c.PhysicalCursorPosition() && w.PhysicalCursorPosition().Some?
     then [FlippedCursorPosition(w.PhysicalCursorPosition().value, native)] else [])
    + (if w.cursor.icon != c.cursor.icon then [N.SetCursorIcon(C.ConvertCursorIcon(w.cursor.icon))] else [])
    + (if w.cursor.grabMode != c.cursor.grabMode then [N.SetCursorGrab(TW.CursorGrabFlag(w.cursor.grabMode))] else [])
    + (if w.cursor.visible != c.cursor.visible then [N.SetCursorVisible(w.cursor.visible)] else [])
    + (if w.cursor.hitTest != c.cursor.hitTest
       then [N.SetIgnoreCursorEvents(TW.IgnoreCursorEvents(w.cursor.hitTest))] else [])
  }

  /** Decorations, resizability, size limits and position, in that order. */
  function FrameOps(w: B.Window, c: B.Window, native: N.NativeWindow, target: N.EventLoopTarget): (ops: seq<N.NativeOp>)
    ensures forall op | op in ops ::
      op.SetDecorations? || op.SetResizable? || op.SetMinInnerSize? || op.SetMaxInnerSize? || op.SetOuterPosition?
    ensures (&& w.decorations == c.decorations && w.resizable == c.resizable
             && w.resizeConstraints == c.resizeConstraints && w.position == c.position) ==> ops == []
  {
    (if w.decorations != c.decorations && w.decorations != native.decorated
     then [N.SetDecorations(w.decorations)] else [])
    + (if w.resizable != c.resizable && w.resizable != native.resizable
       then [N.SetResizable(w.resizable)] else [])
    + (if w.resizeConstraints != c.resizeConstraints
       then [N.SetMinInnerSize(TW.MinInnerSize(w.resizeConstraints))]
            + (if TW.MaxInnerSize(w.resizeConstraints).Some?
               then [N.SetMaxInnerSize(TW.MaxInnerSize(w.resizeConstraints).value)] else [])
       else [])
    + (if w.position != c.position && ChangedPosition(w, native, target).Some?
          && native.outerPosition != ChangedPosition(w, native, target)
       then [N.SetOuterPosition(ChangedPosition(w, native, target).value)] else [])
  }

  /** The one-shot requests, focus, window level and IME position, in that order. */
  function RequestOps(w: B.Window, c: B.Window): (ops: seq<N.NativeOp>)
    ensures forall op | op in ops ::
      op.SetMaximized? || op.SetMinimized? || op.SetFocus? || op.SetAlwaysOnTop? || op.SetAlwaysOnBottom?
      || op.SetImePosition?
    ensures (&& w.maximizeRequest.None? && w.minimizeRequest.None? && w.focused == c.focused
             && w.windowLevel == c.windowLevel && w.imePosition == c.imePosition) ==> ops == []
  {
    (if w.maximizeRequest.Some? then [N.SetMaximized(w.maximizeRequest.value)] else [])
    + (if w.minimizeRequest.Some? then [N.SetMinimized(w.minimizeRequest.value)] else [])
    + (if w.focused != c.focused && w.focused then [N.SetFocus] else [])
    + (if w.windowLevel != c.windowLevel
       then [N.SetAlwaysOnTop(C.WindowLevelFlags(w.windowLevel).0),
             N.SetAlwaysOnBottom(C.WindowLevelFlags(w.windowLevel).1)] else [])
    + (if w.imePosition != c.imePosition then [N.SetImePosition(w.imePosition.x, w.imePosition.y)] else [])
  }

  /** The shape stage makes each of its calls at most once, in the bridge's order. */
  lemma ShapeOpsInOrder(w: B.Window, c: B.Window, native: N.NativeWindow)
    requires ModeReady(w, c, native)
    ensures InSourceOrder(ShapeOps(w, c, native), 0, 3)
  {
    var title := if w.title != c.title then [N.SetTitle(w.title)] else [];
    var fullscreen :=
      if w.mode != c.mode && native.fullscreen != ChangedFullscreen(w, native)
      then [N.SetFullscreen(ChangedFullscreen(w, native))] else [];
    var size :=
      if w.resolution != c.resolution
      then [N.SetInnerSize(PhysicalSize(w.resolution.physicalWidth, w.resolution.physicalHeight))] else [];
    InOrderConcat(title, fullscreen, 0, 1, 2);
    InOrderConcat(title + fullscreen, size, 0, 2, 3);
  }

  /** The cursor stage makes each of its calls at most once, in the bridge's order. */
  lemma CursorOpsInOrder(w: B.Window, c: B.Window, native: N.NativeWindow)
    ensures InSourceOrder(CursorOps(w, c, native), 3, 8)
  {
    var position :=
      if w.PhysicalCursorPosition() != c.PhysicalCursorPosition() && w.PhysicalCursorPosition().Some?
      then [FlippedCursorPosition(w.PhysicalCursorPosition().value, native)] else [];
    var icon := if w.cursor.icon != c.cursor.icon then [N.SetCursorIcon(C.ConvertCursorIcon(w.cursor.icon))] else [];
    var grab :=
      if w.cursor.grabMode != c.cursor.grabMode then [N.SetCursorGrab(TW.CursorGrabFlag(w.cursor.grabMode))] else [];
    var visible := if w.cursor.visible != c.cursor.visible then [N.SetCursorVisible(w.cursor.visible)] else [];
    var hitTest :=
      if w.cursor.hitTest != c.cursor.hitTest
      then [N.SetIgnoreCursorEvents(TW.IgnoreCursorEvents(w.cursor.hitTest))] else [];
    InOrder5(position, icon, grab, visible, hitTest, 3, 4, 5, 6, 7, 8);
  }

  /** The frame stage makes each of its calls at most once, in the bridge's order. */
  lemma FrameOpsInOrder(w: B.Window, c: B.Window, native: N.NativeWindow, target: N.EventLoopTarget)
    ensures InSourceOrder(FrameOps(w, c, native, target), 8, 13)
  {
    var moved := ChangedPosition(w, native, target);
    FrameCallsInOrder(
      w.decorations != c.decorations && w.decorations != native.decorated, w.decorations,
      w.resizable != c.resizable && w.resizable != native.resizable, w.resizable,
      w.resizeConstraints != c.resizeConstraints,
      TW.MinInnerSize(w.resizeConstraints), TW.MaxInnerSize(w.resizeConstraints),
      w.position != c.position && moved.Some? && native.outerPosition != moved, moved);
  }

  /** The frame stage's calls, whichever of its checks pass, come in the bridge's order. */
  lemma FrameCallsInOrder(decorate: bool, decorations: bool, resize: bool, resizable: bool,
                          limit: bool, minSize: N.LogicalSize, maxSize: Option<N.LogicalSize>,
                          place: bool, position: Option<PhysicalPosition>)
    requires place ==> position.Some?
    ensures InSourceOrder(
      (if decorate then [N.SetDecorations(decorations)] else [])
      + (if resize then [N.SetResizable(resizable)] else [])
      + (if limit
         then [N.SetMinInnerSize(minSize)] + (if maxSize.Some? then [N.SetMaxInnerSize(maxSize.value)] else [])
         else [])
      + (if place then [N.SetOuterPosition(position.value)] else []), 8, 13)
  {
    var maximum := if maxSize.Some? then [N.SetMaxInnerSize(maxSize.value)] else [];
    InOrderConcat([N.SetMinInnerSize(minSize)], maximum, 10, 11, 12);
    InOrder4(if decorate then [N.SetDecorations(decorations)] else [],
             if resize then [N.SetResizable(resizable)] else [],
             if limit then [N.SetMinInnerSize(minSize)] + maximum else [],
             if place then [N.SetOuterPosition(position.value)] else [],
             8, 9, 10, 12, 13);
  }

  /** The request stage makes each of its calls at most once, in the bridge's order. */
  lemma RequestOpsInOrder(w: B.Window, c: B.Window)
    ensures InSourceOrder(RequestOps(w, c), 13, 19)
  {
    RequestCallsInOrder(w.maximizeRequest, w.minimizeRequest, w.focused != c.focused && w.focused,
                        w.windowLevel != c.windowLevel, C.WindowLevelFlags(w.windowLevel),
                        w.imePosition != c.imePosition, w.imePosition.x, w.imePosition.y);
  }

  /** The request stage's calls, whichever of its checks pass, come in the bridge's order. */
  lemma RequestCallsInOrder(maximize: Option<bool>, minimize: Option<bool>, focus: bool,
                            level: bool, flags: (bool, bool), ime: bool, x: real, y: real)
    ensures InSourceOrder(
      (if maximize.Some? then [N.SetMaximized(maximize.value)] else [])
      + (if minimize.Some? then [N.SetMinimized(minimize.value)] else [])
      + (if focus then [N.SetFocus] else [])
      + (if level then [N.SetAlwaysOnTop(flags.0), N.SetAlwaysOnBottom(flags.1)] else [])
      + (if ime then [N.SetImePosition(x, y)] else []), 13, 19)
  {
    var onTop, onBottom := N.SetAlwaysOnTop(flags.0), N.SetAlwaysOnBottom(flags.1);
    assert [onTop, onBottom] == [onTop] + [onBottom];
    InOrderConcat([onTop], [onBottom], 16, 17, 18);
    InOrder5(if maximize.Some? then [N.SetMaximized(maximize.value)] else [],
             if minimize.Some? then [N.SetMinimized(minimize.value)] else [],
             if focus then [N.SetFocus] else [],
             if level then [N.SetAlwaysOnTop(flags.0), N.SetAlwaysOnBottom(flags.1)] else [],
             if ime then [N.SetImePosition(x, y)] else [],
             13, 14, 15, 16, 18, 19);
  }

  /**
    A synchronisation makes each kind of call at most once (so at most one
    maximize and one minimize), in the order the bridge checks the fields.
  */
  lemma ReconcileOpsInOrder(w: B.Window, c: B.Window, native: N.NativeWindow, target: N.EventLoopTarget)
    requires ModeReady(w, c, native)
    ensures InSourceOrder(ReconcileOps(w, c, native, target), 0, 19)
    ensures forall i, j | 0 <= i < j < |ReconcileOps(w, c, native, target)| ::
      Rank(ReconcileOps(w, c, native, target)[i]) < Rank(ReconcileOps(w, c, native, target)[j])
  {
    var shape, cursor := ShapeOps(w, c, native), CursorOps(w, c, native);
    var frame, requests := FrameOps(w, c, native, target), RequestOps(w, c);
    ShapeOpsInOrder(w, c, native);
    CursorOpsInOrder(w, c, native);
    FrameOpsInOrder(w, c, native, target);
    RequestOpsInOrder(w, c);
    InOrder4(shape, cursor, frame, requests, 0, 3, 8, 13, 19);
    InSourceOrderDistinct(ReconcileOps(w, c, native, target), 0, 19);
  }

  /**
    The setters that bring the native window in line with descriptor `w`,
    given the copy `c` cached at the last synchronisation.
  */
  function ReconcileOps(w: B.Window, c: B.Window, native: N.NativeWindow, target: N.EventLoopTarget): (ops: seq<N.NativeOp>)
    requires ModeReady(w, c, native)
    ensures w == c && w.maximizeRequest.None? && w.minimizeRequest.None? ==> ops == []
  {
    ShapeOps(w, c, native) + CursorOps(w, c, native) + FrameOps(w, c, native, target) + RequestOps(w, c)
  }

  /**
    The descriptor after synchronisation, which is also the new cached copy: a
    hit-test change the backend refused is rolled back, a transparency change
    is undone (it cannot be applied after creation), and the one-shot requests
    are consumed; every other field is the application's.
  */
  function Settled(w: B.Window, c: B.Window, native: N.NativeWindow): (settled: B.Window)
    ensures settled.cursor.hitTest ==
      if w.cursor.hitTest != c.cursor.hitTest && !native.ignoreCursorEventsSupported
      then c.cursor.hitTest else w.cursor.hitTest
    ensures settled.transparent == c.transparent
    ensures settled.maximizeRequest.None? && settled.minimizeRequest.None?
    ensures settled.(cursor := w.cursor, transparent := w.transparent,
                     maximizeRequest := w.maximizeRequest, minimizeRequest := w.minimizeRequest) == w
  {
    var hitTest :=
      if w.cursor.hitTest != c.cursor.hitTest && !native.ignoreCursorEventsSupported
      then c.cursor.hitTest else w.cursor.hitTest;
    w.(cursor := w.cursor.(hitTest := hitTest), transparent := c.transparent,
       maximizeRequest := None, minimizeRequest := None)
  }

  /**
    When a setter is called during synchronisation: the field it serves
    changed since the cached copy (or a request is pending), the native
    window does not already have the value where the bridge checks, and the
    argument is the one the descriptor asks for.
  */
  predicate Justified(op: N.NativeOp, w: B.Window, c: B.Window, native: N.NativeWindow, target: N.EventLoopTarget)
    requires ModeReady(w, c, native)
  {
    match op
    case SetTitle(title) => w.title != c.title && title == w.title
    case SetFullscreen(f) =>
      w.mode != c.mode && f == ChangedFullscreen(w, native) && native.fullscreen != f
    case SetInnerSize(size) =>
      w.resolution != c.resolution
      && size == PhysicalSize(w.resolution.physicalWidth, w.resolution.physicalHeight)
    case SetCursorPosition(_, _) =>
      && w.PhysicalCursorPosition() != c.PhysicalCursorPosition()
      && w.PhysicalCursorPosition().Some?
      && op == FlippedCursorPosition(w.PhysicalCursorPosition().value, native)
    case SetCursorIcon(icon) => w.cursor.icon != c.cursor.icon && icon == C.ConvertCursorIcon(w.cursor.icon)
    case SetCursorGrab(grab) =>
      w.cursor.grabMode != c.cursor.grabMode && (grab <==> w.cursor.grabMode != B.NoGrab)
    case SetCursorVisible(visible) => w.cursor.visible != c.cursor.visible && visible == w.cursor.visible
    case SetIgnoreCursorEvents(ignore) =>
      w.cursor.hitTest != c.cursor.hitTest && (TW.ReceivesCursorEvents(ignore) <==> w.cursor.hitTest)
    case SetDecorations(d) => w.decorations != c.decorations && d == w.decorations && d != native.decorated
    case SetResizable(r) => w.resizable != c.resizable && r == w.resizable && r != native.resizable
    case SetMinInnerSize(size) =>
      w.resizeConstraints != c.resizeConstraints && size == TW.MinInnerSize(w.resizeConstraints)
    case SetMaxInnerSize(size) =>
      w.resizeConstraints != c.resizeConstraints && TW.MaxInnerSize(w.resizeConstraints) == Some(size)
    case SetOuterPosition(p) =>
      && w.position != c.position
      && ChangedPosition(w, native, target) == Some(p)
      && native.outerPosition != Some(p)
    case SetMaximized(m) => w.maximizeRequest == Some(m)
    case SetMinimized(m) => w.minimizeRequest == Some(m)
    case SetFocus => w.focused != c.focused && w.focused
    case SetAlwaysOnTop(onTop) => w.windowLevel != c.windowLevel && (onTop <==> w.windowLevel.AlwaysOnTop?)
    case SetAlwaysOnBottom(onBottom) =>
      w.windowLevel != c.windowLevel && (onBottom <==> w.windowLevel.AlwaysOnBottom?)
    case SetImePosition(x, y) => w.imePosition != c.imePosition && x == w.imePosition.x && y == w.imePosition.y
  }

  lemma ShapeOpsSound(w: B.Window, c: B.Window, native: N.NativeWindow, target: N.EventLoopTarget)
    requires ModeReady(w, c, native)
    ensures forall op | op in ShapeOps(w, c, native) :: Justified(op, w, c, native, target)
  {
  }

  lemma CursorOpsSound(w: B.Window, c: B.Window, native: N.NativeWindow, target: N.EventLoopTarget)
    requires ModeReady(w, c, native)
    ensures forall op | op in CursorOps(w, c, native) :: Justified(op, w, c, native, target)
  {
  }

  lemma FrameOpsSound(w: B.Window, c: B.Window, native: N.NativeWindow, target: N.EventLoopTarget)
    requires ModeReady(w, c, native)
    ensures forall op | op in FrameOps(w, c, native, target) :: Justified(op, w, c, native, target)
  {
    forall op | op in FrameOps(w, c, native, target)
      ensures Justified(op, w, c, native, target)
    {
      if op.SetDecorations? {
      } else if op.SetResizable? {
      } else if op.SetMinInnerSize? || op.SetMaxInnerSize? {
      } else {
      }
    }
  }

  lemma RequestOpsSound(w: B.Window, c: B.Window, native: N.NativeWindow, target: N.EventLoopTarget)
    requires ModeReady(w, c, native)
    ensures forall op | op in RequestOps(w, c) :: Justified(op, w, c, native, target)
  {
  }

  /** Every setter the synchronisation calls is justified. */
  lemma ReconcileSound(w: B.Window, c: B.Window, native: N.NativeWindow, target: N.EventLoopTarget)
    requires ModeReady(w, c, native)
    ensures forall op | op in ReconcileOps(w, c, native, target) :: Justified(op, w, c, native, target)
  {
    ShapeOpsSound(w, c, native, target);
    CursorOpsSound(w, c, native, target);
    FrameOpsSound(w, c, native, target);
    RequestOpsSound(w, c, native, target);
  }

  lemma ShapeOpsComplete(w: B.Window, c: B.Window, native: N.NativeWindow, target: N.EventLoopTarget)
    requires ModeReady(w, c, native)
    ensures forall op | Justified(op, w, c, native, target) && (op.SetTitle? || op.SetFullscreen? || op.SetInnerSize?) :: op in ShapeOps(w, c, native)
  {
  }

  lemma CursorOpsComplete(w: B.Window, c: B.Window, native: N.NativeWindow, target: N.EventLoopTarget)
    requires ModeReady(w, c, native)
    ensures forall op | Justified(op, w, c, native, target) && (op.SetCursorPosition? || op.SetCursorIcon? || op.SetCursorGrab? || op.SetCursorVisible? || op.SetIgnoreCursorEvents?) :: op in CursorOps(w, c, native)
  {
  }

  lemma FrameOpsComplete(w: B.Window, c: B.Window, native: N.NativeWindow, target: N.EventLoopTarget)
    requires ModeReady(w, c, native)
    ensures forall op | Justified(op, w, c, native, target) && (op.SetDecorations? || op.SetResizable? || op.SetMinInnerSize? || op.SetMaxInnerSize? || op.SetOuterPosition?) :: op in FrameOps(w, c, native, target)
  {
  }

  lemma RequestOpsComplete(w: B.Window, c: B.Window, native: N.NativeWindow, target: N.EventLoopTarget)
    requires ModeReady(w, c, native)
    ensures forall op | Justified(op, w, c, native, target) && (op.SetMaximized? || op.SetMinimized? || op.SetFocus? || op.SetAlwaysOnTop? || op.SetAlwaysOnBottom? || op.SetImePosition?) :: op in RequestOps(w, c)
  {
  }

  /** Every justified setter is called. */
  lemma ReconcileComplete(w: B.Window, c: B.Window, native: N.NativeWindow, target: N.EventLoopTarget)
    requires ModeReady(w, c, native)
    ensures forall op | Justified(op, w, c, native, target) :: op in ReconcileOps(w, c, native, target)
  {
    ShapeOpsComplete(w, c, native, target);
    CursorOpsComplete(w, c, native, target);
    FrameOpsComplete(w, c, native, target);
    RequestOpsComplete(w, c, native, target);
  }

  /**
    A synchronised window is quiet: synchronising it against its own cached
    copy, whatever the native window now reports, calls nothing and changes
    nothing.
  */
  lemma SettledIsQuiet(w: B.Window, c: B.Window, native: N.NativeWindow, later: N.NativeWindow,
                       target: N.EventLoopTarget)
    requires ModeReady(w, c, native)
    ensures var settled := Settled(w, c, native);
      && ModeReady(settled, settled, later)
      && ReconcileOps(settled, settled, later, target) == []
      && Settled(settled, settled, later) == settled
  {
  }

  /**
    A changed descriptor can be synchronised: it has a cached copy, and when
    it has a live native window, a changed exclusive mode has a monitor to
    use.
  */
  predicate CanChange(s: SystemState, e: B.Entity, query: WindowId -> N.NativeWindow) {
    && e in s.windows && e in s.cached
    && (s.registry.GetWindow(e).Some? ==>
          ModeReady(s.windows[e], s.cached[e].window, query(s.registry.GetWindow(e).value)))
  }

  predicate CanChangeAll(s: SystemState, changed: seq<B.Entity>, query: WindowId -> N.NativeWindow) {
    forall e | e in changed :: CanChange(s, e, query)
  }

  /**
    One changed descriptor: skipped when it has no live native window,
    otherwise settled, and the settled descriptor becomes its cached copy.
  */
  function ChangeOne(s: SystemState, e: B.Entity, query: WindowId -> N.NativeWindow): (r: SystemState)
    requires CanChange(s, e, query)
    ensures forall x | CanChange(s, x, query) :: CanChange(r, x, query)
  {
    if s.registry.GetWindow(e).None? then
      s
    else
      var settled := Settled(s.windows[e], s.cached[e].window, query(s.registry.GetWindow(e).value));
      s.(windows := s.windows[e := settled], cached := s.cached[e := CachedWindow(settled)])
  }

  /** The native calls for one changed descriptor: its setters, on its native window. */
  function ChangeCalls(s: SystemState, e: B.Entity, target: N.EventLoopTarget,
                       query: WindowId -> N.NativeWindow): seq<N.Call>
    requires CanChange(s, e, query)
  {
    if s.registry.GetWindow(e).None? then
      []
    else
      var id := s.registry.GetWindow(e).value;
      N.Invocations(id, ReconcileOps(s.windows[e], s.cached[e].window, query(id), target))
  }

  /** The change system over `changed`, in order. */
  function ChangeAll(s: SystemState, changed: seq<B.Entity>, query: WindowId -> N.NativeWindow): (r: SystemState)
    requires CanChangeAll(s, changed, query)
    ensures forall x | CanChange(s, x, query) :: CanChange(r, x, query)
    decreases |changed|
  {
    if changed == [] then
      s
    else
      var prefix := changed[..|changed| - 1];
      assert forall e | e in prefix :: e in changed;
      ChangeOne(ChangeAll(s, prefix, query), changed[|changed| - 1], query)
  }

  /** The native calls of the change system over `changed`, in order. */
  function ChangeLog(s: SystemState, changed: seq<B.Entity>, target: N.EventLoopTarget,
                     query: WindowId -> N.NativeWindow): seq<N.Call>
    requires CanChangeAll(s, changed, query)
    decreases |changed|
  {
    if changed == [] then
      []
    else
      var prefix := changed[..|changed| - 1];
      assert forall e | e in prefix :: e in changed;
      assert CanChange(s, changed[|changed| - 1], query);
      ChangeLog(s, prefix, target, query) + ChangeCalls(ChangeAll(s, prefix, query), changed[|changed| - 1], target, query)
  }

  /**
    `e`'s descriptor and cached copy agree and no request is pending, or it
    has no live native window.
  */
  predicate InSync(s: SystemState, e: B.Entity) {
    && e in s.windows && e in s.cached
    && (s.registry.GetWindow(e).Some? ==>
          && s.cached[e].window == s.windows[e]
          && s.windows[e].maximizeRequest.None? && s.windows[e].minimizeRequest.None?)
  }

  /**
    Changing one descriptor touches only it and its cached copy, and leaves
    the two in sync.
  */
  lemma ChangeOneEffect(s: SystemState, e: B.Entity, query: WindowId -> N.NativeWindow)
    requires CanChange(s, e, query)
    ensures var r := ChangeOne(s, e, query);
      && r.registry == s.registry && r.nextId == s.nextId && r.events == s.events
      && r.windows.Keys == s.windows.Keys && r.cached.Keys == s.cached.Keys
      && InSync(r, e)
      && (forall x | x in s.windows && x != e :: r.windows[x] == s.windows[x])
      && (forall x | x in s.cached && x != e :: r.cached[x] == s.cached[x])
  {
  }

  /**
    The change system touches only the listed descriptors and their cached
    copies, and leaves the registry, the native ids and the events alone.
  */
  lemma {:induction false} ChangeAllFrame(s: SystemState, changed: seq<B.Entity>, query: WindowId -> N.NativeWindow)
    requires CanChangeAll(s, changed, query)
    ensures var r := ChangeAll(s, changed, query);
      && r.registry == s.registry && r.nextId == s.nextId && r.events == s.events
      && r.windows.Keys == s.windows.Keys && r.cached.Keys == s.cached.Keys
      && (forall e | e in s.windows && e !in changed :: r.windows[e] == s.windows[e])
      && (forall e | e in s.cached && e !in changed :: r.cached[e] == s.cached[e])
    decreases |changed|
  {
    if changed != [] {
      var prefix := changed[..|changed| - 1];
      assert forall e | e in prefix :: e in changed;
      ChangeAllFrame(s, prefix, query);
      ChangeOneEffect(ChangeAll(s, prefix, query), changed[|changed| - 1], query);
    }
  }

  /** After the change system every listed descriptor is in sync with its cached copy. */
  lemma {:induction false} ChangeAllSyncs(s: SystemState, changed: seq<B.Entity>, query: WindowId -> N.NativeWindow)
    requires CanChangeAll(s, changed, query)
    ensures forall e | e in changed :: InSync(ChangeAll(s, changed, query), e)
    decreases |changed|
  {
    if changed != [] {
      var prefix := changed[..|changed| - 1];
      var last := changed[|changed| - 1];
      assert forall e | e in prefix :: e in changed;
      ChangeAllSyncs(s, prefix, query);
      var m := ChangeAll(s, prefix, query);
      ChangeOneEffect(m, last, query);
      forall e | e in changed ensures InSync(ChangeOne(m, last, query), e) {
        if e != last {
          assert e in prefix && InSync(m, e);
        }
      }
    }
  }

  /** A descriptor in sync is quiet: changing it again calls nothing and changes nothing. */
  lemma InSyncQuiet(s: SystemState, e: B.Entity, target: N.EventLoopTarget, query: WindowId -> N.NativeWindow)
    requires InSync(s, e)
    ensures CanChange(s, e, query)
    ensures ChangeOne(s, e, query) == s && ChangeCalls(s, e, target, query) == []
  {
    if s.registry.GetWindow(e).Some? {
      var w := s.windows[e];
      var native := query(s.registry.GetWindow(e).value);
      assert Settled(w, w, native) == w;
      assert s.windows[e := w] == s.windows;
      assert s.cached[e := CachedWindow(w)] == s.cached;
    }
  }

  /** A pass over descriptors that are all in sync calls nothing and changes nothing. */
  lemma {:induction false} ChangeAllQuiet(s: SystemState, changed: seq<B.Entity>, target: N.EventLoopTarget,
                                          query: WindowId -> N.NativeWindow)
    requires forall e | e in changed :: InSync(s, e)
    ensures CanChangeAll(s, changed, query)
    ensures ChangeAll(s, changed, query) == s && ChangeLog(s, changed, target, query) == []
    decreases |changed|
  {
    forall e | e in changed ensures CanChange(s, e, query) {
      InSyncQuiet(s, e, target, query);
    }
    if changed != [] {
      var prefix := changed[..|changed| - 1];
      assert forall e | e in prefix :: e in changed;
      ChangeAllQuiet(s, prefix, target, query);
      InSyncQuiet(s, changed[|changed| - 1], target, query);
    }
  }

  /** Running the change system a second time over the same descriptors calls and changes nothing. */
  lemma ChangeAllIdempotent(s: SystemState, changed: seq<B.Entity>, target: N.EventLoopTarget,
                            query: WindowId -> N.NativeWindow)
    requires CanChangeAll(s, changed, query)
    ensures var r := ChangeAll(s, changed, query);
      && CanChangeAll(r, changed, query)
      && ChangeAll(r, changed, query) == r
      && ChangeLog(r, changed, target, query) == []
  {
    ChangeAllSyncs(s, changed, query);
    ChangeAllQuiet(ChangeAll(s, changed, query), changed, target, query);
  }

  /** One more descriptor of the change system, as the loop below takes it. */
  lemma ChangeAllStep(s: SystemState, changed: seq<B.Entity>, i: nat, target: N.EventLoopTarget,
                      query: WindowId -> N.NativeWindow)
    requires CanChangeAll(s, changed, query) && i < |changed|
    ensures CanChangeAll(s, changed[..i], query) && CanChangeAll(s, changed[..i + 1], query)
    ensures CanChange(ChangeAll(s, changed[..i], query), changed[i], query)
    ensures ChangeAll(s, changed[..i + 1], query) == ChangeOne(ChangeAll(s, changed[..i], query), changed[i], query)
    ensures ChangeLog(s, changed[..i + 1], target, query)
      == ChangeLog(s, changed[..i], target, query)
         + ChangeCalls(ChangeAll(s, changed[..i], query), changed[i], target, query)
  {
    assert changed[..i + 1][..i] == changed[..i];
    assert forall x | x in changed[..i + 1] :: x in changed;
    assert CanChange(s, changed[i], query);
  }

  /**
    Synchronises one changed descriptor with its native window, if it has
    one: calls the setters its changes need, in order, then caches the
    settled descriptor.
  */
  method SyncWindow(world: World, registry: TW.TaoWindows, backend: N.Backend, e: B.Entity)
    requires CanChange(State(world, registry, backend), e, backend.query)
    modifies world, backend
    ensures State(world, registry, backend) == ChangeOne(old(State(world, registry, backend)), e, backend.query)
    ensures backend.log
      == old(backend.log) + ChangeCalls(old(State(world, registry, backend)), e, backend.target, backend.query)
  {
    var found := registry.Model().GetWindow(e);
    if found.None? {
      return;
    }
    var id := found.value;
    var window := world.windows[e];
    var cache := world.cached[e].window;
    var native := backend.query(id);
    backend.InvokeAll(id, ReconcileOps(window, cache, native, backend.target));
    var settled := Settled(window, cache, native);
    world.windows := world.windows[e := settled];
    world.cached := world.cached[e := CachedWindow(settled)];
  }

  /**
    The change system: for each changed descriptor in turn, calls the setters
    its changes need on its native window and caches the settled descriptor.
  */
  method ChangedWindows(world: World, registry: TW.TaoWindows, backend: N.Backend, changed: seq<B.Entity>)
    requires CanChangeAll(State(world, registry, backend), changed, backend.query)
    modifies world, backend
    ensures State(world, registry, backend) == ChangeAll(old(State(world, registry, backend)), changed, backend.query)
    ensures backend.log
      == old(backend.log) + ChangeLog(old(State(world, registry, backend)), changed, backend.target, backend.query)
  {
    ghost var s0 := State(world, registry, backend);
    var i := 0;
    while i < |changed|
      invariant 0 <= i <= |changed|
      invariant State(world, registry, backend) == ChangeAll(s0, changed[..i], backend.query)
      invariant backend.log == old(backend.log) + ChangeLog(s0, changed[..i], backend.target, backend.query)
    {
      ChangeAllStep(s0, changed, i, backend.target, backend.query);
      ghost var calls := ChangeCalls(State(world, registry, backend), changed[i], backend.target, backend.query);
      AppendAssociative(old(backend.log), ChangeLog(s0, changed[..i], backend.target, backend.query), calls);
      SyncWindow(world, registry, backend, changed[i]);
      i := i + 1;
    }
    assert changed[..i] == changed;
  }
}
