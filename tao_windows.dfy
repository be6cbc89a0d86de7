/**
  The window registry that ties application entities to native windows, the
  two fullscreen video-mode selectors, the placement of a new window, and the
  cursor requests made right after a window is built.
*/
module TaoWindows {
  import opened Wrappers
  import opened Tao
  import B = Bevy
  import N = Native
  import C = Converters
  import opened Casts

  // ---------------------------------------------------------------------------
  // The registry

  /**
    The registry's three maps as a value: the live native windows, entity to
    native id, and native id to entity. Removing a window keeps its native id to
    entity entry, so that late events for a closed window can still be traced.
  */
  datatype Registry = Registry(
    windows: set<WindowId>,
    entityToNative: map<B.Entity, WindowId>,
    nativeToEntity: map<WindowId, B.Entity>)
  {
    /**
      The live native window of `entity`, if it has one; when the registry is
      valid, that is whenever the entity has an entry.
    */
    function GetWindow(entity: B.Entity): (r: Option<WindowId>)
      ensures r.Some? <==> entity in entityToNative && entityToNative[entity] in windows
      ensures r.Some? ==> r.value == entityToNative[entity]
      ensures Valid() ==> (r.Some? <==> entity in entityToNative)
    {
      if entity in entityToNative && entityToNative[entity] in windows then
        Some(entityToNative[entity])
      else
        None
    }

    /**
      The entity a native window belongs or belonged to; for a live window of
      a valid registry, the entity whose window it is.
    */
    function GetWindowEntity(id: WindowId): (r: Option<B.Entity>)
      ensures r.Some? <==> id in nativeToEntity
      ensures r.Some? ==> r.value == nativeToEntity[id]
      ensures Valid() && id in windows ==> r.Some? && GetWindow(r.value) == Some(id)
    {
      if id in nativeToEntity then Some(nativeToEntity[id]) else None
    }

    /**
      Every entity's native window is live and maps back to the entity, and
      every live native window belongs to the entity that names it.
    */
    predicate Valid() {
      && (forall e | e in entityToNative ::
            && entityToNative[e] in windows
            && entityToNative[e] in nativeToEntity
            && nativeToEntity[entityToNative[e]] == e)
      && (forall id | id in windows ::
            && id in nativeToEntity
            && nativeToEntity[id] in entityToNative
            && entityToNative[nativeToEntity[id]] == id)
    }

    /** `id` has never been registered. */
    predicate Fresh(id: WindowId) {
      id !in windows && id !in nativeToEntity
    }

    /** Every native id the registry has seen is below `bound`. */
    predicate IdsBelow(bound: nat) {
      && (forall id | id in windows :: id < bound)
      && (forall id | id in nativeToEntity :: id < bound)
    }

    /** The registry after registering native window `id` for `entity`: both lookups find it. */
    function Insert(entity: B.Entity, id: WindowId): (r: Registry)
      ensures r.GetWindow(entity) == Some(id) && r.GetWindowEntity(id) == Some(entity)
    {
      Registry(windows + {id}, entityToNative[entity := id], nativeToEntity[id := entity])
    }

    /** The registry after removing `entity`, and the native window it dropped. */
    function Remove(entity: B.Entity): (r: (Registry, Option<WindowId>))
      ensures r.1 == GetWindow(entity)
      ensures r.0.GetWindow(entity).None? && r.0.nativeToEntity == nativeToEntity
      ensures entity !in entityToNative ==> r.0 == this
      ensures forall x | x != entity && x in entityToNative ::
        x in r.0.entityToNative && r.0.entityToNative[x] == entityToNative[x]
      ensures Valid() ==> forall x | x != entity :: r.0.GetWindow(x) == GetWindow(x)
    {
      if entity !in entityToNative then
        (this, None)
      else
        var id := entityToNative[entity];
        (Registry(windows - {id}, entityToNative - {entity}, nativeToEntity),
         if id in windows then Some(id) else None)
    }
  }

  const EmptyRegistry := Registry({}, map[], map[])

  /** Registering a fresh window leaves every other entity's window as it was. */
  lemma InsertKeepsOthers(r: Registry, entity: B.Entity, id: WindowId, other: B.Entity)
    requires r.Valid() && r.Fresh(id) && other != entity
    ensures r.Insert(entity, id).GetWindow(other) == r.GetWindow(other)
  {
  }

  /**
    Removing a registered entity drops its live window and its forward entry
    but keeps the reverse entry.
  */
  lemma RemoveKeepsReverseEntry(r: Registry, entity: B.Entity)
    requires r.Valid() && entity in r.entityToNative
    ensures var (r', removed) := r.Remove(entity);
      && removed == Some(r.entityToNative[entity])
      && r'.GetWindow(entity) == None
      && r'.GetWindowEntity(removed.value) == Some(entity)
      && r'.windows == r.windows - {removed.value}
  {
  }

  /** Registering a fresh window for an entity without one keeps the registry valid. */
  lemma InsertValid(r: Registry, entity: B.Entity, id: WindowId)
    requires r.Valid() && r.Fresh(id) && r.GetWindow(entity).None?
    ensures r.Insert(entity, id).Valid()
  {
    assert entity !in r.entityToNative;
    var r' := r.Insert(entity, id);
    forall e | e in r'.entityToNative
      ensures r'.entityToNative[e] in r'.windows && r'.entityToNative[e] in r'.nativeToEntity
      ensures r'.nativeToEntity[r'.entityToNative[e]] == e
    {
      if e != entity {
        assert r.entityToNative[e] != id;
      }
    }
  }

  /** Removing any entity keeps the registry valid. */
  lemma RemoveValid(r: Registry, entity: B.Entity)
    requires r.Valid()
    ensures r.Remove(entity).0.Valid()
  {
    if entity in r.entityToNative {
      var id := r.entityToNative[entity];
      var r' := r.Remove(entity).0;
      forall w | w in r'.windows
        ensures w in r'.nativeToEntity && r'.nativeToEntity[w] in r'.entityToNative
        ensures r'.entityToNative[r'.nativeToEntity[w]] == w
      {
        assert r.nativeToEntity[w] != entity;
      }
    }
  }

  /** Registering and removing keep the registry's ids below the backend's next id. */
  lemma InsertIdsBelow(r: Registry, entity: B.Entity, id: WindowId)
    requires r.IdsBelow(id)
    ensures r.Fresh(id) && r.Insert(entity, id).IdsBelow(id + 1)
  {
  }

  // ---------------------------------------------------------------------------
  // Fullscreen video modes

  /** A sort key compared lexicographically. */
  datatype SortKey = SortKey(first: int, second: int, third: int)

  predicate LexLess(a: SortKey, b: SortKey) {
    || a.first < b.first
    || (a.first == b.first && a.second < b.second)
    || (a.first == b.first && a.second == b.second && a.third < b.third)
  }

  lemma LexLessTransitive(a: SortKey, b: SortKey, c: SortKey)
    requires LexLess(a, b) && LexLess(b, c)
    ensures LexLess(a, c)
  {
  }

  /**
    The index a stable sort by `keys` puts first: a least key, and the earliest
    of the least keys.
  */
  function FirstMinIndex(keys: seq<SortKey>): (i: nat)
    requires |keys| > 0
    ensures i < |keys|
    ensures forall j | 0 <= j < |keys| :: !LexLess(keys[j], keys[i])
    ensures forall j | 0 <= j < i :: LexLess(keys[i], keys[j])
  {
    if |keys| == 1 then
      0
    else
      var k := FirstMinIndex(keys[..|keys| - 1]);
      assert forall j | 0 <= j < |keys| - 1 :: keys[..|keys| - 1][j] == keys[j];
      if LexLess(keys[|keys| - 1], keys[k]) then
        assert forall j | 0 <= j < |keys| - 1 :: LexLess(keys[|keys| - 1], keys[j]) by {
          forall j | 0 <= j < |keys| - 1
            ensures LexLess(keys[|keys| - 1], keys[j])
          {
            if !LexLess(keys[k], keys[j]) {
              assert keys[k] == keys[j] || LexLess(keys[j], keys[k]);
            } else {
              LexLessTransitive(keys[|keys| - 1], keys[k], keys[j]);
            }
          }
        }
        |keys| - 1
      else
        k
  }

  function AbsDiff(a: U32, b: U32): nat {
    if a > b then a - b else b - a
  }

  /** Closest width, then closest height, then highest refresh rate. */
  function FittingKey(mode: VideoMode, width: U32, height: U32): SortKey {
    SortKey(AbsDiff(mode.width, width), AbsDiff(mode.height, height), -(mode.refreshRate as int))
  }

  /** Widest, then tallest, then highest refresh rate. */
  function BestKey(mode: VideoMode): SortKey {
    SortKey(-(mode.width as int), -(mode.height as int), -(mode.refreshRate as int))
  }

  /** The mode's (width, height, refresh rate), larger meaning better. */
  function Quality(mode: VideoMode): SortKey {
    SortKey(mode.width, mode.height, mode.refreshRate)
  }

  function FittingKeys(modes: seq<VideoMode>, width: U32, height: U32): (keys: seq<SortKey>)
    ensures |keys| == |modes|
    ensures forall i | 0 <= i < |modes| :: keys[i] == FittingKey(modes[i], width, height)
  {
    seq(|modes|, i requires 0 <= i < |modes| => FittingKey(modes[i], width, height))
  }

  function BestKeys(modes: seq<VideoMode>): (keys: seq<SortKey>)
    ensures |keys| == |modes|
    ensures forall i | 0 <= i < |modes| :: keys[i] == BestKey(modes[i])
  {
    seq(|modes|, i requires 0 <= i < |modes| => BestKey(modes[i]))
  }

  /**
    The mode that sorting by closeness to `width` x `height` (then by refresh
    rate, highest first) puts first; an empty list is refused.
  */
  function GetFittingVideomode(modes: seq<VideoMode>, width: U32, height: U32): (m: VideoMode)
    requires |modes| > 0
    ensures m in modes
    ensures forall k | 0 <= k < |modes| ::
      !LexLess(FittingKey(modes[k], width, height), FittingKey(m, width, height))
    ensures exists i | 0 <= i < |modes| :: (m == modes[i] &&
      forall j | 0 <= j < i :: LexLess(FittingKey(m, width, height), FittingKey(modes[j], width, height)))
  {
    var keys := FittingKeys(modes, width, height);
    var i := FirstMinIndex(keys);
    modes[i]
  }

  /**
    The mode that sorting by width, height and refresh rate (largest first)
    puts first: a best one, and the earliest of the best ones.
  */
  function GetBestVideomode(modes: seq<VideoMode>): (m: VideoMode)
    requires |modes| > 0
    ensures m in modes
    ensures forall k | 0 <= k < |modes| :: !LexLess(Quality(m), Quality(modes[k]))
    ensures exists i | 0 <= i < |modes| :: (m == modes[i] &&
      forall j | 0 <= j < i :: LexLess(Quality(modes[j]), Quality(m)))
  {
    var keys := BestKeys(modes);
    var i := FirstMinIndex(keys);
    forall k | 0 <= k < |modes|
      ensures !LexLess(Quality(modes[i]), Quality(modes[k]))
    {
      assert !LexLess(keys[k], keys[i]);
    }
    modes[i]
  }

  /** A 1920x1080 target picks the 144 Hz mode of that size. */
  lemma FittingVideomodeExample()
    ensures var modes := [VideoMode(1920, 1080, 32, 60), VideoMode(1920, 1080, 32, 144), VideoMode(1280, 720, 32, 60)];
      GetFittingVideomode(modes, 1920, 1080) == VideoMode(1920, 1080, 32, 144)
  {
    var modes := [VideoMode(1920, 1080, 32, 60), VideoMode(1920, 1080, 32, 144), VideoMode(1280, 720, 32, 60)];
    var m := GetFittingVideomode(modes, 1920, 1080);
    assert !LexLess(FittingKey(modes[1], 1920, 1080), FittingKey(m, 1920, 1080));
  }

  /** The largest, fastest mode is the best one. */
  lemma BestVideomodeExample()
    ensures var modes := [VideoMode(1920, 1080, 32, 60), VideoMode(1920, 1080, 32, 144), VideoMode(1280, 720, 32, 60)];
      GetBestVideomode(modes) == VideoMode(1920, 1080, 32, 144)
  {
    var modes := [VideoMode(1920, 1080, 32, 60), VideoMode(1920, 1080, 32, 144), VideoMode(1280, 720, 32, 60)];
    var m := GetBestVideomode(modes);
    assert !LexLess(Quality(m), Quality(modes[1]));
  }

  // ---------------------------------------------------------------------------
  // Window placement

  /** The monitor a `Centered` position refers to, if there is one. */
  function SelectMonitor(selection: B.MonitorSelection, available: seq<Monitor>,
                         primary: Option<Monitor>, current: Option<Monitor>): (m: Option<Monitor>)
    ensures selection.Current? ==> m == current
    ensures selection.Primary? ==> m == primary
    ensures selection.Index? ==> (m.Some? <==> selection.n < |available|)
    ensures selection.Index? && m.Some? ==> m.value == available[selection.n]
  {
    match selection
    case Current => current
    case Primary => primary
    case Index(n) => if n < |available| then Some(available[n]) else None
  }

  /** The window's logical size in the monitor's physical pixels. */
  function SizeOnMonitor(monitor: Monitor, resolution: B.WindowResolution): PhysicalSize {
    PhysicalSize(PixelU32(resolution.Width() * monitor.scaleFactor),
                 PixelU32(resolution.Height() * monitor.scaleFactor))
  }

  /** The top-left corner that centres the window on `monitor`. */
  function CenteredPosition(monitor: Monitor, resolution: B.WindowResolution): PhysicalPosition {
    var size := SizeOnMonitor(monitor, resolution);
    PhysicalPosition(
      CenteredCoordinate(monitor.size.width, size.width, monitor.position.x),
      CenteredCoordinate(monitor.size.height, size.height, monitor.position.y))
  }

  /**
    The physical position a new or moved window asks for: none for
    `Automatic` (the window manager decides) or for a monitor that cannot be
    found, the centred corner for `Centered`, the given point for `At`.
  */
  function TaoWindowPosition(position: B.WindowPosition, resolution: B.WindowResolution,
                             available: seq<Monitor>, primary: Option<Monitor>,
                             current: Option<Monitor>): (r: Option<PhysicalPosition>)
    ensures position.Automatic? ==> r.None?
    ensures position.At? ==> r == Some(PhysicalPosition(position.x, position.y))
    ensures position.Centered? ==>
      var monitor := SelectMonitor(position.monitor, available, primary, current);
      (r.Some? <==> monitor.Some?) && (r.Some? ==> r.value == CenteredPosition(monitor.value, resolution))
  {
    match position
    case Automatic => None
    case Centered(selection) =>
      var monitor := SelectMonitor(selection, available, primary, current);
      if monitor.Some? then Some(CenteredPosition(monitor.value, resolution)) else None
    case At(x, y) => Some(PhysicalPosition(PixelI32(x as real), PixelI32(y as real)))
  }

  /**
    One coordinate of the centred corner: half the spare room `size` minus
    `length` (none if the window is larger), rounded, from `origin`.
  */
  function CenteredCoordinate(size: U32, length: U32, origin: I32): I32 {
    PixelI32(SaturatingSub(size, length) as real / 2.0 + origin as real)
  }

  /**
    When the monitor's far edge is within the `i32` range, the centred
    coordinate is never before the monitor's origin, and the margins on the two
    sides of the window differ by at most one pixel.
  */
  lemma CenteredCoordinateBounds(size: U32, length: U32, origin: I32)
    requires origin + size <= I32_MAX
    ensures var p := CenteredCoordinate(size, length, origin);
      var spare := SaturatingSub(size, length);
      origin <= p && -1 <= 2 * (p - origin) - spare <= 1
  {
    var spare := SaturatingSub(size, length);
    var r := spare as real / 2.0 + origin as real;
    var n := RoundHalfAway(r);
    RoundHalfAwayNearest(r);
    assert (2 * (n - origin) - spare) as real == 2.0 * (n as real - r);
    assert origin <= n <= origin + spare;
    assert PixelI32(r) == n;
  }

  /**
    On a monitor whose far edges are within the `i32` range, a centred window
    starts at or after the monitor's origin, with margins that differ by at
    most one pixel on each axis.
  */
  lemma CenteredOnMonitor(monitor: Monitor, resolution: B.WindowResolution)
    requires monitor.position.x + monitor.size.width <= I32_MAX
    requires monitor.position.y + monitor.size.height <= I32_MAX
    ensures var p := CenteredPosition(monitor, resolution);
      var size := SizeOnMonitor(monitor, resolution);
      && monitor.position.x <= p.x
      && -1 <= 2 * (p.x - monitor.position.x) - SaturatingSub(monitor.size.width, size.width) <= 1
      && monitor.position.y <= p.y
      && -1 <= 2 * (p.y - monitor.position.y) - SaturatingSub(monitor.size.height, size.height) <= 1
  {
    var size := SizeOnMonitor(monitor, resolution);
    CenteredCoordinateBounds(monitor.size.width, size.width, monitor.position.x);
    CenteredCoordinateBounds(monitor.size.height, size.height, monitor.position.y);
  }

  /** An 800x600 window on a 1920x1080 monitor at the origin sits at (560, 240). */
  lemma CenteredExample()
    ensures var monitor := Monitor("primary", PhysicalSize(1920, 1080), PhysicalPosition(0, 0), 1.0, []);
      var resolution := B.WindowResolution(800, 600, None, 1.0);
      TaoWindowPosition(B.Centered(B.Primary), resolution, [], Some(monitor), None)
        == Some(PhysicalPosition(560, 240))
  {
    var resolution := B.WindowResolution(800, 600, None, 1.0);
    assert resolution.Width() == 800.0 && resolution.Height() == 600.0;
    assert RoundHalfAway(800.0) == 800 && RoundHalfAway(600.0) == 600;
    assert RoundHalfAway(560.0) == 560 && RoundHalfAway(240.0) == 240;
  }

  // ---------------------------------------------------------------------------
  // Window creation

  /** The flag for `set_cursor_grab`: grab for Confined and Locked, release for NoGrab. */
  function CursorGrabFlag(mode: B.CursorGrabMode): (grab: bool)
    ensures grab <==> mode != B.NoGrab
  {
    match mode
    case NoGrab => false
    case Confined => true
    case Locked => true
  }

  /** Whether the backend delivers cursor events to a window whose ignore flag is `ignore`. */
  predicate ReceivesCursorEvents(ignore: bool) {
    !ignore
  }

  /** The ignore flag passed to the backend as written: the hit-test flag itself. */
  function IgnoreCursorEventsAsWritten(hitTest: bool): bool {
    hitTest
  }

  /** As written, the window receives cursor events exactly when hit testing is off. */
  lemma IgnoreCursorEventsAsWrittenInverted(hitTest: bool)
    ensures ReceivesCursorEvents(IgnoreCursorEventsAsWritten(hitTest)) <==> !hitTest
  {
  }

  /** A window created with hit testing off still receives cursor events, as written. */
  lemma HitTestOffIgnoredAsWritten()
    ensures ReceivesCursorEvents(IgnoreCursorEventsAsWritten(false))
  {
  }

  /** The ignore flag that makes a window receive cursor events exactly when hit testing is on. */
  function IgnoreCursorEvents(hitTest: bool): (ignore: bool)
    ensures ReceivesCursorEvents(ignore) <==> hitTest
  {
    !hitTest
  }

  /** The backend can build a window in `mode`: an exclusive mode needs a monitor with modes. */
  predicate ExclusiveReady(mode: B.WindowMode, monitor: Option<Monitor>) {
    (mode.Fullscreen? || mode.SizedFullscreen?) ==> monitor.Some? && |monitor.value.videoModes| > 0
  }

  /**
    The fullscreen state `window`'s mode asks for: borderless on
    `borderlessMonitor`, or exclusive in a video mode of `exclusiveMonitor`.
  */
  function FullscreenFor(window: B.Window, borderlessMonitor: Option<Monitor>,
                         exclusiveMonitor: Option<Monitor>): (f: Option<Fullscreen>)
    requires ExclusiveReady(window.mode, exclusiveMonitor)
    ensures f.None? <==> window.mode.Windowed?
    ensures window.mode.BorderlessFullscreen? ==> f == Some(Borderless(borderlessMonitor))
    ensures window.mode.Fullscreen? ==> f == Some(Exclusive(GetBestVideomode(exclusiveMonitor.value.videoModes)))
    ensures window.mode.SizedFullscreen? ==>
      f == Some(Exclusive(GetFittingVideomode(exclusiveMonitor.value.videoModes,
        TruncateU32(window.resolution.Width()), TruncateU32(window.resolution.Height()))))
    ensures f.Some? && f.value.Exclusive? ==> f.value.mode in exclusiveMonitor.value.videoModes
  {
    match window.mode
    case Windowed => None
    case BorderlessFullscreen => Some(Borderless(borderlessMonitor))
    case Fullscreen => Some(Exclusive(GetBestVideomode(exclusiveMonitor.value.videoModes)))
    case SizedFullscreen =>
      Some(Exclusive(GetFittingVideomode(exclusiveMonitor.value.videoModes,
        TruncateU32(window.resolution.Width()), TruncateU32(window.resolution.Height()))))
  }

  /**
    The inner size a windowed window asks for: its logical size, converted to
    physical pixels when the application overrides the scale factor.
  */
  function RequestedInnerSize(resolution: B.WindowResolution): (size: N.InnerSize)
    ensures resolution.scaleFactorOverride.Some? ==>
      size == N.Physical(resolution.physicalWidth as real, resolution.physicalHeight as real)
    ensures resolution.scaleFactorOverride.None? ==>
      size == N.Logical(N.LogicalSize(resolution.Width(), resolution.Height()))
  {
    if resolution.scaleFactorOverride.Some? then
      var factor := resolution.scaleFactorOverride.value;
      assert resolution.Width() * factor == resolution.physicalWidth as real;
      assert resolution.Height() * factor == resolution.physicalHeight as real;
      N.Physical(resolution.Width() * factor, resolution.Height() * factor)
    else
      N.Logical(N.LogicalSize(resolution.Width(), resolution.Height()))
  }

  /** The minimum inner size: the checked minimums, that is, the requested ones raised to one pixel. */
  function MinInnerSize(constraints: B.ResizeConstraints): (size: N.LogicalSize)
    ensures size.width >= 1.0 && size.width >= constraints.minWidth
    ensures size.width == 1.0 || size.width == constraints.minWidth
    ensures size.height >= 1.0 && size.height >= constraints.minHeight
    ensures size.height == 1.0 || size.height == constraints.minHeight
  {
    var checked := constraints.Checked();
    N.LogicalSize(checked.minWidth, checked.minHeight)
  }

  /**
    The maximum inner size: the checked maximums, present only when both are
    finite, each the requested maximum raised to the minimum inner size.
  */
  function MaxInnerSize(constraints: B.ResizeConstraints): (size: Option<N.LogicalSize>)
    ensures size.Some? <==> constraints.maxWidth.Some? && constraints.maxHeight.Some?
    ensures size.Some? ==>
      var min := MinInnerSize(constraints);
      && size.value.width >= min.width && size.value.width >= constraints.maxWidth.value
      && (size.value.width == min.width || size.value.width == constraints.maxWidth.value)
      && size.value.height >= min.height && size.value.height >= constraints.maxHeight.value
      && (size.value.height == min.height || size.value.height == constraints.maxHeight.value)
  {
    var checked := constraints.Checked();
    if checked.maxWidth.Some? && checked.maxHeight.Some? then
      Some(N.LogicalSize(checked.maxWidth.value, checked.maxHeight.value))
    else
      None
  }

  /** What the window builder is given for `window`. */
  function BuilderAttributes(window: B.Window, target: N.EventLoopTarget): (a: N.WindowAttributes)
    requires ExclusiveReady(window.mode, target.primaryMonitor)
    ensures a.fullscreen == FullscreenFor(window, target.primaryMonitor, target.primaryMonitor)
    ensures a.position == (if window.mode.Windowed? then
      TaoWindowPosition(window.position, window.resolution, target.availableMonitors,
                        target.primaryMonitor, None) else None)
    ensures a.innerSize == (if window.mode.Windowed? then Some(RequestedInnerSize(window.resolution)) else None)
    ensures a.theme.Some? <==> window.windowTheme.Some?
    ensures a.theme.Some? ==> C.ConvertTaoTheme(a.theme.value) == window.windowTheme.value
    ensures a.resizable == window.resizable && a.decorations == window.decorations
    ensures a.title == window.title
    ensures a.minInnerSize == MinInnerSize(window.resizeConstraints)
    ensures a.maxInnerSize == MaxInnerSize(window.resizeConstraints)
  {
    var windowed := window.mode.Windowed?;
    N.WindowAttributes(
      fullscreen := FullscreenFor(window, target.primaryMonitor, target.primaryMonitor),
      position :=
        if windowed then
          TaoWindowPosition(window.position, window.resolution, target.availableMonitors,
                            target.primaryMonitor, None)
        else None,
      innerSize := if windowed then Some(RequestedInnerSize(window.resolution)) else None,
      theme := if window.windowTheme.Some? then Some(C.ConvertWindowTheme(window.windowTheme.value)) else None,
      resizable := window.resizable,
      decorations := window.decorations,
      minInnerSize := MinInnerSize(window.resizeConstraints),
      maxInnerSize := MaxInnerSize(window.resizeConstraints),
      title := window.title)
  }

  /**
    A new window centred on the current monitor gets no position: at creation
    there is no current monitor, so the window manager places it.
  */
  lemma CenteredOnCurrentUnplaced(window: B.Window, target: N.EventLoopTarget)
    requires ExclusiveReady(window.mode, target.primaryMonitor)
    requires window.position == B.Centered(B.Current)
    ensures BuilderAttributes(window, target).position.None?
  {
  }

  /**
    The setters called right after the window is built: the grab unless the
    mode is NoGrab, the visibility always, the hit test only when it is off.
  */
  function AfterBuildOps(cursor: B.Cursor): (ops: seq<N.NativeOp>)
    ensures N.SetCursorVisible(cursor.visible) in ops
    ensures N.SetCursorGrab(true) in ops <==> cursor.grabMode != B.NoGrab
    ensures N.SetCursorGrab(false) !in ops
    ensures N.SetIgnoreCursorEvents(true) in ops <==> !cursor.hitTest
    ensures N.SetIgnoreCursorEvents(false) !in ops
    ensures |ops| == (if cursor.grabMode != B.NoGrab then 1 else 0) + 1 + (if !cursor.hitTest then 1 else 0)
  {
    (if cursor.grabMode != B.NoGrab then [N.SetCursorGrab(CursorGrabFlag(cursor.grabMode))] else [])
    + [N.SetCursorVisible(cursor.visible)]
    + (if !cursor.hitTest then [N.SetIgnoreCursorEvents(IgnoreCursorEvents(cursor.hitTest))] else [])
  }

  /**
    The setters called right after the window is built, as written: the hit
    test call, made only when hit testing is off, passes the hit-test flag as
    the ignore flag, so it tells the backend to deliver cursor events.
  */
  function AfterBuildOpsAsWritten(cursor: B.Cursor): (ops: seq<N.NativeOp>)
    ensures N.SetIgnoreCursorEvents(false) in ops <==> !cursor.hitTest
    ensures N.SetIgnoreCursorEvents(true) !in ops
    ensures forall op | op in ops && op.SetIgnoreCursorEvents? :: ReceivesCursorEvents(op.ignore)
  {
    (if cursor.grabMode != B.NoGrab then [N.SetCursorGrab(CursorGrabFlag(cursor.grabMode))] else [])
    + [N.SetCursorVisible(cursor.visible)]
    + (if !cursor.hitTest then [N.SetIgnoreCursorEvents(IgnoreCursorEventsAsWritten(cursor.hitTest))] else [])
  }

  /**
    The written setters and the corrected ones agree except for the hit-test
    call, whose flag is inverted.
  */
  lemma AfterBuildOpsDifferInHitTest(cursor: B.Cursor)
    ensures cursor.hitTest ==> AfterBuildOpsAsWritten(cursor) == AfterBuildOps(cursor)
    ensures !cursor.hitTest ==>
      var ops := AfterBuildOps(cursor);
      && |ops| > 0 && ops[|ops| - 1] == N.SetIgnoreCursorEvents(true)
      && AfterBuildOpsAsWritten(cursor) == ops[..|ops| - 1] + [N.SetIgnoreCursorEvents(false)]
  {
  }

  /** The whole log a window creation appends. */
  function CreationCalls(id: WindowId, window: B.Window, target: N.EventLoopTarget): seq<N.Call>
    requires ExclusiveReady(window.mode, target.primaryMonitor)
  {
    [N.Built(id, BuilderAttributes(window, target))] + N.Invocations(id, AfterBuildOps(window.cursor))
  }

  /** The registry as the bridge keeps it: three maps updated in place. */
  class TaoWindows {
    var windows: set<WindowId>
    var entityToNative: map<B.Entity, WindowId>
    var nativeToEntity: map<WindowId, B.Entity>

    constructor ()
      ensures Model() == EmptyRegistry
    {
      windows := {};
      entityToNative := map[];
      nativeToEntity := map[];
    }

    function Model(): Registry
      reads this
    {
      Registry(windows, entityToNative, nativeToEntity)
    }

    /**
      Builds a native window for `entity` from its descriptor, applies the
      cursor settings, and registers the new window in all three maps.
    */
    method CreateWindow(backend: N.Backend, entity: B.Entity, window: B.Window) returns (id: WindowId)
      requires ExclusiveReady(window.mode, backend.target.primaryMonitor)
      modifies this, backend
      ensures id == old(backend.nextId) && backend.nextId == id + 1
      ensures backend.log == old(backend.log) + CreationCalls(id, window, backend.target)
      ensures Model() == old(Model()).Insert(entity, id)
    {
      id := backend.Build(BuilderAttributes(window, backend.target));
      backend.InvokeAll(id, AfterBuildOps(window.cursor));
      entityToNative := entityToNative[entity := id];
      nativeToEntity := nativeToEntity[id := entity];
      windows := windows + {id};
    }

    /**
      Drops `entity`'s forward entry and its live window, keeping the reverse
      entry; returns the dropped window.
    */
    method RemoveWindow(entity: B.Entity) returns (removed: Option<WindowId>)
      modifies this
      ensures (Model(), removed) == old(Model()).Remove(entity)
    {
      if entity !in entityToNative {
        return None;
      }
      var id := entityToNative[entity];
      entityToNative := entityToNative - {entity};
      removed := if id in windows then Some(id) else None;
      windows := windows - {id};
    }
  }
}
