# bevy_tao and the wry demo, modelled in Dafny

This project models the windowing back end `bevy_tao` and the two logic
pieces of its `wry_demo` example.

`bevy_tao` connects the engine's declarative window descriptors (`Window`
components) to native windows:

- a registry pairs each window entity with a native window id;
- new descriptors are turned into native windows;
- descriptors whose entity went away are closed;
- each changed descriptor is compared with its cached copy, field by field,
  and only the differing fields are pushed to the native window;
- the event-loop handler turns each native event into descriptor updates and
  application events;
- small tables translate between the backend's and the engine's vocabularies.

The demo's bridge parses the web page's `NavigatedTo:` message into a list of
links, drains the queue of page requests into `NewPage` events, and sends
navigation back to the page as a script. Its link showcase keeps a shuffled
order of the link entities and a selected position that steps on each timer
period; the space key navigates to the selected link.

How the model is built:

- Native calls are an appended log of abstract calls (`Native.Backend.log`).
- What the operating system reports (theme, scale factor, current
  fullscreen state, decorations, outer position, monitors, whether hit-test
  changes are supported) is an input. It is a snapshot per native window
  (`Native.Backend.query`).
- What the application reports to the handler (ready, exit requested, redraw
  requested, descriptor changed, added descriptors, the clock) is an input,
  `Runner.AppStatus`.
- Random draws are an input function.
- Floating-point values are exact `real`s.
- The backend's casts to `u32`/`i32` are written out in `Casts`:
  round-half-away-from-zero, then saturation.
- Imperative code is modelled as Dafny classes and methods, each proved equal
  to a specification function of the old state. The properties are proved
  about those functions.

Modules:

- `Wrappers`: `Option`.
- `Tao`: the backend's vocabulary.
- `Bevy`: the engine's descriptors and events.
- `Casts`: the numeric casts.
- `Native`: the native-call log.
- `TaoWindows`: the registry, video-mode selection, position, and builder
  attributes.
- `Converters`: the translation tables.
- `System`: window creation, closing and the change pass.
- `Runner`: the event-loop handler.
- `Bridge`: the page bridge.
- `Links`: the link showcase.

## Model

| member | source | states |
|---|---|---|
| TaoWindows.TaoWindows.CreateWindow | bevy_tao/src/tao_windows.rs:44-140 | The new native window gets the next fresh id. The native calls are one build with the builder attributes, followed by the after-build cursor setters (with the corrected hit-test flag; see Left out). The registry then maps the entity to the id and the id back to the entity. |
| TaoWindows.TaoWindows.RemoveWindow | bevy_tao/src/tao_windows.rs:159-163 | The registry after removal, and the returned id, are those of the value-level removal. |
| TaoWindows.Registry.Insert | bevy_tao/src/tao_windows.rs:133-134 | After registering (entity, id), `get_window(entity)` is the id and `get_window_entity(id)` is the entity. |
| TaoWindows.Registry.GetWindow | bevy_tao/src/tao_windows.rs:143-147 | The entity's window is present exactly when the entity has an entry whose window is live. When the registry is valid, that is exactly when the entity has an entry. |
| TaoWindows.Registry.GetWindowEntity | bevy_tao/src/tao_windows.rs:152-154 | The reverse lookup is present exactly when the id has an entry. For a live window of a valid registry, the entity found has that window. |
| TaoWindows.Registry.Remove | bevy_tao/src/tao_windows.rs:159-163 | The returned window is the entity's live window, if any. Afterwards the entity has no window, and the reverse map is unchanged. An entity without an entry leaves the registry unchanged. Every other entity keeps its entry, and under the registry invariant its window. |
| TaoWindows.InsertKeepsOthers | bevy_tao/src/tao_windows.rs:133-139 | Inserting with a fresh id leaves every other entity's lookup unchanged. |
| TaoWindows.RemoveKeepsReverseEntry | bevy_tao/src/tao_windows.rs:159-163 | Removal returns the entity's id. It forgets the forward entry and the native window, but keeps the reverse entry, so the id still names the entity. |
| TaoWindows.InsertValid | bevy_tao/src/tao_windows.rs:133-139 | Insertion with a fresh id keeps the registry invariant: every forward entry has its window, and the reverse map sends its id back. |
| TaoWindows.RemoveValid | bevy_tao/src/tao_windows.rs:159-163 | Removal keeps the registry invariant. |
| TaoWindows.InsertIdsBelow | bevy_tao/src/tao_windows.rs:133-139 | An id at the counter is fresh. After inserting it, every known id is below the next counter. |
| TaoWindows.FirstMinIndex | bevy_tao/src/tao_windows.rs:170-192 | The index of a minimal key that is strictly below every earlier key, which is the element a stable sort puts first. |
| TaoWindows.GetFittingVideomode | bevy_tao/src/tao_windows.rs:169-193 | The result is one of the monitor's modes. No mode has a smaller key (width distance, height distance, larger refresh first). It is the first mode with its key. |
| TaoWindows.GetBestVideomode | bevy_tao/src/tao_windows.rs:198-212 | The result is one of the monitor's modes. No mode is larger in (width, height, refresh). It is the first such mode. |
| TaoWindows.FittingVideomodeExample | bevy_tao/src/tao_windows.rs:169-193 | Target 1920x1080 over {1920x1080@60, 1920x1080@144, 1280x720@60} picks 1920x1080@144. |
| TaoWindows.BestVideomodeExample | bevy_tao/src/tao_windows.rs:198-212 | The same modes give 1920x1080@144 as the best. |
| TaoWindows.SelectMonitor | bevy_tao/src/tao_windows.rs:248-257 | Current and Primary give those monitors. Index(n) gives the n-th available monitor, or none past the end. |
| TaoWindows.TaoWindowPosition | bevy_tao/src/tao_windows.rs:234-288 | Automatic gives none and At(x, y) gives (x, y). Centered gives a position exactly when the selected monitor exists, and that position is the centred one. |
| TaoWindows.CenteredCoordinateBounds | bevy_tao/src/tao_windows.rs:259-279 | A centred coordinate is never before the monitor's origin, and it is within rounding of half the saturated spare room. |
| TaoWindows.CenteredOnMonitor | bevy_tao/src/tao_windows.rs:259-279 | The same bound for both axes of a centred window on a monitor. |
| TaoWindows.CenteredExample | bevy_tao/src/tao_windows.rs:259-279 | An 800x600 window centred on a 1920x1080 monitor at the origin, at scale 1, is placed at (560, 240). |
| TaoWindows.CursorGrabFlag | bevy_tao/src/tao_windows.rs:214-220 | Grab is requested exactly for Confined and Locked. |
| TaoWindows.IgnoreCursorEventsAsWrittenInverted | bevy_tao/src/tao_windows.rs:124-125 | Passing the hit-test flag as the ignore flag makes the window receive cursor events exactly when hit testing is off. |
| TaoWindows.HitTestOffIgnoredAsWritten | bevy_tao/src/tao_windows.rs:122-126 | As written, a window created with hit testing off still receives cursor events. |
| TaoWindows.IgnoreCursorEvents | bevy_tao/src/system.rs:182-183 | The corrected ignore flag: the window receives cursor events exactly when hit testing is on. |
| TaoWindows.FullscreenFor | bevy_tao/src/tao_windows.rs:52-66 | Windowed has no fullscreen. Borderless uses the primary monitor. Fullscreen uses the best mode of the monitor. Sized fullscreen uses the fitting mode for the window's size truncated to `u32`. An exclusive mode is always one of the monitor's modes. |
| TaoWindows.RequestedInnerSize | bevy_tao/src/tao_windows.rs:79-84 | With a scale override, the size is physical. Otherwise it is the logical width and height. |
| TaoWindows.MinInnerSize | bevy_tao/src/tao_windows.rs:93-97 | Each minimum is the larger of one pixel and the requested minimum. |
| TaoWindows.MaxInnerSize | bevy_tao/src/tao_windows.rs:98-110 | A maximum is set exactly when both maximums are finite. Each is then the larger of the requested maximum and the minimum inner size. |
| TaoWindows.BuilderAttributes | bevy_tao/src/tao_windows.rs:50-112 | The builder carries the fullscreen choice for the primary monitor. When windowed, it carries the position computed with no current monitor, and the requested inner size; otherwise neither. It also carries the converted theme, the descriptor's resizable, decorations and title, and the minimum and maximum inner sizes. |
| TaoWindows.CenteredOnCurrentUnplaced | bevy_tao/src/tao_windows.rs:68-75 | A new window centred on the current monitor gets no position, because there is no current monitor at creation. |
| TaoWindows.AfterBuildOps | bevy_tao/src/tao_windows.rs:114-131 | Visibility is always set. Grab is set only for a grabbing mode, never released. The hit-test call is made only when hit testing is off, and it carries the corrected flag, so cursor events are ignored (see Left out). The list is exactly as long as those calls, so none is repeated. |
| TaoWindows.AfterBuildOpsAsWritten | bevy_tao/src/tao_windows.rs:114-131 | As written, the hit-test call is made only when hit testing is off, and it passes `false`, so the window keeps receiving cursor events. |
| TaoWindows.AfterBuildOpsDifferInHitTest | bevy_tao/src/tao_windows.rs:122-126 | The written and corrected setters agree except for the last, hit-test call, whose flag is inverted. |
| Converters.ConvertElementState | bevy_tao/src/converters.rs:23-29 | Pressed maps to Pressed and Released to Released. |
| Converters.ConvertMouseButton | bevy_tao/src/converters.rs:31-39 | Each named button maps to its namesake, and Other keeps its code. |
| Converters.MouseButtonInjective | bevy_tao/src/converters.rs:31-39 | Distinct buttons convert to distinct buttons. |
| Converters.ConvertTouchPhase | bevy_tao/src/converters.rs:46-52 | The phases map one to one, with Cancelled mapping to Canceled. |
| Converters.ConvertForce | bevy_tao/src/converters.rs:53-67 | Calibrated keeps its three fields, and Normalized keeps its value. |
| Converters.ConvertTouchInput | bevy_tao/src/converters.rs:41-70 | The touch keeps its id and the given location, converts its phase, and keeps the presence and shape of its force. |
| Converters.TouchInputInjective | bevy_tao/src/converters.rs:41-70 | At one location, distinct touches convert to distinct inputs. |
| Converters.FunctionKeyRoundTrip | bevy_tao/src/converters.rs:125-149 | Escape and F1-F24 convert back to the key they came from. |
| Converters.FunctionCodeRoundTrip | bevy_tao/src/converters.rs:125-149 | Every function code has its key. |
| Converters.NavigationKeyRoundTrip | bevy_tao/src/converters.rs:150-170 | The navigation and editing keys convert back to their key. |
| Converters.NavigationCodeRoundTrip | bevy_tao/src/converters.rs:150-170 | Every navigation code has its key. |
| Converters.SystemKeyRoundTrip | bevy_tao/src/converters.rs:171-193 | The modifier and media keys convert back to their key. |
| Converters.SystemCodeRoundTrip | bevy_tao/src/converters.rs:171-193 | Every system code has its key. |
| Converters.CharLeftInverse | bevy_tao/src/converters.rs:74-124 | A character in the table converts back to that one-character key. |
| Converters.KeyTableCovers | bevy_tao/src/converters.rs:72-197 | Every key code is the conversion of some key. |
| Converters.KeyTableLeftInverse | bevy_tao/src/converters.rs:72-197 | A converted key is recovered from its code. |
| Converters.KeyTableInjective | bevy_tao/src/converters.rs:74-193 | No two keys of the table give the same code. |
| Converters.DigitKeys | bevy_tao/src/converters.rs:74-83 | "0"-"9" give the digit codes. |
| Converters.CapitalLetterKeys | bevy_tao/src/converters.rs:84-109 | "A"-"Z" give the letter codes. |
| Converters.LowerCaseLettersUnknown | bevy_tao/src/converters.rs:194 | Lower-case letters are not in the table and give none. |
| Converters.ConvertKeyboardInput | bevy_tao/src/converters.rs:14-21 | The input keeps the window and the scan code, converts the state, and converts the logical key through the table. |
| Converters.UnknownKeyKeepsScanCode | bevy_tao/src/converters.rs:14-21 | A key outside the table has no key code but keeps its scan code. |
| Converters.ConvertVirtualKeyCode | bevy_tao/src/converters.rs:72-197 | Every function, navigation and system key has a code of its own family, and only those keys do. Digit, letter and symbol codes come only from one-character keys. |
| Converters.ConvertCursorIcon | bevy_tao/src/converters.rs:199-237 | Each engine icon becomes a backend icon from which `CursorIconOf` recovers it, so the conversion is injective. |
| Converters.NativeCursorIconRoundTrip | bevy_tao/src/converters.rs:199-237 | The cursor icon conversion is onto the native icons. |
| Converters.WindowLevelFlags | bevy_tao/src/converters.rs:239-247 | On-top and on-bottom are never requested together, and each is requested exactly for its level. |
| Converters.ThemeRoundTrip | bevy_tao/src/converters.rs:249-262 | The two theme conversions are mutual inverses. |
| Converters.ConvertTaoTheme | bevy_tao/src/converters.rs:249-255 | A backend theme becomes the engine theme of the same name: Dark exactly for Dark. |
| Converters.ConvertWindowTheme | bevy_tao/src/converters.rs:257-262 | An engine theme becomes the backend theme of the same name: Dark exactly for Dark. |
| System.Adopt | bevy_tao/src/system.rs:57-61 | A created window takes the native theme and scale factor, keeps its scale-factor override, and gets its physical size re-derived as the logical size times the new effective factor, truncated to u32. Every other field is the application's. |
| System.CreateWindowFor | bevy_tao/src/system.rs:43-72 | Creating one descriptor's window changes the state as the creation function says, and logs its build calls. |
| System.CreateWindows | bevy_tao/src/system.rs:36-74 | The creation pass over the added descriptors is the creation function over them, in order, with its calls logged. |
| System.BuildLog | bevy_tao/src/system.rs:43-54 | An entity already registered makes no native call. Otherwise the first call builds the next id with the descriptor's attributes. |
| System.CreateOne | bevy_tao/src/system.rs:43-72 | An entity that already has a window is skipped with no change. Otherwise it is registered both ways under the next id, the next id advances, the descriptor takes the native theme and scale factor, its cache equals the new descriptor, and exactly one `WindowCreated` is sent. Only that entity's descriptor (now `Adopt` of the old one) and cache change. Every ready entity stays ready. |
| System.CreateAllRegisters | bevy_tao/src/system.rs:43-72 | After the pass, every added entity is registered and the registry invariant holds. |
| System.CreateAllAnnounces | bevy_tao/src/system.rs:72 | The pass sends one `WindowCreated` per added entity that was not registered, in order. |
| System.CreateAllIdempotent | bevy_tao/src/system.rs:43-46 | A second pass over the same descriptors changes nothing and makes no native call. |
| System.Unregistered | bevy_tao/src/system.rs:43-46 | The entities a pass creates are exactly the added entities without a native window. |
| System.DespawnWindows | bevy_tao/src/system.rs:80-95 | The close pass over the removed entities is the close function over them, in order. |
| System.DespawnOne | bevy_tao/src/system.rs:86-94 | An entity that still has a descriptor is left alone. Otherwise it loses its window, the reverse map is kept, and exactly one `WindowClosed` is sent. The registry is the one `Remove` leaves, so every other entity keeps its entry, and under the registry invariant its window. Descriptors, caches and the next id are untouched. |
| System.DespawnOneValid | bevy_tao/src/system.rs:86-94 | Closing keeps the registry invariant, and the closed window's id still names its entity. |
| System.DespawnAllValid | bevy_tao/src/system.rs:80-95 | The close pass keeps the registry invariant and leaves the descriptors and caches alone. |
| System.Settled | bevy_tao/src/system.rs:182-190 | After a change pass, a hit-test change the backend refused is rolled back, transparency is back to the cached value, both one-shot requests are consumed, and every other field is the application's. |
| System.ShapeOps | bevy_tao/src/system.rs:118-153 | The group calls only the title, fullscreen and size setters, and none when title, mode and resolution equal the cache. |
| System.CursorOps | bevy_tao/src/system.rs:154-190 | The group calls only the cursor setters, and none when cursor and resolution equal the cache. It passes ignore = true exactly when hit testing was turned off, and ignore = false exactly when it was turned on: the corrected flag (see Left out). |
| System.FrameOps | bevy_tao/src/system.rs:192-238 | The group calls only the decoration, resizability, size-limit and position setters, and none when those fields equal the cache. |
| System.RequestOps | bevy_tao/src/system.rs:240-273 | The group calls only the maximize, minimize, focus, level and IME setters, and none when no request is pending and focus, level and IME position equal the cache. |
| System.ReconcileOps | bevy_tao/src/system.rs:118-273 | A descriptor equal to its cache with no pending request calls nothing. Which setters are called is stated by ReconcileSound and ReconcileComplete, their order and uniqueness by ReconcileOpsInOrder. |
| System.InOrderConcat | bevy_tao/src/system.rs:118-273 | Two stretches of the change pass, each in order, run one after the other stay in order and span both stretches. |
| System.InSourceOrderDistinct | bevy_tao/src/system.rs:118-273 | Calls in the change pass's order rank strictly upward pairwise, so no kind of call appears twice. |
| System.ShapeOpsInOrder | bevy_tao/src/system.rs:118-153 | Title, fullscreen and size calls come in that order, each at most once. |
| System.CursorOpsInOrder | bevy_tao/src/system.rs:154-190 | Cursor position, icon, grab, visibility and hit-test calls come in that order, each at most once. |
| System.FrameOpsInOrder | bevy_tao/src/system.rs:192-238 | Decoration, resizability, minimum size, maximum size and position calls come in that order, each at most once. |
| System.RequestOpsInOrder | bevy_tao/src/system.rs:240-273 | Maximize, minimize, focus, always-on-top, always-on-bottom and IME calls come in that order, each at most once. |
| System.ReconcileOpsInOrder | bevy_tao/src/system.rs:118-273 | A whole synchronisation follows the order in which the bridge checks the fields, and every call has a strictly higher rank than the one before it. So each setter, maximize and minimize included, is called at most once. |
| System.ReconcileSound | bevy_tao/src/system.rs:118-273 | Every setter the change pass calls is justified: its field differs from the cache, and where the source also checks the native state, from that too. The hit-test setter is justified with the corrected flag (see Left out). |
| System.ReconcileComplete | bevy_tao/src/system.rs:118-273 | Every justified setter is called, the hit-test setter with the corrected flag (see Left out). |
| System.SettledIsQuiet | bevy_tao/src/system.rs:279 | Once settled, the descriptor equals its cache and calls no setter, whatever the native state is. |
| System.SyncWindow | bevy_tao/src/system.rs:116-279 | Processing one changed descriptor is the change function, and it logs that descriptor's setters on its native window. |
| System.ChangedWindows | bevy_tao/src/system.rs:110-282 | The change pass over the changed descriptors is the change function over them, in order, with its calls logged. |
| System.ChangeOneEffect | bevy_tao/src/system.rs:116-279 | Processing a descriptor touches only it and its cache, and leaves the two in sync. An unregistered descriptor keeps its old cache. |
| System.ChangeAllFrame | bevy_tao/src/system.rs:110-282 | Descriptors outside the changed set, the registry and the events are unchanged. |
| System.ChangeAllSyncs | bevy_tao/src/system.rs:279 | After the pass, every changed descriptor is in sync with its cache. |
| System.InSyncQuiet | bevy_tao/src/system.rs:118-273 | A descriptor equal to its cache, with no pending request, calls no setter and is left alone. |
| System.ChangeAllQuiet | bevy_tao/src/system.rs:110-282 | A pass over descriptors that are all in sync changes nothing and calls nothing. |
| System.ChangeAllIdempotent | bevy_tao/src/system.rs:110-282 | A second change pass right after the first changes nothing and calls nothing. |
| Native.Invocations | bevy_tao/src/system.rs:118-273 | The logged calls are the setters, one entry each, in order, on the given window. |
| Runner.DefaultPersistent | bevy_tao/src/lib.rs:222-231 | The initial handler state is inactive with all flags clear, and its last update is now. |
| Runner.Respond | bevy_tao/src/lib.rs:346-557 | Only Resized, CursorMoved, CursorLeft, Focused and Moved write the descriptor. Every other event leaves it unchanged. Each known event sends exactly one application event. |
| Runner.RespondWrites | bevy_tao/src/lib.rs:347-391 | Resized sets the physical size and reports the logical size. CursorMoved stores the physical position. CursorLeft clears it. Focused sets the focus. Moved sets the position. Each sends its event for the window. |
| Runner.RespondReports | bevy_tao/src/lib.rs:410-441 | A wheel event keeps its unit, Line or Pixel, and its deltas. A received text sends its first character. |
| Runner.CursorMovedIsLogical | bevy_tao/src/lib.rs:370-380 | The reported cursor position times the scale factor is the physical position. |
| Runner.TouchIsLogical | bevy_tao/src/lib.rs:429-435 | A touch sends one touch event with the touch's id, and its location times the scale factor is the physical location. The descriptor is left as it was. |
| Runner.ApplyWindowEvent | bevy_tao/src/lib.rs:346-562 | The descriptor becomes the response's descriptor and the response's events are appended. The cache is refreshed to the new descriptor when the application changed it or the event wrote it, and otherwise left as it was. Other windows, their caches, every mode and the registry are untouched. |
| Runner.SetUp | bevy_tao/src/lib.rs:269-278 | Setup becomes done the first time the application is ready, and runs once. |
| Runner.Dispatched | bevy_tao/src/lib.rs:287-606 | The dispatch keeps setup and the registry. It returns early exactly for a window event without a known target, and then changes nothing. |
| Runner.DeviceMotionForwarded | bevy_tao/src/lib.rs:564-572 | Raw device mouse motion appends exactly one `MouseMotion` carrying the backend's delta. Nothing else changes, and the handler goes on. |
| Runner.IgnoredEventsKeepSnapshot | bevy_tao/src/lib.rs:605 | Other device events, user events, redraw requests and the loop's end leave the snapshot as it was, and the handler goes on. |
| Runner.Handler.Handle | bevy_tao/src/lib.rs:260-623 | One run of the handler changes the state as the handler function says, and logs exactly the creation calls. |
| Runner.Handler.Dispatch | bevy_tao/src/lib.rs:287-606 | The per-event dispatch matches the dispatch function. |
| Runner.Handler.HandleWindowEvent | bevy_tao/src/lib.rs:298-562 | A window event is applied to its target, or returns early for an unknown native window or a missing descriptor. |
| Runner.HandledKeepsValid | bevy_tao/src/lib.rs:260-623 | Across any event, setup has run at most once and the registry invariant holds. |
| Runner.Handled | bevy_tao/src/lib.rs:260-623 | Setup is done after the event exactly when it was done before or the application is ready, and it runs at most once. The handler's other effects are stated by the lemmas about it below. |
| Runner.ExitReturnsFirst | bevy_tao/src/lib.rs:280-285 | A pending exit sets Exit and returns before any dispatch or window creation. |
| Runner.NewEventsResetsFrame | bevy_tao/src/lib.rs:288-297 | A new frame clears the low-power flag and records whether the wait timed out. |
| Runner.UnknownWindowIgnored | bevy_tao/src/lib.rs:322-342 | An event for an unknown window changes nothing beyond setup and creates no window. |
| Runner.KnownWindowEvent | bevy_tao/src/lib.rs:298-562 | An event for a known window sets the low-power flag, applies the response to that window, and refreshes its cache exactly as ApplyWindowEvent says. |
| Runner.CreationOnlyWhileActive | bevy_tao/src/lib.rs:608-622 | Windows are created exactly when the handler did not return early and the application is active. |
| Runner.SuspendAndResume | bevy_tao/src/lib.rs:576-581 | Suspended deactivates and creates nothing. Resumed activates and creates the pending windows. |
| Runner.MainEventsClearedUpdates | bevy_tao/src/lib.rs:582-587 | The application updates, and its time is recorded, exactly when setup is done. |
| Runner.RedrawEventsClearedPolls | bevy_tao/src/lib.rs:588-603 | After the redraw events the loop polls, and the redraw flag records whether a redraw was requested. |
| Runner.Entry | bevy_tao/src/lib.rs:626-630 | The returning loop is entered exactly when `return_from_run` is set. |
| Bridge.Split | examples/wry_demo/src/bridge.rs:48 | Splitting gives at least one piece. |
| Bridge.SplitCount | examples/wry_demo/src/bridge.rs:48 | There is one piece more than there are separators. |
| Bridge.SplitPiecesClean | examples/wry_demo/src/bridge.rs:48 | No piece contains the separator. |
| Bridge.JoinSplit | examples/wry_demo/src/bridge.rs:47-48 | Joining the pieces with the separator gives back the string. |
| Bridge.SplitJoin | examples/wry_demo/src/bridge.rs:47-48 | Splitting a join of separator-free pieces gives back the pieces. |
| Bridge.ParseRequest | examples/wry_demo/src/bridge.rs:42-53 | A message yields a request exactly when it starts with `NavigatedTo:`. |
| Bridge.ParsedLinks | examples/wry_demo/src/bridge.rs:43-49 | The links number the commas plus one, so an empty remainder gives one empty link. No link contains a comma, and joined they rebuild the remainder. |
| Bridge.ParseMessage | examples/wry_demo/src/bridge.rs:43-49 | The message a page builds from comma-free links parses back to exactly those links. |
| Bridge.PageMessage | examples/wry_demo/src/bridge.rs:42-53 | A recognised message queues exactly its one request. Any other message queues nothing. |
| Bridge.ReadRequests | examples/wry_demo/src/bridge.rs:61-72 | All pending requests become `NewPage` events with the same links, in arrival order. The queue is left empty, and the receiver is put back. |
| Bridge.Pages | examples/wry_demo/src/bridge.rs:63-69 | There is one page event per request, with the request's links. |
| Bridge.UnescapeEscape | examples/wry_demo/src/bridge.rs:33 | The quoted form of a string reads back as that string. |
| Bridge.Command | examples/wry_demo/src/bridge.rs:31-35 | The script is `window.location.assign("…")`, and the quoted part reads back as the page's address. |
| Bridge.EmitEvents | examples/wry_demo/src/bridge.rs:55-59 | Each pending event's script is run, in order. |
| Bridge.Commands | examples/wry_demo/src/bridge.rs:55-59 | There is one script per event, each that event's command. |
| Links.SpawnLinks | examples/wry_demo/src/links.rs:91-132 | Without a page, nothing changes. With one, the old links go, each link gets one fresh entity, and the order is a permutation of the new entities. The selected position is left as it was. |
| Links.Shuffle | examples/wry_demo/src/links.rs:131 | The shuffle is a permutation of the order and leaves the selected position alone. |
| Links.Spawned | examples/wry_demo/src/links.rs:112-129 | The links map onto consecutive fresh entities: the i-th link goes on the i-th entity, and no other entity is a link. |
| Links.OrderCoversLinks | examples/wry_demo/src/links.rs:109-131 | After a new page, an entity is in the order exactly when it is a link on screen. |
| Links.SelectNext | examples/wry_demo/src/links.rs:155-190 | Nothing changes when the selection is out of range or the timer has not just finished. Otherwise the position steps on modulo the order's length, the started flag is set and never cleared, the heading switches on the first step, and the selected link's address is shown. |
| Links.StepStaysInOrder | examples/wry_demo/src/links.rs:178-182 | A step from a position inside the order stays inside it, and moves when there are two links or more. |
| Links.NavigateAsWritten | examples/wry_demo/src/links.rs:211-226 | As written, space with the selected position outside the order stops the program. |
| Links.NavigateBeforeFirstPagePanics | examples/wry_demo/src/links.rs:221 | Space before any page has arrived stops the program. |
| Links.NavigateAfterShorterPagePanics | examples/wry_demo/src/links.rs:221 | Space after a page shorter than the selected position stops the program. |
| Links.Navigation | examples/wry_demo/src/links.rs:211-226 | Space sends the selected link's address exactly when the selection is in range and still a link. |
| Links.NavigationAgreesWhereDefined | examples/wry_demo/src/links.rs:211-226 | Wherever the written step does not stop the program, the corrected step sends the same event. |
| Links.Navigate | examples/wry_demo/src/links.rs:211-226 | The queued events gain the corrected step's event, if any. |
| Casts.SaturateU32 | bevy_tao/src/tao_windows.rs:267-270 | A value in range is kept. Below range gives 0, and above range gives the maximum. |
| Casts.SaturateI32 | bevy_tao/src/tao_windows.rs:279 | The same for `i32`. |
| Casts.SaturatingSub | bevy_tao/src/tao_windows.rs:272-276 | The difference, or 0 when it would be negative. |
| Casts.RoundHalfAwayNearest | bevy_tao/src/tao_windows.rs:279 | The rounded value is within one half of the real value. |
| Bevy.ResizeConstraints.Checked | bevy_tao/src/tao_windows.rs:93 | The checked constraints are well-formed. Each minimum is the larger of one pixel and the requested minimum. A finite maximum stays finite and is the larger of the requested maximum and the checked minimum. An infinite maximum stays infinite. |
| Bevy.CheckedKeepsWellFormed | bevy_tao/src/system.rs:205 | Well-formed constraints pass the check unchanged, so the check is idempotent. |
| Bevy.Window.PhysicalCursorPosition | bevy_tao/src/system.rs:154-155 | The cursor position is present exactly when the reported position lies inside the physical area, and it is then that position. |

## Left out

- The `ScaleFactorChanged` window event (lib.rs:442-490) is not modelled. It rescales with floating-point tolerance checks, and the model's `OtherWindowEvent` stands for it and any unhandled event.
- Floating-point rounding is not modelled; all sizes and positions are exact reals. The `is_finite` checks on maximum sizes are an `Option` maximum.
- `RawHandleWrapper`, the raw window and display handles, and the `create_window_system_state.apply` command flush are not modelled.
- Rendering, the physics of the links (gravity, collisions, motion) and the sprite colours and depth are not modelled.
- The `unimplemented!` arms for future backend variants cannot be reached in the model: its enumerations are closed.
- The native snapshot a change pass reads (`Native.Backend.query`) is not updated by the calls the pass makes. Each pass sees the operating system's answers as inputs.
- Native.Backend.InvokeAll: the change pass's setters are computed as one list and logged together, not one statement at a time.
- TaoWindows.GetFittingVideomode: the in-place sort is modelled by its first element, which is all the source reads.
- TaoWindows.GetBestVideomode: likewise, modelled by the first element of the sort.
- Runner.Respond: the `unwrap`s on a key's scan code and on a received text's first character are preconditions (`Runner.Handleable`). The source panics there.
- TaoWindows.FullscreenFor: an exclusive fullscreen mode needs a monitor with modes (`TaoWindows.ExclusiveReady`). The source unwraps the monitor and the sorted list.
- System.SyncWindow: likewise, a changed exclusive mode needs a monitor with modes (`System.ModeReady`).
- Bridge.ReadRequests: the receiver must be present. The source unwraps it.
- Bridge.EmitEvents: every script is taken to be evaluated. The `unwrap` on `evaluate_script` (bridge.rs:37) panics when the web view refuses a script, which stops the emitting loop (bridge.rs:56-58); that panic is not modelled.
- Bridge.PageMessage: the sender's `unwrap` on a closed channel is not modelled; the queue is always open.
- The engine helpers the core calls (`set_scale_factor`, `check_constraints`, `physical_cursor_position`) are written from the engine's behaviour. The engine's source is not part of this model.
- `window.is_changed()` is an input (`AppStatus.windowChanged`). Change detection itself is not modelled.
- Logging (`info!`, `warn!`, `error!`, `trace!`) is not modelled.
- The ticking of task pools before the application is ready is not modelled.
- The queue between the page's thread and the application is a sequence; concurrency and thread affinity are not modelled.
- Bridge.Command: Rust's `Debug` quoting is modelled for `"`, `\`, newline, carriage return, tab and NUL. The `\u{..}` escapes that `Debug` for `str` writes are not modelled. It writes them for other non-printable characters and for grapheme-extending characters, such as combining marks.
- The unsupported-platform panic of `run_return` (lib.rs:162-167) and the loop internals are not modelled; only the choice between the two loops is (`Runner.Entry`).
- Links.SpawnLinks: entity spawning and despawning take effect immediately in the model. The engine defers them until the commands are applied, but `spawn_links` pushes the reserved entities onto `order` at once (links.rs:129). The three systems are registered without an order (links.rs:16-26). So in the frame a page arrives, `select_system` or `navigate` may run after `spawn_links` and see the new `order` while none of the new links exist yet. Their `query.get_mut` and `query.get` then fail (links.rs:174, 186, 222): no address is shown and no navigation is queued. The model's Links.SelectNext and Links.Navigate, run after Links.SpawnLinks, act on the new links instead. The system order and this same-frame window are not modelled.
- Links.SelectNext: the timer is an input `timerFinished`. The source ticks it only when the selection is in range.
- Links.Shuffle: the random draws are an input function, and the contract states only that the result is a permutation.
- TaoWindows.AfterBuildOps: the hit-test call carries the corrected flag (`true` when hit testing is off, so cursor events are ignored). Line 125 of tao_windows.rs passes `false`. TaoWindows.AfterBuildOpsAsWritten is the call as written; see Findings.
- TaoWindows.TaoWindows.CreateWindow: logs TaoWindows.AfterBuildOps, so it records the corrected hit-test flag where the source passes `false`.
- System.CursorOps: the hit-test setter gets `!hit_test`, the corrected flag. Line 183 of system.rs passes `hit_test`; see Findings.
- System.SyncWindow: logs System.CursorOps, so it records the corrected hit-test flag.
- System.ReconcileSound: the justification of the hit-test setter is the corrected flag, so the call the source makes is not covered.
- System.ReconcileComplete: likewise, the hit-test setter it requires carries the corrected flag.
- Links.Navigate: queues nothing where line 221 of links.rs panics (space with the selection outside the order). Links.NavigateAsWritten models that panic; see Findings.
- Runner.Handled: its own contract states only the setup. The rest of one handler run is stated by the lemmas about it (Runner.HandledKeepsValid, Runner.ExitReturnsFirst and those after them).
- System.ShapeOps: its contract states the setters it may call and when it is silent. The exact calls are stated for the whole pass by System.ReconcileSound and System.ReconcileComplete.
- System.FrameOps: likewise.
- System.RequestOps: likewise.
- System.ReconcileOps: likewise, its contract states only when it is silent. Order and uniqueness are stated by System.ReconcileOpsInOrder.

## Findings

| source | as written | input that shows it | evidently intended | confidence | as-written member | corrected member |
|---|---|---|---|---|---|---|
| bevy_tao/src/tao_windows.rs:124-125, bevy_tao/src/system.rs:182-183 | The hit-test flag is passed as the backend's ignore-cursor-events flag, so hit testing on means events are ignored. | A window created with `hit_test == false` calls `set_ignore_cursor_events(false)` and still receives cursor events. Turning hit testing back on later makes it ignore them. | Ignore cursor events exactly when hit testing is off (`!hit_test`). | not executed | TaoWindows.IgnoreCursorEventsAsWritten, TaoWindows.HitTestOffIgnoredAsWritten, TaoWindows.AfterBuildOpsAsWritten | TaoWindows.IgnoreCursorEvents |
| examples/wry_demo/src/links.rs:221 | `navigate` indexes `order[idx]` with no bounds check, and `spawn_links` never resets `idx`. | Space before any page arrives (`order == []`, `idx == 0`). Or space with `idx == 2` after a page with two links. | Skip navigation when the selection is out of range, as `select_system` already does with `get`. | not executed | Links.NavigateAsWritten, Links.NavigateBeforeFirstPagePanics | Links.Navigation |
