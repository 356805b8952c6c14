# hyprpill and liquiddock: a Dafny model of the plugins' core logic

This project models the core logic of two Hyprland compositor plugins and proves properties of it.

**hyprpill** draws a pill-shaped grab handle above every window.
- Four visual states: INACTIVE, ACTIVE, HOVERED and PRESSED.
- On a state change the pill restarts a transition. Every animated field (width, height, radius, opacity, vertical offset, colour) then moves toward the new state's destination by clamped, eased progress.
- Pressing the pill's click hitbox claims the process-wide drag slot. The first pointer move then floats, resizes and pins the window if it is tiled, and moves it once; later mouse moves of the same press do not move it, while touch moves keep moving it. Releasing gives the slot back.
- Touch input follows touch point 0 only.

**liquiddock** is a dock of application icons at the bottom of one monitor.
- `rebuildDockItems` reconciles the shared item list with the compositor's windows:
  - it clears flags;
  - it marks or appends one item per application;
  - it erases items that are neither pinned nor running.
- `layoutIcons` gives each icon its slot, and a quadratic falloff magnifies icons near the cursor.
- A left click on an icon focuses its window or runs its command. A right click flips the icon's pin.
- Each frame, the dock checks the auto-hide timer and a dirty flag before rebuilding.
- The `liquiddock-pin` keyword parses `appId, command, displayName` into a pinned item.
- Before a configuration reload, pinned items that are not running are erased.

## How the source maps to Dafny

- Files:
  - `common.dfy`: the `Option`/`Result` wrappers, points and boxes, the host's rounding (`std::lround` and the `(int)` cast), and the order-preserving filter behind `std::erase_if`.
  - `hyprpill.dfy`: `hyprpill/pillDeco.cpp`.
  - `dock.dfy`: `liquiddock/dockSurface.cpp`.
  - `dockmain.dfy`: `liquiddock/main.cpp`.
- Numbers: floats are reals and time is integer milliseconds (`now`).
- Objects the source updates in place are classes with those fields:
  - `HyprPill.Pill` and the drag slot `HyprPill.PillContext`;
  - `LiquidDock.Dock` and the shared `LiquidDock.GlobalState`.
- Host effects become outputs:
  - focus changes, z-order changes and keybind dispatches become a returned sequence of effects;
  - `info.cancelled` is a returned flag;
  - `damageEntire` calls become a returned "redraw" flag;
  - a click's launch is a returned `Launch`.
- Host queries become parameters: the cursor position, the focused window, the window list, the monitors and the configuration values.
- The drag owner, a weak pointer in the source, is `Option<PillId>`. It is released when its pill is destroyed.
- The dock's weak pointer is a nullable `Dock?`.

## Model

| member | source | states |
|---|---|---|
| Geometry.InRect | hyprpill/pillDeco.cpp:209 | `VECINRECT`: left and top edges inclusive, right and bottom exclusive |
| Geometry.Contains | liquiddock/dockSurface.cpp:419 | `CBox::containsPoint`: the same half-open test on the box |
| Geometry.Round | hyprpill/pillDeco.cpp:170-173 | `std::lround`: the nearest integer, with halves rounded away from zero (so the result has the argument's sign) |
| Geometry.Trunc | hyprpill/pillDeco.cpp:357 | the `(int)` cast: toward zero, less than one unit from its argument |
| Seqs.Filter | liquiddock/dockSurface.cpp:310 | `std::erase_if` with the negated condition: no longer than the input, exactly the kept elements, in order (order by `FilterAppend`) |
| HyprPill.Lerp | hyprpill/pillDeco.cpp:22-24 | defines `lerpf`; its end points and range are stated by `LerpRange` and `LerpMonotone` |
| HyprPill.LerpRange | hyprpill/pillDeco.cpp:22-24 | interpolation gives `a` at 0 and `b` at 1, and for a fraction in [0,1] stays between `a` and `b` |
| HyprPill.LerpMonotone | hyprpill/pillDeco.cpp:22-24 | a growing fraction in [0,1] moves the value monotonically from `a` toward `b` |
| HyprPill.LerpColor | hyprpill/pillDeco.cpp:26-28 | each of the four channels is interpolated on its own; fraction 0 gives the first colour and 1 the second |
| HyprPill.EaseInOut | hyprpill/pillDeco.cpp:30-32 | the curve sends 0 to 0, 1/2 to 1/2 and 1 to 1, and maps [0,1] into [0,1] |
| HyprPill.EaseInRange | hyprpill/pillDeco.cpp:31 | the quadratic ease-in half maps [0,1/2) into [0,1/2] |
| HyprPill.EaseOutRange | hyprpill/pillDeco.cpp:31 | the mirrored ease-out half maps [1/2,1] into [1/2,1] |
| HyprPill.EaseMonotone | hyprpill/pillDeco.cpp:30-32 | eased progress never decreases as linear progress grows |
| HyprPill.EaseSymmetric | hyprpill/pillDeco.cpp:30-32 | the curve is point-symmetric about (1/2,1/2) |
| HyprPill.TargetState | hyprpill/pillDeco.cpp:385-392 | PRESSED iff a drag is pending or active; else HOVERED iff hovered; else ACTIVE iff focused; else INACTIVE |
| HyprPill.Duration | hyprpill/pillDeco.cpp:427 | the press duration for PRESSED and the hover duration otherwise, never below 1 ms |
| HyprPill.Progress | hyprpill/pillDeco.cpp:428-429 | elapsed over duration clamped to [0,1]: 0 before the start, 1 from the duration on, strictly inside (0,1) in between |
| HyprPill.ProgressMonotone | hyprpill/pillDeco.cpp:428-429 | progress never decreases as time advances |
| HyprPill.Snapshot | hyprpill/pillDeco.cpp:396-405 | origins copy the current values, except that a width, height or radius not yet positive falls back to the configured value |
| HyprPill.Destination | hyprpill/pillDeco.cpp:407-425 | focused or unfocused base values; HOVERED and PRESSED take the hover size; HOVERED takes the active opacity and hover colour; PRESSED takes opacity 1 and the pressed colour |
| HyprPill.Animate | hyprpill/pillDeco.cpp:432-437 | eased fraction 0 gives the origin and 1 the destination; in between, every scalar field lies between its origin and destination |
| HyprPill.LooksAt | hyprpill/pillDeco.cpp:426-437 | defines the looks a given time into a transition; `Departs`, `Arrives` and `ConvergesMonotonically` state what it does |
| HyprPill.Departs | hyprpill/pillDeco.cpp:426-437 | at elapsed time 0 the looks are exactly the transition's origin |
| HyprPill.Arrives | hyprpill/pillDeco.cpp:426-437 | once the elapsed time reaches the duration, every field equals its destination exactly |
| HyprPill.ConvergesMonotonically | hyprpill/pillDeco.cpp:426-437 | as time advances the width moves toward its destination without overshoot or reversal |
| HyprPill.HoverWidthAtMidpoint | hyprpill/pillDeco.cpp:426-432 | with the default widths 96 and 120 and duration 140 ms, the width is 108 after 70 ms |
| HyprPill.VisibleBox | hyprpill/pillDeco.cpp:158-174 | defines `visibleBoxGlobal` on the translated slot; its shape is stated by `VisibleBoxShape` |
| HyprPill.VisibleBoxShape | hyprpill/pillDeco.cpp:158-174 | the pill box is at least 1 px each way, on whole pixels, centred on the slot within half a pixel, `offsetY` above the slot, and falls back to the configured width while the animated width is at most 1 |
| HyprPill.Hitbox | hyprpill/pillDeco.cpp:180-186 | the padding and offset arithmetic both hitboxes share; stated by `HitboxShape` |
| HyprPill.HoverHitbox | hyprpill/pillDeco.cpp:176-187 | `hoverHitboxGlobal`: `Hitbox` of the pill box with the hover padding and offset |
| HyprPill.ClickHitbox | hyprpill/pillDeco.cpp:189-200 | `clickHitboxGlobal`: `Hitbox` of the pill box with the click padding and offset |
| HyprPill.HitboxShape | hyprpill/pillDeco.cpp:176-200 | a hitbox keeps the pill's horizontal centre, grows the width and height by twice the padding, and is shifted by the configured offset |
| HyprPill.HitboxCoversPill | hyprpill/pillDeco.cpp:176-200 | with non-negative padding and an offset within the vertical padding, every point of the pill lies inside its hitbox |
| HyprPill.TouchToGlobal | hyprpill/pillDeco.cpp:291-293 | a normalised touch position scaled by the monitor size and shifted by its position |
| HyprPill.ValidMapped | hyprpill/pillDeco.cpp:327 | the window still exists and is mapped |
| HyprPill.MoveTo | hyprpill/pillDeco.cpp:356-357 | the move dispatch targets the cursor minus the grab offset, truncated to within one pixel |
| HyprPill.DragMoves | hyprpill/pillDeco.cpp:349-359 | the last dispatch always moves the window under the cursor; floating, resizing and pinning are issued iff this is the first move of a tiled window's drag, in that order and before the move |
| HyprPill.FloatsOnlyOnFirstMove | hyprpill/pillDeco.cpp:350-354 | floating and pinning happen on the first move iff the window is tiled, and never on later moves |
| HyprPill.PillContext.constructor | hyprpill/globals.hpp:9-13 | the registry starts empty, with no drag owner |
| HyprPill.Pill.constructor | hyprpill/pillDeco.cpp:35-48 | a new pill has no drag, no touch, no interception and a zero grab offset; its one update computes hover against the initial zero-sized box, targets the state `TargetState` picks without a drag, starts the transition and frame clock at `now`, takes the initial looks (snapshotted unless the target is INACTIVE) as origin, and shows exactly that origin |
| HyprPill.Pill.UpdateStateAndAnimate | hyprpill/pillDeco.cpp:361-442 | hover recomputed; the target chosen by priority; on a change the start time resets to `now` and origins snapshot, otherwise both are untouched; fields are the looks at the current progress; redraw while in transit or after 16 ms; drag flags untouched |
| HyprPill.Pill.Retarget | hyprpill/pillDeco.cpp:381-405 | the state-selection half of the above |
| HyprPill.Pill.Advance | hyprpill/pillDeco.cpp:407-441 | the interpolation half of the above |
| HyprPill.Pill.InputIsValid | hyprpill/pillDeco.cpp:212-223 | input reaches the pill iff the plugin is enabled, the pill is shown, the workspace is visible, no exclusive layer holds input and no seat grab rejects the window |
| HyprPill.Pill.CanBegin | hyprpill/pillDeco.cpp:226-235 | a drag may begin iff the slot is free or already this pill's, the point is inside the click hitbox and the window still exists |
| HyprPill.Pill.BeginDrag | hyprpill/pillDeco.cpp:225-252 | a no-op when another pill owns the drag, the point is outside the click hitbox, or the window is gone; otherwise it cancels the event, sets the intercept and pending flags, takes ownership, targets PRESSED, records the grab offset, and focuses or raises as needed |
| HyprPill.Pill.EndDrag | hyprpill/pillDeco.cpp:254-270 | cancels only if the press was intercepted; clears every drag flag and the touch id; releases ownership only if held; makes tiled only after a touch drag |
| HyprPill.Pill.OnMouseButton | hyprpill/pillDeco.cpp:272-282 | ignored while input is invalid; a release ends the drag and a press begins one |
| HyprPill.Pill.OnTouchDown | hyprpill/pillDeco.cpp:284-295 | ignored unless input is valid and the touch id is 0; otherwise starts touch tracking and begins a drag at the global position; when the drag cannot begin, only the touch fields change |
| HyprPill.Pill.OnTouchUp | hyprpill/pillDeco.cpp:297-302 | ends the drag only for the followed touch point |
| HyprPill.Pill.UpdateDragPosition | hyprpill/pillDeco.cpp:349-359 | issues the drag dispatches and marks the drag as started |
| HyprPill.Pill.OnMouseMove | hyprpill/pillDeco.cpp:304-336 | with another owner or invalid input it only clears hover; hovering outside a drag focuses and cancels; the first move of a pending mouse drag clears pending, focuses and moves the window once; later mouse moves of the same press do not move it |
| HyprPill.Pill.OnTouchMove | hyprpill/pillDeco.cpp:338-347 | moves the window only for the followed touch point of a pending touch drag |
| HyprPill.Pill.Destroy | hyprpill/pillDeco.cpp:50-60 | releases the drag if this pill holds it, never touches another pill's claim, and leaves the registry |
| HyprPill.OthersStayValid | hyprpill/pillDeco.cpp:225-270 | an operation of one pill that keeps others' claims (every context-changing method ensures it) leaves every other untouched pill consistent with the drag slot |
| HyprPill.AtMostOneDragging | hyprpill/pillDeco.cpp:225-229 | two different pills consistent with the drag slot are never both dragging |
| LiquidDock.FindMonitor | liquiddock/dockSurface.cpp:226-231 | a monitor with the configured name that no earlier monitor shares (the first), or none iff no monitor has it |
| LiquidDock.TargetMonitor | liquiddock/dockSurface.cpp:222-238 | the named monitor when the name is set and present, else the first monitor, else none, which happens iff there are no monitors |
| LiquidDock.DockWidth | liquiddock/dockSurface.cpp:253-255 | the dock width for a number of items; `DockWidthGrowth` states how it grows |
| LiquidDock.DockBox | liquiddock/dockSurface.cpp:240-265 | defines `dockBoxGlobal`; `DockBoxShape` states its shape |
| LiquidDock.DockBoxShape | liquiddock/dockSurface.cpp:240-265 | the dock box is as wide as `DockWidth`, as tall as the configured height, centred on the monitor, and its bottom is 8 px above the monitor's; with no monitor it is empty and contains no point |
| LiquidDock.DockWidthGrowth | liquiddock/dockSurface.cpp:253-255 | zero and one items give the same width, and each further item adds one icon and one gap |
| LiquidDock.IconCenter | liquiddock/dockSurface.cpp:323-324 | the target centre of icon `i`; `IconSpacing` and `IconsInsideDock` state where it lies |
| LiquidDock.Place | liquiddock/dockSurface.cpp:326-336 | sets only the animated properties an item already has; stated by `LayoutProperties` |
| LiquidDock.IconSpacing | liquiddock/dockSurface.cpp:323-325 | consecutive icon centres are exactly icon size plus spacing apart, on one horizontal line |
| LiquidDock.IconsInsideDock | liquiddock/dockSurface.cpp:318-325 | with non-negative sizes, every icon square lies inside the dock box minus its padding (vertically when icons fit the height) |
| LiquidDock.Layout | liquiddock/dockSurface.cpp:323-337 | layout keeps one entry per item |
| LiquidDock.LayoutProperties | liquiddock/dockSurface.cpp:323-337 | layout changes only the animated properties: set positions move to the slot centre, one slot apart; ids and flags stay |
| LiquidDock.LayoutIdempotent | liquiddock/dockSurface.cpp:313-338 | laying out twice against the same box equals laying out once |
| LiquidDock.Falloff | liquiddock/dockSurface.cpp:360-368 | the quadratic falloff at a distance; `FalloffBounds`, `FalloffEnds` and `FalloffMonotone` state its behaviour |
| LiquidDock.MagnificationScale | liquiddock/dockSurface.cpp:344-369 | 1 when magnification is off, the cursor x is negative, the index is out of range or the icon has no position; otherwise the falloff at the cursor's horizontal distance |
| LiquidDock.FalloffBounds | liquiddock/dockSurface.cpp:360-368 | the falloff lies between 1 and the maximum scale |
| LiquidDock.FalloffEnds | liquiddock/dockSurface.cpp:360-368 | the maximum scale at distance 0, and exactly 1 at the 150 px edge |
| LiquidDock.FalloffMonotone | liquiddock/dockSurface.cpp:360-368 | with a magnifying scale, an icon never shrinks as the cursor comes closer |
| LiquidDock.MagnificationBounds | liquiddock/dockSurface.cpp:344-369 | the magnification scale lies between 1 and the configured maximum |
| LiquidDock.IconHit | liquiddock/dockSurface.cpp:397-410 | a positioned icon is hit iff the point lies in its closed square of half-side half the icon size times its magnification |
| LiquidDock.ScaledHalf | liquiddock/dockSurface.cpp:397-407 | half the icon size times the icon's magnification |
| LiquidDock.FirstHit | liquiddock/dockSurface.cpp:400-412 | the lowest index whose magnified square contains the point (edges included), or -1 when none does |
| LiquidDock.FirstHitAt | liquiddock/dockSurface.cpp:400-412 | an index that is hit, with no hit before it, is what the scan returns; with no hit at all it returns -1 |
| LiquidDock.UnpositionedNeverHit | liquiddock/dockSurface.cpp:402-403 | items without a position are never hit |
| LiquidDock.FirstWindowOf | liquiddock/dockSurface.cpp:465-472 | a mapped, non-hidden window of the app with no such window before it in window order, or none iff there is no such window |
| LiquidDock.LaunchAction | liquiddock/dockSurface.cpp:462-481 | a running item with a visible window focuses exactly the first one in window order (`FirstWindowOf`); otherwise its command runs, or its app id when the command is empty; with both empty, nothing happens; an executed command is never empty |
| LiquidDock.ResetItem | liquiddock/dockSurface.cpp:277-279 | one step of the reset loop: clears `focused`, and `running` on unpinned items |
| LiquidDock.ResetFlags | liquiddock/dockSurface.cpp:276-280 | the reset loop applied to every item, keeping the length; `ResetJustified` states its effect |
| LiquidDock.IndexOfApp | liquiddock/dockSurface.cpp:292 | the first index holding the app id, or none iff the id is absent |
| LiquidDock.Mark | liquiddock/dockSurface.cpp:294-297 | an existing item seen in a window becomes running, and focused if that window has focus |
| LiquidDock.NewItem | liquiddock/dockSurface.cpp:298-305 | the item a window of a new app adds: named by the title, or the app id when the title is empty; running; focused iff its window has focus |
| LiquidDock.AddWindow | liquiddock/dockSurface.cpp:284-306 | one iteration of the window loop; `AddWindowStep` and `AddWindowIds` state its effect |
| LiquidDock.AddWindows | liquiddock/dockSurface.cpp:283-307 | the window loop; `AddWindowsShape`, `AddWindowsInvariant` and `AddWindowsOrder` state its effect |
| LiquidDock.Keep | liquiddock/dockSurface.cpp:310 | the negation of the erase condition: pinned or running |
| LiquidDock.Rebuild | liquiddock/dockSurface.cpp:271-311 | the whole of `rebuildDockItems` on values; the `Rebuild…` lemmas state its properties |
| LiquidDock.AddWindowShape | liquiddock/dockSurface.cpp:284-306 | one window step only raises flags on existing items and appends at most one unpinned, running, bare item |
| LiquidDock.AddWindowsShape | liquiddock/dockSurface.cpp:283-307 | the window loop only raises `running`/`focused` on existing items, and appends unpinned, running items with no command or position |
| LiquidDock.ResetJustified | liquiddock/dockSurface.cpp:276-280 | after the reset loop no item is focused and no unpinned item is running |
| LiquidDock.AddWindowStep | liquiddock/dockSurface.cpp:291-306 | one window step keeps every running unpinned or focused item justified by a window, and every visible window covered by an item |
| LiquidDock.AddWindowsInvariant | liquiddock/dockSurface.cpp:283-307 | the whole window loop keeps both properties |
| LiquidDock.FilterJustified | liquiddock/dockSurface.cpp:310 | the erase step keeps every surviving item justified by a window |
| LiquidDock.FilterCovered | liquiddock/dockSurface.cpp:310 | the erase step never removes an item that covers a visible window, since those items run |
| LiquidDock.RebuildReconciles | liquiddock/dockSurface.cpp:271-311 | after a rebuild every item is pinned or running; an unpinned item survives only through a visible window of its app; focused only through the focused window; every visible window with a class has a running item, focused if it has focus |
| LiquidDock.PinnedIdsAddWindows | liquiddock/dockSurface.cpp:283-307 | the window loop keeps the pinned items' ids, in order |
| LiquidDock.RebuildKeepsPinned | liquiddock/dockSurface.cpp:276-310 | the ids of pinned items, in order, are exactly those before the rebuild |
| LiquidDock.RebuildKeepsPinnedRunning | liquiddock/dockSurface.cpp:276-280 | a pinned item that was running stays running after a rebuild, even with no window left |
| LiquidDock.AddWindowIds | liquiddock/dockSurface.cpp:292-306 | one window step keeps the app ids and appends the window's class iff it is visible, non-empty and new |
| LiquidDock.AddWindowsOrder | liquiddock/dockSurface.cpp:292-306 | existing items keep their order; new apps are appended in order of their first visible window |
| LiquidDock.NewAppsFresh | liquiddock/dockSurface.cpp:292-306 | the appended apps are distinct and were not already present |
| LiquidDock.FilterKeepsDistinct | liquiddock/dockSurface.cpp:310 | erasing items keeps distinct app ids distinct |
| LiquidDock.RebuildKeepsDistinct | liquiddock/dockSurface.cpp:271-311 | a rebuild never creates two items for one app |
| LiquidDock.RebuildUnpositioned | liquiddock/dockSurface.cpp:298-305 | a rebuild of items without animated positions yields none |
| LiquidDock.AutoHideStep | liquiddock/dockSurface.cpp:681-691 | the frame is skipped iff auto-hide is on, the dock is unhovered and the timer, already running, has exceeded 1500 ms; the timer runs iff auto-hide is on and the dock is unhovered; it starts at `now` |
| LiquidDock.HiddenStaysHidden | liquiddock/dockSurface.cpp:681-688 | once hidden, the dock stays hidden on later unhovered frames |
| LiquidDock.HoverRestartsTimer | liquiddock/dockSurface.cpp:681-691 | hovering stops the timer; the next unhovered frame restarts it, and the dock then hides exactly on frames more than 1500 ms later |
| LiquidDock.TogglePin | liquiddock/dockSurface.cpp:432-439 | right-click flips the hit item's `pinned` flag and changes nothing else |
| LiquidDock.TogglePinTwice | liquiddock/dockSurface.cpp:432-439 | flipping the same pin twice restores the list |
| LiquidDock.GlobalState.constructor | liquiddock/globals.hpp:29-35 | no dock, no items, not hovered |
| LiquidDock.Dock.constructor | liquiddock/dockSurface.cpp:141-151 | a new dock rebuilds and lays out the items; the header's defaults: auto-hide off, cursor at -1, items dirty |
| LiquidDock.Dock.RebuildDockItems | liquiddock/dockSurface.cpp:271-311 | the in-place reset, mark-or-append and erase loops produce `Rebuild` of the old list |
| LiquidDock.Dock.LayoutIcons | liquiddock/dockSurface.cpp:313-338 | the loop produces `Layout` of the old list against the current dock box |
| LiquidDock.Dock.HitTestIcon | liquiddock/dockSurface.cpp:394-413 | returns the lowest hit index or -1, and changes nothing |
| LiquidDock.Dock.OnMouseButton | liquiddock/dockSurface.cpp:415-443 | ignored outside the dock box; a left press on an icon cancels and launches it; a right press on an icon cancels and flips its pin, marking the list dirty iff an item that is not running gets unpinned |
| LiquidDock.Dock.OnMouseMove | liquiddock/dockSurface.cpp:445-460 | records the cursor; hovered iff the dock box contains it; redraw when hover changed or while hovered |
| LiquidDock.Dock.OnWindowEvent | liquiddock/dockSurface.cpp:375-388 | any window open, close or focus marks the list dirty |
| LiquidDock.Dock.RenderPass | liquiddock/dockSurface.cpp:668-707 | nothing unless enabled and on the target monitor; then one auto-hide step that may skip the frame; a drawn frame with a dirty list rebuilds, lays out and clears the flag; otherwise the list is untouched |
| LiquidDockMain.Field | liquiddock/main.cpp:47-55 | field `i`, or empty past the end |
| LiquidDockMain.PinnedItem | liquiddock/main.cpp:52-56 | the item a pin line creates from its three values, with the header's defaults elsewhere |
| LiquidDockMain.ParsePinnedApp | liquiddock/main.cpp:46-56 | an error iff the first field is empty; otherwise a pinned, not running, unfocused item with no icon path and no animated properties, whose app id is field 0, command field 1 when present and else the app id, display name field 2 when present and else the app id |
| LiquidDockMain.PinLineRoundTrip | liquiddock/main.cpp:53-55 | parsing an item's `appId, command, displayName` line gives back those three fields, pinned |
| LiquidDockMain.ParsedItemLaunches | liquiddock/main.cpp:53-56 | a freshly pinned item's click runs the command field if non-empty and the app id otherwise |
| LiquidDockMain.Survives | liquiddock/main.cpp:65 | the negation of the erase condition: an item survives unless pinned and not running |
| LiquidDockMain.ReloadFilter | liquiddock/main.cpp:63-66 | removes exactly the pinned, not running items; every pinned survivor is running |
| LiquidDockMain.ReloadFilterProperties | liquiddock/main.cpp:65 | the filter keeps relative order (distributes over concatenation), is idempotent, and keeps app ids distinct |
| LiquidDockMain.AppendPinned | liquiddock/main.cpp:52-58 | the handler as written: an error leaves the list alone; a parsed item goes at the end |
| LiquidDockMain.ReloadAsWritten | liquiddock/main.cpp:40-66 | a reload as written, the erase filter then every pin line appended: the surviving items stay in front in order, each pin line adds at most one item, and every added item is pinned |
| LiquidDockMain.ReloadDuplicatesRunningPin | liquiddock/main.cpp:63-66 | reloading with a running pinned app and its pin line yields two items for that app |
| LiquidDockMain.MergePinned | liquiddock/main.cpp:52-58 | corrected handler: re-pins an existing item of the app with the line's command and name, else appends |
| LiquidDockMain.MergePinnedKeepsApps | liquiddock/main.cpp:52-58 | the corrected handler removes no app, and a parsed line's app is in the list afterwards |
| LiquidDockMain.Reload | liquiddock/main.cpp:40-66 | a reload with the corrected handler: the surviving apps keep their places, each pin line adds at most one item, and the app of every valid pin line is in the dock afterwards |
| LiquidDockMain.MergePinnedKeepsDistinct | liquiddock/main.cpp:52-58 | the corrected handler keeps app ids distinct |
| LiquidDockMain.ReloadKeepsDistinct | liquiddock/main.cpp:63-66 | a reload with the corrected handler keeps one item per app, whatever pin lines repeat |
| LiquidDockMain.OnPinnedApp | liquiddock/main.cpp:40-61 | an empty app id reports `appId cannot be empty` and adds nothing; otherwise exactly the parsed item is appended |
| LiquidDockMain.OnPreConfigReload | liquiddock/main.cpp:63-66 | the list becomes `ReloadFilter` of itself |
| LiquidDockMain.OnWindowEvent | liquiddock/main.cpp:19-38 | window events reach the dock only while it exists, and then mark its list dirty; no other field of the dock or the global state changes |

## Observations about the source


- **No drag threshold.** The header declares a drag start point and a last left-press time (`m_dragStartCoords`, `m_lastLeftDown`, hyprpill/pillDeco.hpp:80-81), but no code reads them. A drag therefore starts on the first pointer move of a pending press, however small, and there is no double-click handling. Likewise, `handlePillClickAction`, `focusAndDispatchToWindow` and `updateCursorShape` (hyprpill/pillDeco.hpp:58-62) are declared but not defined, and the occlusion-dodging fields (hyprpill/pillDeco.hpp:103-106) are never used.
- **A mouse drag moves the window once.** `onMouseMove` clears `m_dragPending` (hyprpill/pillDeco.cpp:331) before its one call to `updateDragPosition`, and every later move of the same press returns early at hyprpill/pillDeco.cpp:327. The window therefore jumps to the first move's position and stays there until release. Touch moves keep `m_dragPending` set and move the window on every event (hyprpill/pillDeco.cpp:338-347).
- **Tiled on release only after touch.** After a touch drag the window is made tiled on release (`settiled`, hyprpill/pillDeco.cpp:260-261), even if it was floating before the drag. After a mouse drag, a window the drag floated stays floating and pinned; a window that was already floating is only moved (hyprpill/pillDeco.cpp:350).
- **Hover focuses the window.** Hovering the pill outside a drag focuses the window and swallows the move.
- **Pinned items never stop running.** A pinned item's `running` flag is never cleared by a rebuild, because only unpinned items are reset (`LiquidDock.RebuildKeepsPinnedRunning`).
- **Dock icons are never hit.** No code shown ever creates an item's animated properties. As shipped, icons therefore have no position: `hitTestIcon` always returns -1 and magnification is always 1 (`LiquidDock.RebuildUnpositioned`, `LiquidDock.UnpositionedNeverHit`). The model keeps the properties optional so the click path is still specified.

## Findings

| source | as written | input that shows it | evidently intended | confidence | as-written member | corrected member |
|---|---|---|---|---|---|---|
| liquiddock/main.cpp:52-65 | the reload filter keeps pinned items that are running, and the pin handler then appends a fresh item for every pin line | items `[foot (pinned, running)]`, pin line `foot`: after the reload the list holds two `foot` items | pinned items are re-added from the configuration once, so each app appears once | medium, not executed | LiquidDockMain.ReloadDuplicatesRunningPin | LiquidDockMain.MergePinned |

`LiquidDockMain.ReloadKeepsDistinct` proves the intended property for a reload that uses the corrected handler. `LiquidDockMain.OnPinnedApp` keeps the append behaviour of the code.

## Left out

- GL shaders, shader compile/link, the SDF and icon rendering, and render-pass submission: GPU backend. The pass-element adapters are also left out.
- Damage regions: `damageEntire` becomes a returned flag where the code calls it conditionally; the box sizes are left out.
- Plugin init and exit, config value and callback registration, version checks and window-rule lookups: host ABI plumbing.
- The occlusion-dodging interval solver, drag geometry locking, drag pixel threshold, double-click and cursor shapes: declared in `hyprpill/pillDeco.hpp` but never implemented in the code.
- Splitting of the `liquiddock-pin` value into fields (`CVarList`) and decoding of colours from config integers: host library code. The model starts from the field list and decoded colours.
- Interpolation of the dock's animated variables by the host: a set animated property holds its target value at once.
- `liquiddock/globals.hpp` `dragIndex` and `dockVisible`, and the item `iconTex`: never read or written by the core.
- 32-bit integer overflow and `size_t` wrap-around in width and layout arithmetic, and float rounding: sizes are unbounded integers and positions reals. `std::lround` is modelled as rounding half away from zero and the `(int)` cast as truncation.
- Identity of monitors and windows is compared by value (monitors) or by an id (windows) instead of by pointer.
- HyprPill.EaseInOut: states the range [0,1] but not strict monotonicity of the curve; `HyprPill.EaseMonotone` proves the non-strict version.
- LiquidDock.Layout: its own contract states only the length; what each entry becomes is stated by `LiquidDock.LayoutProperties`.
