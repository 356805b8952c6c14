/**
 * The liquiddock dock: a bar of application icons centred at the bottom of
 * one monitor. Its item list is shared process-wide; the dock surface
 * reconciles it with the compositor's windows, lays the icons out, answers
 * pointer events and decides each frame whether to draw.
 */
module LiquidDock {
  import opened Wrappers
  import opened Geometry
  import Seqs

  type WindowId = nat

  /**
   * One dock entry (`SDockItem`). The four animated properties are shared
   * pointers in the source that may be unset; `None` models an unset one and
   * `Some(v)` one whose value is `v`.
   */
  datatype DockItem = DockItem(
    appId: string,
    command: string,
    iconPath: string,
    displayName: string,
    pinned: bool,
    running: bool,
    focused: bool,
    position: Option<Vec2>,
    size: Option<Vec2>,
    scale: Option<real>,
    alpha: Option<real>)

  /** What the dock reads about a compositor window. */
  datatype Window = Window(id: WindowId, initialClass: string, title: string, hidden: bool, mapped: bool)

  datatype Monitor = Monitor(name: string, position: Vec2, size: Vec2)

  /** The `plugin:liquiddock:*` values the core reads. */
  datatype DockConfig = DockConfig(
    enabled: bool,
    dockHeight: int,
    padding: int,
    iconSize: int,
    spacing: int,
    autoHide: bool,
    magnification: bool,
    magnificationScale: real,
    monitor: string)

  /** What a left click on an icon asks the compositor to do. */
  datatype Launch = FocusWindow(window: WindowId) | Exec(command: string)

  datatype Button = Left | Right | OtherButton

  datatype ButtonEvent = ButtonEvent(button: Button, pressed: bool)

  /** The sequence of application ids of `items`, in dock order. */
  function AppIds(items: seq<DockItem>): (ids: seq<string>)
    ensures |ids| == |items|
  {
    seq(|items|, i requires 0 <= i < |items| => items[i].appId)
  }

  predicate Distinct(ids: seq<string>)
  {
    forall i, j :: 0 <= i < j < |ids| ==> ids[i] != ids[j]
  }

  // ---------------------------------------------------------------------
  // Target monitor and dock box
  // ---------------------------------------------------------------------

  /** `m` is the first monitor in `monitors` called `name`. */
  predicate FirstMonitorNamed(monitors: seq<Monitor>, name: string, m: Monitor)
  {
    exists k :: 0 <= k < |monitors| && monitors[k] == m && m.name == name
      && forall j :: 0 <= j < k ==> monitors[j].name != name
  }

  lemma FirstMonitorNamedShift(monitors: seq<Monitor>, name: string, m: Monitor)
    requires monitors != [] && monitors[0].name != name
    requires FirstMonitorNamed(monitors[1..], name, m)
    ensures FirstMonitorNamed(monitors, name, m)
  {
    var k :| 0 <= k < |monitors| - 1 && monitors[1..][k] == m && m.name == name
      && forall j :: 0 <= j < k ==> monitors[1..][j].name != name;
    assert monitors[k + 1] == m;
    forall j | 0 <= j < k + 1
      ensures monitors[j].name != name
    {
      if j > 0 {
        assert monitors[j] == monitors[1..][j - 1];
      }
    }
  }

  /** The first monitor called `name`, if any. */
  function FindMonitor(name: string, monitors: seq<Monitor>): (r: Option<Monitor>)
    ensures r.Some? ==> r.value in monitors && FirstMonitorNamed(monitors, name, r.value)
    ensures r.None? ==> forall m :: m in monitors ==> m.name != name
  {
    if monitors == [] then None
    else if monitors[0].name == name then
      assert monitors[0] == monitors[0];
      Some(monitors[0])
    else
      var r := FindMonitor(name, monitors[1..]);
      if r.Some? then FirstMonitorNamedShift(monitors, name, r.value); r
      else r
  }

  /**
   * `getTargetMonitor`: the monitor named in the configuration when that name
   * is set and present, otherwise the first monitor, otherwise none.
   */
  function TargetMonitor(name: string, monitors: seq<Monitor>): (r: Option<Monitor>)
    ensures r.None? <==> monitors == []
    ensures r.Some? ==> r.value in monitors
    ensures name != "" && (exists m :: m in monitors && m.name == name) ==> r.Some? && r.value.name == name
    ensures (name == "" || forall m :: m in monitors ==> m.name != name) && monitors != [] ==> r == Some(monitors[0])
  {
    var named := if name != "" then FindMonitor(name, monitors) else None;
    if named.Some? then named
    else if monitors != [] then Some(monitors[0])
    else None
  }

  /** The dock's width in pixels for `count` items: at least one icon slot, spacing between slots, padding on both sides. */
  function DockWidth(count: nat, cfg: DockConfig): int
  {
    var n := if count > 1 then count else 1;
    n * cfg.iconSize + (n - 1) * cfg.spacing + 2 * cfg.padding
  }

  /** `dockBoxGlobal`: the dock's box in global coordinates, or the empty box when there is no target monitor. */
  function DockBox(cfg: DockConfig, monitors: seq<Monitor>, count: nat): Box
  {
    match TargetMonitor(cfg.monitor, monitors)
    case None => Box(0.0, 0.0, 0.0, 0.0)
    case Some(m) =>
      var w := DockWidth(count, cfg) as real;
      var h := cfg.dockHeight as real;
      Box(m.position.x + (m.size.x - w) * 0.5, m.position.y + m.size.y - h - 8.0, w, h)
  }

  /**
   * The dock box's shape: centred horizontally on the target monitor, its
   * bottom edge 8 px above the monitor's, as wide as `DockWidth` and as tall
   * as the configured height; with no monitor it is empty and contains no point.
   */
  lemma DockBoxShape(cfg: DockConfig, monitors: seq<Monitor>, count: nat)
    ensures monitors == [] ==> DockBox(cfg, monitors, count) == Box(0.0, 0.0, 0.0, 0.0)
    ensures monitors == [] ==> forall p :: !Contains(DockBox(cfg, monitors, count), p)
    ensures monitors != [] ==>
      var b := DockBox(cfg, monitors, count);
      var m := TargetMonitor(cfg.monitor, monitors).value;
      && b.w == DockWidth(count, cfg) as real
      && b.h == cfg.dockHeight as real
      && b.x + b.w * 0.5 == m.position.x + m.size.x * 0.5
      && b.y + b.h + 8.0 == m.position.y + m.size.y
  {
  }

  /** Each extra item beyond the first widens the dock by one icon and one gap; zero and one items give the same width. */
  lemma DockWidthGrowth(cfg: DockConfig, count: nat)
    ensures DockWidth(0, cfg) == DockWidth(1, cfg) == cfg.iconSize + 2 * cfg.padding
    ensures count >= 1 ==> DockWidth(count + 1, cfg) == DockWidth(count, cfg) + cfg.iconSize + cfg.spacing
  {
  }

  // ---------------------------------------------------------------------
  // Icon layout
  // ---------------------------------------------------------------------

  /** The centre `layoutIcons` assigns to icon `i` inside `box`. */
  function IconCenter(box: Box, cfg: DockConfig, i: nat): Vec2
  {
    Vec2(box.x + cfg.padding as real + (i * (cfg.iconSize + cfg.spacing)) as real + cfg.iconSize as real * 0.5,
         box.y + box.h * 0.5)
  }

  /** Consecutive icon centres are one icon plus one gap apart, on one horizontal line. */
  lemma IconSpacing(box: Box, cfg: DockConfig, i: nat)
    ensures IconCenter(box, cfg, i + 1).x - IconCenter(box, cfg, i).x == (cfg.iconSize + cfg.spacing) as real
    ensures IconCenter(box, cfg, i + 1).y == IconCenter(box, cfg, i).y
  {
    assert (i + 1) * (cfg.iconSize + cfg.spacing) == i * (cfg.iconSize + cfg.spacing) + (cfg.iconSize + cfg.spacing);
  }

  /**
   * With non-negative icon size and spacing, every icon square of a laid-out
   * dock lies horizontally inside the dock box minus its padding, and inside
   * it vertically when icons are no taller than the dock.
   */
  lemma IconsInsideDock(cfg: DockConfig, monitors: seq<Monitor>, count: nat, i: nat)
    requires monitors != [] && i < count
    requires cfg.iconSize >= 0 && cfg.spacing >= 0
    ensures var b := DockBox(cfg, monitors, count);
            var c := IconCenter(b, cfg, i);
            var half := cfg.iconSize as real * 0.5;
            && b.x + cfg.padding as real <= c.x - half
            && c.x + half <= b.x + b.w - cfg.padding as real
            && (cfg.iconSize <= cfg.dockHeight ==> b.y <= c.y - half && c.y + half <= b.y + b.h)
  {
    DockBoxShape(cfg, monitors, count);
    var s, g := cfg.iconSize, cfg.spacing;
    MulNonNeg((count - 1 - i) as real, (s + g) as real);
    assert i * (s + g) + s + (count - 1 - i) * (s + g) == count * s + (count - 1) * g;
    assert DockWidth(count, cfg) == count * s + (count - 1) * g + 2 * cfg.padding;
  }

  /** Overwrite an animated property's value when it is set; an unset one stays unset. */
  function Overwrite<T>(o: Option<T>, v: T): (r: Option<T>)
    ensures r.Some? <==> o.Some?
    ensures r.Some? ==> r.value == v
  {
    if o.Some? then Some(v) else None
  }

  /** Icon `i` after `layoutIcons`: centred in its slot, icon-sized, unscaled and opaque. */
  function Place(it: DockItem, box: Box, cfg: DockConfig, i: nat): DockItem
  {
    it.(position := Overwrite(it.position, IconCenter(box, cfg, i)),
        size := Overwrite(it.size, Vec2(cfg.iconSize as real, cfg.iconSize as real)),
        scale := Overwrite(it.scale, 1.0),
        alpha := Overwrite(it.alpha, 1.0))
  }

  /** The item list after `layoutIcons` against `box`. */
  function Layout(items: seq<DockItem>, box: Box, cfg: DockConfig): (r: seq<DockItem>)
    ensures |r| == |items|
  {
    seq(|items|, i requires 0 <= i < |items| => Place(items[i], box, cfg, i))
  }

  /**
   * Layout touches only the animated properties: every item keeps its place,
   * identity and flags, and the positioned ones sit one slot apart.
   */
  lemma LayoutProperties(items: seq<DockItem>, box: Box, cfg: DockConfig)
    ensures AppIds(Layout(items, box, cfg)) == AppIds(items)
    ensures forall i :: 0 <= i < |items| ==>
      var r := Layout(items, box, cfg)[i];
      r == items[i].(position := r.position, size := r.size, scale := r.scale, alpha := r.alpha)
    ensures forall i :: 0 <= i < |items| && items[i].position.Some? ==>
      Layout(items, box, cfg)[i].position == Some(IconCenter(box, cfg, i))
    ensures forall i :: 0 <= i < |items| - 1 && items[i].position.Some? && items[i + 1].position.Some? ==>
      Layout(items, box, cfg)[i + 1].position.value.x - Layout(items, box, cfg)[i].position.value.x
        == (cfg.iconSize + cfg.spacing) as real
  {
    forall i | 0 <= i < |items| - 1 && items[i].position.Some? && items[i + 1].position.Some?
      ensures Layout(items, box, cfg)[i + 1].position.value.x - Layout(items, box, cfg)[i].position.value.x
        == (cfg.iconSize + cfg.spacing) as real
    {
      IconSpacing(box, cfg, i);
    }
  }

  /** Laying out twice against the same box is the same as laying out once. */
  lemma LayoutIdempotent(items: seq<DockItem>, box: Box, cfg: DockConfig)
    ensures Layout(Layout(items, box, cfg), box, cfg) == Layout(items, box, cfg)
  {
    var once := Layout(items, box, cfg);
    assert forall i :: 0 <= i < |items| ==> Layout(once, box, cfg)[i] == once[i];
  }

  // ---------------------------------------------------------------------
  // Magnification
  // ---------------------------------------------------------------------

  /** The horizontal range of the magnification effect, in pixels. */
  const MaxDist: real := 150.0

  function Abs(x: real): (r: real)
    ensures r >= 0.0 && (r == x || r == -x)
  {
    if x < 0.0 then -x else x
  }

  /** The quadratic falloff: `maxScale` at distance 0, 1 at `MaxDist` and beyond. */
  function Falloff(maxScale: real, dist: real): real
  {
    if dist > MaxDist then 1.0
    else
      var f := 1.0 - dist / MaxDist;
      1.0 + (maxScale - 1.0) * (f * f)
  }

  /** The square of a number in [0, 1] is in [0, 1]. */
  lemma SquareUnit(f: real)
    requires 0.0 <= f <= 1.0
    ensures 0.0 <= f * f <= 1.0
  {
    MulNonNeg(f, f);
    MulNonNeg(f, 1.0 - f);
  }

  /** Scaling a number `q` in [0, 1] by `k`, then adding 1, lands between 1 and 1 + k. */
  lemma ScaledUnit(k: real, q: real)
    requires 0.0 <= q <= 1.0
    ensures k >= 0.0 ==> 1.0 <= 1.0 + k * q <= 1.0 + k
    ensures k < 0.0 ==> 1.0 + k <= 1.0 + k * q <= 1.0
  {
    if k >= 0.0 {
      MulNonNeg(k, q);
      MulNonNeg(k, 1.0 - q);
    } else {
      MulNonNeg(-k, q);
      MulNonNeg(-k, 1.0 - q);
    }
  }

  /** The falloff always lies between 1 and `maxScale`. */
  lemma FalloffBounds(maxScale: real, dist: real)
    requires dist >= 0.0
    ensures maxScale >= 1.0 ==> 1.0 <= Falloff(maxScale, dist) <= maxScale
    ensures maxScale < 1.0 ==> maxScale <= Falloff(maxScale, dist) <= 1.0
  {
    if dist <= MaxDist {
      var f := 1.0 - dist / MaxDist;
      var k, q := maxScale - 1.0, f * f;
      assert Falloff(maxScale, dist) == 1.0 + k * q;
      SquareUnit(f);
      ScaledUnit(k, q);
      assert k >= 0.0 ==> 1.0 <= 1.0 + k * q <= 1.0 + k;
      assert k < 0.0 ==> 1.0 + k <= 1.0 + k * q <= 1.0;
    } else {
      assert Falloff(maxScale, dist) == 1.0;
    }
  }

  /** The peak is reached with the cursor over the icon's centre, and the curve meets 1 at the range's edge. */
  lemma FalloffEnds(maxScale: real)
    ensures Falloff(maxScale, 0.0) == maxScale
    ensures Falloff(maxScale, MaxDist) == 1.0
  {
  }

  /** With a magnifying scale, an icon never shrinks as the cursor comes closer. */
  lemma {:induction false} FalloffMonotone(maxScale: real, near: real, far: real)
    requires maxScale >= 1.0 && 0.0 <= near <= far
    ensures Falloff(maxScale, far) <= Falloff(maxScale, near)
  {
    FalloffBounds(maxScale, near);
    if far <= MaxDist {
      var f1 := 1.0 - near / MaxDist;
      var f2 := 1.0 - far / MaxDist;
      assert 0.0 <= f2 <= f1;
      MulNonNeg(f1 + f2, f1 - f2);
      assert f1 * f1 - f2 * f2 == (f1 + f2) * (f1 - f2);
      MulNonNeg(maxScale - 1.0, f1 * f1 - f2 * f2);
      assert (maxScale - 1.0) * (f1 * f1) - (maxScale - 1.0) * (f2 * f2) == (maxScale - 1.0) * (f1 * f1 - f2 * f2);
    }
  }

  /**
   * `getMagnificationScale`: 1 when magnification is off, the cursor is not
   * over the output (x below 0), the index is out of range, or the icon has no
   * position; otherwise the falloff at the cursor's horizontal distance from
   * the icon's centre.
   */
  function MagnificationScale(cfg: DockConfig, items: seq<DockItem>, index: int, cursorX: real): (r: real)
    ensures !cfg.magnification || cursorX < 0.0 || index < 0 || index >= |items| ==> r == 1.0
    ensures 0 <= index < |items| && items[index].position.None? ==> r == 1.0
    ensures cfg.magnification && cursorX >= 0.0 && 0 <= index < |items| && items[index].position.Some? ==>
      r == Falloff(cfg.magnificationScale, Abs(cursorX - items[index].position.value.x))
  {
    if !cfg.magnification || cursorX < 0.0 then 1.0
    else if index < 0 || index >= |items| then 1.0
    else match items[index].position
      case None => 1.0
      case Some(c) => Falloff(cfg.magnificationScale, Abs(cursorX - c.x))
  }

  /** The magnification scale lies between 1 and the configured maximum, whichever way round they are. */
  lemma MagnificationBounds(cfg: DockConfig, items: seq<DockItem>, index: int, cursorX: real)
    ensures cfg.magnificationScale >= 1.0 ==> 1.0 <= MagnificationScale(cfg, items, index, cursorX) <= cfg.magnificationScale
    ensures cfg.magnificationScale < 1.0 ==> cfg.magnificationScale <= MagnificationScale(cfg, items, index, cursorX) <= 1.0
  {
    if cfg.magnification && cursorX >= 0.0 && 0 <= index < |items| && items[index].position.Some? {
      FalloffBounds(cfg.magnificationScale, Abs(cursorX - items[index].position.value.x));
    }
  }

  // ---------------------------------------------------------------------
  // Hit testing
  // ---------------------------------------------------------------------

  /** Whether icon `i`'s square, scaled by its magnification, contains `p` (edges included). */
  predicate IconHit(items: seq<DockItem>, cfg: DockConfig, cursorX: real, i: nat, p: Vec2)
    requires i < |items|
  {
    match items[i].position
    case None => false
    case Some(c) =>
      var half := ScaledHalf(items, cfg, cursorX, i);
      c.x - half <= p.x <= c.x + half && c.y - half <= p.y <= c.y + half
  }

  /** Half the side of icon `i`'s square: half the icon size, magnified. */
  function ScaledHalf(items: seq<DockItem>, cfg: DockConfig, cursorX: real, i: nat): real
    requires i < |items|
  {
    cfg.iconSize as real * 0.5 * MagnificationScale(cfg, items, i, cursorX)
  }

  /** The lowest index at or after `from` whose icon is hit, or -1. */
  function FirstHit(items: seq<DockItem>, cfg: DockConfig, cursorX: real, p: Vec2, from: nat): (r: int)
    requires from <= |items|
    ensures r == -1 || from <= r < |items|
    ensures r >= 0 ==> IconHit(items, cfg, cursorX, r, p)
    ensures r >= 0 ==> forall j :: from <= j < r ==> !IconHit(items, cfg, cursorX, j, p)
    ensures r == -1 ==> forall j :: from <= j < |items| ==> !IconHit(items, cfg, cursorX, j, p)
    decreases |items| - from
  {
    if from == |items| then -1
    else if IconHit(items, cfg, cursorX, from, p) then from
    else FirstHit(items, cfg, cursorX, p, from + 1)
  }

  /** `FirstHit` is the hit index `k` (or -1 for `k == |items|`) when no icon from `from` up to `k` is hit. */
  lemma {:induction false} FirstHitAt(items: seq<DockItem>, cfg: DockConfig, cursorX: real, p: Vec2, from: nat, k: nat)
    requires from <= k <= |items|
    requires k < |items| ==> IconHit(items, cfg, cursorX, k, p)
    requires forall j :: from <= j < k ==> !IconHit(items, cfg, cursorX, j, p)
    ensures FirstHit(items, cfg, cursorX, p, from) == (if k == |items| then -1 else k)
    decreases k - from
  {
    if from < k {
      FirstHitAt(items, cfg, cursorX, p, from + 1, k);
    }
  }

  /** Items without a position can never be hit. */
  lemma UnpositionedNeverHit(items: seq<DockItem>, cfg: DockConfig, cursorX: real, p: Vec2)
    requires forall i :: 0 <= i < |items| ==> items[i].position.None?
    ensures FirstHit(items, cfg, cursorX, p, 0) == -1
  {
  }

  // ---------------------------------------------------------------------
  // Launching
  // ---------------------------------------------------------------------

  /** A window the dock counts: mapped and not hidden. */
  predicate Visible(w: Window)
  {
    !w.hidden && w.mapped
  }

  /** `w` is the first visible window in `windows` whose initial class is `appId`. */
  predicate FirstWindowIs(windows: seq<Window>, appId: string, w: Window)
  {
    exists k :: 0 <= k < |windows| && windows[k] == w && Visible(w) && w.initialClass == appId
      && forall j :: 0 <= j < k ==> !(Visible(windows[j]) && windows[j].initialClass == appId)
  }

  lemma FirstWindowIsShift(windows: seq<Window>, appId: string, w: Window)
    requires windows != [] && !(Visible(windows[0]) && windows[0].initialClass == appId)
    requires FirstWindowIs(windows[1..], appId, w)
    ensures FirstWindowIs(windows, appId, w)
  {
    var k :| 0 <= k < |windows| - 1 && windows[1..][k] == w && Visible(w) && w.initialClass == appId
      && forall j :: 0 <= j < k ==> !(Visible(windows[1..][j]) && windows[1..][j].initialClass == appId);
    assert windows[k + 1] == w;
    forall j | 0 <= j < k + 1
      ensures !(Visible(windows[j]) && windows[j].initialClass == appId)
    {
      if j > 0 {
        assert windows[j] == windows[1..][j - 1];
      }
    }
  }

  /** The first visible window whose initial class is `appId`, in window order. */
  function FirstWindowOf(windows: seq<Window>, appId: string): (r: Option<Window>)
    ensures r.Some? ==> r.value in windows && FirstWindowIs(windows, appId, r.value)
    ensures r.None? ==> forall w :: w in windows && Visible(w) ==> w.initialClass != appId
  {
    if windows == [] then None
    else if Visible(windows[0]) && windows[0].initialClass == appId then
      assert windows[0] == windows[0];
      Some(windows[0])
    else
      var r := FirstWindowOf(windows[1..], appId);
      if r.Some? then FirstWindowIsShift(windows, appId, r.value); r
      else r
  }

  /**
   * `launchApp`: focus the app's window when the item is running and such a
   * window exists; otherwise run its command, or its app id when the command
   * is empty; with both empty, do nothing.
   */
  function LaunchAction(item: DockItem, windows: seq<Window>): (r: Option<Launch>)
    ensures r.Some? && r.value.FocusWindow? ==>
      item.running && FirstWindowOf(windows, item.appId).Some? && r.value.window == FirstWindowOf(windows, item.appId).value.id
    ensures r.Some? && r.value.Exec? ==>
      r.value.command != "" && r.value.command == (if item.command != "" then item.command else item.appId)
    ensures r.None? <==> item.command == "" && item.appId == "" && (item.running ==> FirstWindowOf(windows, item.appId).None?)
    ensures item.running && FirstWindowOf(windows, item.appId).Some? ==> r.Some? && r.value.FocusWindow?
  {
    var target := if item.running then FirstWindowOf(windows, item.appId) else None;
    if target.Some? then Some(FocusWindow(target.value.id))
    else if item.command != "" then Some(Exec(item.command))
    else if item.appId != "" then Some(Exec(item.appId))
    else None
  }

  // ---------------------------------------------------------------------
  // Rebuilding the item list
  // ---------------------------------------------------------------------

  /** The first loop of `rebuildDockItems`: unpinned items stop running, no item is focused. */
  function ResetItem(it: DockItem): DockItem
  {
    if it.pinned then it.(focused := false) else it.(running := false, focused := false)
  }

  function ResetFlags(items: seq<DockItem>): (r: seq<DockItem>)
    ensures |r| == |items|
  {
    seq(|items|, i requires 0 <= i < |items| => ResetItem(items[i]))
  }

  /** `std::find_if` on the app id: the first index holding `appId`. */
  function IndexOfApp(items: seq<DockItem>, appId: string): (r: Option<nat>)
    ensures r.Some? ==> r.value < |items| && items[r.value].appId == appId
    ensures r.Some? ==> forall j :: 0 <= j < r.value ==> items[j].appId != appId
    ensures r.None? <==> appId !in AppIds(items)
  {
    if items == [] then None
    else if items[0].appId == appId then
      assert AppIds(items)[0] == appId;
      Some(0)
    else match IndexOfApp(items[1..], appId)
      case None =>
        assert AppIds(items) == [items[0].appId] + AppIds(items[1..]);
        None
      case Some(k) =>
        assert AppIds(items) == [items[0].appId] + AppIds(items[1..]);
        Some(k + 1)
  }

  /** An existing item seen running in window `w`: running, and focused too if `w` has focus. */
  function Mark(it: DockItem, w: Window, focus: Option<WindowId>): DockItem
  {
    var r := it.(running := true);
    if focus == Some(w.id) then r.(focused := true) else r
  }

  /** The item a window of an app not yet in the dock adds: unpinned, running, titled after the window. */
  function NewItem(w: Window, focus: Option<WindowId>): DockItem
  {
    DockItem(w.initialClass, "", "", if w.title == "" then w.initialClass else w.title,
             false, true, focus == Some(w.id), None, None, None, None)
  }

  /** One iteration of the window loop of `rebuildDockItems`. */
  function AddWindow(items: seq<DockItem>, w: Window, focus: Option<WindowId>): seq<DockItem>
  {
    if !Visible(w) || w.initialClass == "" then items
    else match IndexOfApp(items, w.initialClass)
      case Some(j) => items[j := Mark(items[j], w, focus)]
      case None => items + [NewItem(w, focus)]
  }

  /** The window loop of `rebuildDockItems` over `windows`, in order. */
  function AddWindows(items: seq<DockItem>, windows: seq<Window>, focus: Option<WindowId>): seq<DockItem>
    decreases |windows|
  {
    if windows == [] then items
    else AddWindow(AddWindows(items, windows[..|windows| - 1], focus), windows[|windows| - 1], focus)
  }

  /** The `erase_if` condition's complement: an item stays while pinned or running. */
  function Keep(it: DockItem): bool
  {
    it.pinned || it.running
  }

  /** `rebuildDockItems` on `items`, given the compositor's windows and the focused one. */
  function Rebuild(items: seq<DockItem>, windows: seq<Window>, focus: Option<WindowId>): seq<DockItem>
  {
    Seqs.Filter(AddWindows(ResetFlags(items), windows, focus), Keep)
  }

  /** `b` is `a` with, at most, `running` and `focused` switched on. */
  predicate Raised(a: DockItem, b: DockItem)
  {
    && b == a.(running := b.running, focused := b.focused)
    && (a.running ==> b.running)
    && (a.focused ==> b.focused)
  }

  /**
   * The window loop changes existing items only by raising their flags, and
   * what it appends are unpinned, running items with no command and no
   * animated properties.
   */
  lemma {:induction false} AddWindowsShape(items: seq<DockItem>, windows: seq<Window>, focus: Option<WindowId>)
    ensures var r := AddWindows(items, windows, focus);
      && |items| <= |r|
      && (forall i :: 0 <= i < |items| ==> Raised(items[i], r[i]))
      && (forall i :: |items| <= i < |r| ==>
            !r[i].pinned && r[i].running && r[i].command == "" && r[i].position.None?)
  {
    if windows != [] {
      var pre := windows[..|windows| - 1];
      var mid := AddWindows(items, pre, focus);
      AddWindowsShape(items, pre, focus);
      AddWindowShape(mid, windows[|windows| - 1], focus);
      var r := AddWindows(items, windows, focus);
      assert r == AddWindow(mid, windows[|windows| - 1], focus);
      forall i | 0 <= i < |items|
        ensures Raised(items[i], r[i])
      {
        assert Raised(items[i], mid[i]) && Raised(mid[i], r[i]);
      }
    }
  }

  /** One window step: existing items are only raised; anything appended is unpinned, running and bare. */
  lemma AddWindowShape(items: seq<DockItem>, w: Window, focus: Option<WindowId>)
    ensures var r := AddWindow(items, w, focus);
      && |items| <= |r| <= |items| + 1
      && (forall i :: 0 <= i < |items| ==> Raised(items[i], r[i]))
      && (|r| == |items| + 1 ==> !r[|items|].pinned && r[|items|].running && r[|items|].command == "" && r[|items|].position.None?)
  {
  }

  /** Every unpinned running item, and every focused item, is accounted for by a visible window. */
  predicate Justified(items: seq<DockItem>, windows: seq<Window>, focus: Option<WindowId>)
  {
    && (forall it :: it in items && !it.pinned && it.running ==>
          exists w :: w in windows && Visible(w) && w.initialClass == it.appId)
    && (forall it :: it in items && it.focused ==>
          exists w :: w in windows && Visible(w) && focus == Some(w.id) && w.initialClass == it.appId)
  }

  /** Every visible window with a class has a running item of its app, focused when the window is. */
  predicate Covered(items: seq<DockItem>, windows: seq<Window>, focus: Option<WindowId>)
  {
    forall w :: w in windows && Visible(w) && w.initialClass != "" ==>
      exists it :: it in items && it.appId == w.initialClass && it.running && (focus == Some(w.id) ==> it.focused)
  }

  lemma ResetJustified(items: seq<DockItem>, focus: Option<WindowId>)
    ensures Justified(ResetFlags(items), [], focus)
  {
    forall it | it in ResetFlags(items)
      ensures it.pinned || !it.running
      ensures !it.focused
    {
      var i :| 0 <= i < |items| && ResetFlags(items)[i] == it;
    }
  }

  /** Marking the item of a visible window's app keeps every item accounted for. */
  lemma MarkJustified(items: seq<DockItem>, seen: seq<Window>, w: Window, focus: Option<WindowId>, j: nat)
    requires Justified(items, seen, focus)
    requires Visible(w) && j < |items| && items[j].appId == w.initialClass
    ensures Justified(items[j := Mark(items[j], w, focus)], seen + [w], focus)
  {
    var r := items[j := Mark(items[j], w, focus)];
    var all := seen + [w];
    assert w in all;
    forall it | it in r && !it.pinned && it.running
      ensures exists v :: v in all && Visible(v) && v.initialClass == it.appId
    {
      var i :| 0 <= i < |r| && r[i] == it;
      if i != j {
        assert items[i] in items;
        var v :| v in seen && Visible(v) && v.initialClass == it.appId;
        assert v in all;
      }
    }
    forall it | it in r && it.focused
      ensures exists v :: v in all && Visible(v) && focus == Some(v.id) && v.initialClass == it.appId
    {
      var i :| 0 <= i < |r| && r[i] == it;
      if i != j || (items[j].focused && focus != Some(w.id)) {
        assert items[i] in items;
        var v :| v in seen && Visible(v) && focus == Some(v.id) && v.initialClass == it.appId;
        assert v in all;
      }
    }
  }

  /** Marking the item of a visible window's app keeps every visible window covered. */
  lemma MarkCovered(items: seq<DockItem>, seen: seq<Window>, w: Window, focus: Option<WindowId>, j: nat)
    requires Covered(items, seen, focus)
    requires Visible(w) && j < |items| && items[j].appId == w.initialClass
    ensures Covered(items[j := Mark(items[j], w, focus)], seen + [w], focus)
  {
    var r := items[j := Mark(items[j], w, focus)];
    forall v | v in seen + [w] && Visible(v) && v.initialClass != ""
      ensures exists it :: it in r && it.appId == v.initialClass && it.running && (focus == Some(v.id) ==> it.focused)
    {
      if v == w {
        assert r[j] in r;
      } else {
        assert v in seen;
        var it :| it in items && it.appId == v.initialClass && it.running && (focus == Some(v.id) ==> it.focused);
        var i :| 0 <= i < |items| && items[i] == it;
        assert r[i] in r;
      }
    }
  }

  /** Appending the item of a new app keeps every item accounted for. */
  lemma AppendJustified(items: seq<DockItem>, seen: seq<Window>, w: Window, focus: Option<WindowId>)
    requires Justified(items, seen, focus) && Visible(w)
    ensures Justified(items + [NewItem(w, focus)], seen + [w], focus)
  {
    var all := seen + [w];
    assert w in all;
    forall v | v in seen
      ensures v in all
    {
    }
  }

  /** Appending the item of a new app keeps every visible window covered. */
  lemma AppendCovered(items: seq<DockItem>, seen: seq<Window>, w: Window, focus: Option<WindowId>)
    requires Covered(items, seen, focus)
    ensures Covered(items + [NewItem(w, focus)], seen + [w], focus)
  {
    var r := items + [NewItem(w, focus)];
    forall v | v in seen + [w] && Visible(v) && v.initialClass != ""
      ensures exists it :: it in r && it.appId == v.initialClass && it.running && (focus == Some(v.id) ==> it.focused)
    {
      if v == w {
        assert r[|items|] in r;
      } else {
        assert v in seen;
        var it :| it in items && it.appId == v.initialClass && it.running && (focus == Some(v.id) ==> it.focused);
        assert it in r;
      }
    }
  }

  /** One window step keeps both `Justified` and `Covered`, for the windows seen so far plus the new one. */
  lemma AddWindowStep(items: seq<DockItem>, seen: seq<Window>, w: Window, focus: Option<WindowId>)
    requires Justified(items, seen, focus) && Covered(items, seen, focus)
    ensures Justified(AddWindow(items, w, focus), seen + [w], focus)
    ensures Covered(AddWindow(items, w, focus), seen + [w], focus)
  {
    if Visible(w) && w.initialClass != "" {
      match IndexOfApp(items, w.initialClass)
      case Some(j) =>
        MarkJustified(items, seen, w, focus, j);
        MarkCovered(items, seen, w, focus, j);
      case None =>
        AppendJustified(items, seen, w, focus);
        AppendCovered(items, seen, w, focus);
    } else {
      var all := seen + [w];
      forall it | it in items && !it.pinned && it.running
        ensures exists v :: v in all && Visible(v) && v.initialClass == it.appId
      {
        var v :| v in seen && Visible(v) && v.initialClass == it.appId;
        assert v in all;
      }
      forall it | it in items && it.focused
        ensures exists v :: v in all && Visible(v) && focus == Some(v.id) && v.initialClass == it.appId
      {
        var v :| v in seen && Visible(v) && focus == Some(v.id) && v.initialClass == it.appId;
        assert v in all;
      }
      forall v | v in all && Visible(v) && v.initialClass != ""
        ensures v in seen
      {
      }
    }
  }

  lemma {:induction false} AddWindowsInvariant(items: seq<DockItem>, windows: seq<Window>, focus: Option<WindowId>)
    ensures Justified(AddWindows(ResetFlags(items), windows, focus), windows, focus)
    ensures Covered(AddWindows(ResetFlags(items), windows, focus), windows, focus)
  {
    if windows == [] {
      ResetJustified(items, focus);
    } else {
      var pre := windows[..|windows| - 1];
      AddWindowsInvariant(items, pre, focus);
      AddWindowStep(AddWindows(ResetFlags(items), pre, focus), pre, windows[|windows| - 1], focus);
      assert pre + [windows[|windows| - 1]] == windows;
    }
  }

  /**
   * After a rebuild every item is pinned or running; an unpinned item is there
   * only because a visible window has its app id; a focused item belongs to
   * the focused, visible window; and every visible window with a class has a
   * running item of its app, focused when the window has focus.
   */
  lemma RebuildReconciles(items: seq<DockItem>, windows: seq<Window>, focus: Option<WindowId>)
    ensures forall it :: it in Rebuild(items, windows, focus) ==> it.pinned || it.running
    ensures Justified(Rebuild(items, windows, focus), windows, focus)
    ensures Covered(Rebuild(items, windows, focus), windows, focus)
  {
    var added := AddWindows(ResetFlags(items), windows, focus);
    AddWindowsInvariant(items, windows, focus);
    FilterJustified(added, windows, focus);
    FilterCovered(added, windows, focus);
  }

  /** Erasing items keeps the survivors justified. */
  lemma FilterJustified(items: seq<DockItem>, windows: seq<Window>, focus: Option<WindowId>)
    requires Justified(items, windows, focus)
    ensures Justified(Seqs.Filter(items, Keep), windows, focus)
  {
  }

  /** Erasing the items that are neither pinned nor running keeps every window covered: the covering items run. */
  lemma FilterCovered(items: seq<DockItem>, windows: seq<Window>, focus: Option<WindowId>)
    requires Covered(items, windows, focus)
    ensures Covered(Seqs.Filter(items, Keep), windows, focus)
  {
    var r := Seqs.Filter(items, Keep);
    forall w | w in windows && Visible(w) && w.initialClass != ""
      ensures exists it :: it in r && it.appId == w.initialClass && it.running && (focus == Some(w.id) ==> it.focused)
    {
      var it :| it in items && it.appId == w.initialClass && it.running && (focus == Some(w.id) ==> it.focused);
      assert Keep(it);
    }
  }

  /** The app ids of the pinned items, in order. */
  function PinnedIds(items: seq<DockItem>): seq<string>
  {
    if items == [] then [] else (if items[0].pinned then [items[0].appId] else []) + PinnedIds(items[1..])
  }

  lemma {:induction false} PinnedIdsAppend(s: seq<DockItem>, t: seq<DockItem>)
    ensures PinnedIds(s + t) == PinnedIds(s) + PinnedIds(t)
  {
    if s == [] {
      assert s + t == t;
    } else {
      assert (s + t)[1..] == s[1..] + t;
      PinnedIdsAppend(s[1..], t);
    }
  }

  /** Two lists that agree index by index on app id and pinned flag have the same pinned ids. */
  lemma {:induction false} PinnedIdsSameKeys(s: seq<DockItem>, t: seq<DockItem>)
    requires |s| == |t|
    requires forall i :: 0 <= i < |s| ==> s[i].appId == t[i].appId && s[i].pinned == t[i].pinned
    ensures PinnedIds(s) == PinnedIds(t)
  {
    if s != [] {
      PinnedIdsSameKeys(s[1..], t[1..]);
    }
  }

  lemma {:induction false} PinnedIdsNone(s: seq<DockItem>)
    requires forall i :: 0 <= i < |s| ==> !s[i].pinned
    ensures PinnedIds(s) == []
  {
    if s != [] {
      PinnedIdsNone(s[1..]);
    }
  }

  /** Dropping items that are neither pinned nor running keeps every pinned id. */
  lemma {:induction false} PinnedIdsKeep(s: seq<DockItem>)
    ensures PinnedIds(Seqs.Filter(s, Keep)) == PinnedIds(s)
  {
    if s != [] {
      var g := Seqs.Filter(s[1..], Keep);
      PinnedIdsKeep(s[1..]);
      if Keep(s[0]) {
        assert Seqs.Filter(s, Keep) == [s[0]] + g;
        PinnedIdsAppend([s[0]], g);
        PinnedIdsAppend([s[0]], s[1..]);
        assert [s[0]] + s[1..] == s;
      } else {
        assert Seqs.Filter(s, Keep) == g;
      }
    }
  }

  /** The window loop keeps the pinned ids: it only raises flags on existing items and appends unpinned ones. */
  lemma PinnedIdsAddWindows(items: seq<DockItem>, windows: seq<Window>, focus: Option<WindowId>)
    ensures PinnedIds(AddWindows(items, windows, focus)) == PinnedIds(items)
  {
    var added := AddWindows(items, windows, focus);
    AddWindowsShape(items, windows, focus);
    var head, tail := added[..|items|], added[|items|..];
    assert added == head + tail;
    PinnedIdsAppend(head, tail);
    PinnedIdsNone(tail);
    PinnedIdsSameKeys(head, items);
  }

  /** A rebuild never removes, adds or reorders pinned items. */
  lemma RebuildKeepsPinned(items: seq<DockItem>, windows: seq<Window>, focus: Option<WindowId>)
    ensures PinnedIds(Rebuild(items, windows, focus)) == PinnedIds(items)
  {
    var reset := ResetFlags(items);
    PinnedIdsKeep(AddWindows(reset, windows, focus));
    PinnedIdsAddWindows(reset, windows, focus);
    PinnedIdsSameKeys(reset, items);
  }

  /**
   * A rebuild leaves pinned items that were running still running, whether or
   * not a window of theirs remains: the reset loop clears `running` only on
   * unpinned items.
   */
  lemma RebuildKeepsPinnedRunning(items: seq<DockItem>, windows: seq<Window>, focus: Option<WindowId>, i: nat)
    requires i < |items| && items[i].pinned && items[i].running
    ensures exists it :: it in Rebuild(items, windows, focus) && it.appId == items[i].appId && it.pinned && it.running
  {
    var reset := ResetFlags(items);
    AddWindowsShape(reset, windows, focus);
    var it := AddWindows(reset, windows, focus)[i];
    assert Keep(it);
  }

  /** The applications that visible windows add to a dock already holding `known`, in window order, each once. */
  function NewApps(known: seq<string>, windows: seq<Window>): seq<string>
    decreases |windows|
  {
    if windows == [] then []
    else
      var pre := NewApps(known, windows[..|windows| - 1]);
      var w := windows[|windows| - 1];
      if Visible(w) && w.initialClass != "" && w.initialClass !in known + pre then pre + [w.initialClass] else pre
  }

  lemma AddWindowIds(items: seq<DockItem>, w: Window, focus: Option<WindowId>)
    ensures AppIds(AddWindow(items, w, focus)) ==
      AppIds(items) + (if Visible(w) && w.initialClass != "" && w.initialClass !in AppIds(items) then [w.initialClass] else [])
  {
    if Visible(w) && w.initialClass != "" {
      match IndexOfApp(items, w.initialClass)
      case Some(j) =>
        assert AppIds(AddWindow(items, w, focus)) == AppIds(items);
      case None =>
        assert AppIds(AddWindow(items, w, focus)) == AppIds(items) + [w.initialClass];
    }
  }

  /**
   * Existing items keep their order and new apps are appended at the end,
   * one per application, in the order of their first visible window.
   */
  lemma {:induction false} AddWindowsOrder(items: seq<DockItem>, windows: seq<Window>, focus: Option<WindowId>)
    ensures AppIds(AddWindows(items, windows, focus)) == AppIds(items) + NewApps(AppIds(items), windows)
  {
    if windows != [] {
      var pre := windows[..|windows| - 1];
      AddWindowsOrder(items, pre, focus);
      AddWindowIds(AddWindows(items, pre, focus), windows[|windows| - 1], focus);
      var known, later := AppIds(items), NewApps(AppIds(items), pre);
      var c := windows[|windows| - 1].initialClass;
      assert known + later + [c] == known + (later + [c]);
    }
  }

  /** The new apps are distinct and none was already known. */
  lemma {:induction false} NewAppsFresh(known: seq<string>, windows: seq<Window>)
    requires Distinct(known)
    ensures Distinct(known + NewApps(known, windows))
    decreases |windows|
  {
    if windows != [] {
      var pre := windows[..|windows| - 1];
      NewAppsFresh(known, pre);
      var k := known + NewApps(known, pre);
      var c := windows[|windows| - 1].initialClass;
      if Visible(windows[|windows| - 1]) && c != "" && c !in k {
        assert known + NewApps(known, windows) == k + [c];
      }
    }
  }

  /** Putting an id not yet present in front of distinct ids keeps them distinct. */
  lemma DistinctCons(a: string, t: seq<string>)
    requires Distinct(t) && a !in t
    ensures Distinct([a] + t)
  {
    var s := [a] + t;
    forall i, j | 0 <= i < j < |s|
      ensures s[i] != s[j]
    {
      assert s[j] == t[j - 1];
      if i == 0 {
        assert t[j - 1] in t;
      } else {
        assert s[i] == t[i - 1];
      }
    }
  }

  /** The head's id of a list with distinct ids is not among the tail's, and the tail's ids are distinct. */
  lemma DistinctHead(items: seq<DockItem>)
    requires items != [] && Distinct(AppIds(items))
    ensures items[0].appId !in AppIds(items[1..]) && Distinct(AppIds(items[1..]))
  {
    var ids, tail := AppIds(items), AppIds(items[1..]);
    assert ids == [items[0].appId] + tail;
    forall j | 0 <= j < |tail|
      ensures tail[j] != items[0].appId
    {
      assert ids[0] != ids[j + 1];
    }
    forall i, j | 0 <= i < j < |tail|
      ensures tail[i] != tail[j]
    {
      assert ids[i + 1] != ids[j + 1];
    }
  }

  /** Filtering never brings in an id that was not there. */
  lemma FilterIdsWithin(items: seq<DockItem>, keep: DockItem -> bool, a: string)
    requires a !in AppIds(items)
    ensures a !in AppIds(Seqs.Filter(items, keep))
  {
    var g := Seqs.Filter(items, keep);
    forall j | 0 <= j < |g|
      ensures AppIds(g)[j] != a
    {
      assert g[j] in items;
      var k :| 0 <= k < |items| && items[k] == g[j];
      assert AppIds(items)[k] == AppIds(g)[j];
    }
  }

  /** `erase_if` keeps distinct app ids distinct. */
  lemma {:induction false} FilterKeepsDistinct(items: seq<DockItem>, keep: DockItem -> bool)
    requires Distinct(AppIds(items))
    ensures Distinct(AppIds(Seqs.Filter(items, keep)))
  {
    if items != [] {
      var rest := items[1..];
      var g := Seqs.Filter(rest, keep);
      DistinctHead(items);
      FilterKeepsDistinct(rest, keep);
      if keep(items[0]) {
        FilterIdsWithin(rest, keep, items[0].appId);
        assert Seqs.Filter(items, keep) == [items[0]] + g;
        assert AppIds([items[0]] + g) == [items[0].appId] + AppIds(g);
        DistinctCons(items[0].appId, AppIds(g));
      } else {
        assert Seqs.Filter(items, keep) == g;
      }
    }
  }

  /** A rebuild never introduces two items for one application. */
  lemma RebuildKeepsDistinct(items: seq<DockItem>, windows: seq<Window>, focus: Option<WindowId>)
    requires Distinct(AppIds(items))
    ensures Distinct(AppIds(Rebuild(items, windows, focus)))
  {
    var reset := ResetFlags(items);
    assert AppIds(reset) == AppIds(items);
    AddWindowsOrder(reset, windows, focus);
    NewAppsFresh(AppIds(items), windows);
    FilterKeepsDistinct(AddWindows(reset, windows, focus), Keep);
  }

  /** A rebuild of position-less items leaves every item without a position, so no click ever hits an icon. */
  lemma RebuildUnpositioned(items: seq<DockItem>, windows: seq<Window>, focus: Option<WindowId>)
    requires forall i :: 0 <= i < |items| ==> items[i].position.None?
    ensures forall it :: it in Rebuild(items, windows, focus) ==> it.position.None?
  {
    var reset := ResetFlags(items);
    AddWindowsShape(reset, windows, focus);
    var added := AddWindows(reset, windows, focus);
    forall it | it in Rebuild(items, windows, focus)
      ensures it.position.None?
    {
      var i :| 0 <= i < |added| && added[i] == it;
      if i < |reset| {
        assert Raised(reset[i], added[i]);
      }
    }
  }

  // ---------------------------------------------------------------------
  // Auto-hide
  // ---------------------------------------------------------------------

  /** The auto-hide timer: whether it is running and when it started (`m_bAutoHideActive`, `m_lastHoverTime`). */
  datatype AutoHide = AutoHide(active: bool, since: int)

  datatype HideStep = HideStep(next: AutoHide, hidden: bool)

  /** How long the dock stays up after the pointer leaves it, in milliseconds. */
  const HideDelay: int := 1500

  /**
   * One frame of the auto-hide logic in `renderPass` at time `now`: while
   * auto-hide is on and the dock is not hovered the timer starts (once) and
   * the dock hides after `HideDelay`; otherwise the timer stops.
   */
  function AutoHideStep(s: AutoHide, autoHide: bool, hovered: bool, now: int): (r: HideStep)
    ensures r.hidden <==> autoHide && !hovered && s.active && now - s.since > HideDelay
    ensures r.next.active <==> autoHide && !hovered
    ensures autoHide && !hovered && !s.active ==> r.next.since == now
    ensures s.active || !(autoHide && !hovered) ==> r.next.since == s.since
  {
    if autoHide && !hovered then
      var n := if s.active then s else AutoHide(true, now);
      HideStep(n, now - n.since > HideDelay)
    else
      HideStep(s.(active := false), false)
  }

  /** Once hidden, the dock stays hidden on every later frame while it is not hovered. */
  lemma HiddenStaysHidden(s: AutoHide, t1: int, t2: int)
    requires AutoHideStep(s, true, false, t1).hidden && t1 <= t2
    ensures AutoHideStep(AutoHideStep(s, true, false, t1).next, true, false, t2).hidden
  {
  }

  /**
   * Hovering stops the timer; the first frame without hover restarts it, and
   * the dock then hides exactly on frames more than `HideDelay` later.
   */
  lemma HoverRestartsTimer(s: AutoHide, enabled: bool, tHover: int, t0: int, t1: int)
    requires t0 <= t1
    ensures var afterHover := AutoHideStep(s, enabled, true, tHover);
            var leave := AutoHideStep(afterHover.next, true, false, t0);
            && !afterHover.hidden && !leave.hidden
            && (AutoHideStep(leave.next, true, false, t1).hidden <==> t1 - t0 > HideDelay)
  {
  }

  // ---------------------------------------------------------------------
  // Shared state and the dock surface
  // ---------------------------------------------------------------------

  /** `SGlobalState`: the weak dock reference, the shared item list and the hover flag. */
  class GlobalState {
    var dock: Dock?
    var items: seq<DockItem>
    var dockHovered: bool

    constructor ()
      ensures dock == null && items == [] && !dockHovered
    {
      dock := null;
      items := [];
      dockHovered := false;
    }
  }

  /** `CLiquidDock`: the dock surface's own state. */
  class Dock {
    const state: GlobalState
    var autoHideActive: bool
    var lastHoverTime: int
    var cursorX: real
    var cursorY: real
    var itemsDirty: bool

    /** The constructor rebuilds and lays out the items once; the dirty flag starts set all the same. */
    constructor (state: GlobalState, cfg: DockConfig, monitors: seq<Monitor>, windows: seq<Window>,
                 focus: Option<WindowId>, now: int)
      modifies state`items
      ensures this.state == state
      ensures !autoHideActive && lastHoverTime == now && cursorX == -1.0 && cursorY == -1.0 && itemsDirty
      ensures var rebuilt := Rebuild(old(state.items), windows, focus);
              state.items == Layout(rebuilt, DockBox(cfg, monitors, |rebuilt|), cfg)
    {
      this.state := state;
      autoHideActive := false;
      lastHoverTime := now;
      cursorX, cursorY := -1.0, -1.0;
      itemsDirty := true;
      new;
      RebuildDockItems(windows, focus);
      LayoutIcons(cfg, monitors);
    }

    /** `rebuildDockItems`, editing the shared item list. */
    method RebuildDockItems(windows: seq<Window>, focus: Option<WindowId>)
      modifies state`items
      ensures state.items == Rebuild(old(state.items), windows, focus)
    {
      var items := state.items;
      for i := 0 to |items|
        invariant |items| == |state.items|
        invariant forall j :: 0 <= j < i ==> items[j] == ResetItem(state.items[j])
        invariant forall j :: i <= j < |items| ==> items[j] == state.items[j]
      {
        var it := items[i];
        if !it.pinned {
          it := it.(running := false);
        }
        items := items[i := it.(focused := false)];
      }
      assert items == ResetFlags(state.items);
      ghost var reset := items;
      for k := 0 to |windows|
        invariant items == AddWindows(reset, windows[..k], focus)
      {
        var w := windows[k];
        assert windows[..k + 1][..k] == windows[..k];
        if !w.hidden && w.mapped && w.initialClass != "" {
          var found := IndexOfApp(items, w.initialClass);
          if found.Some? {
            var j := found.value;
            items := items[j := items[j].(running := true)];
            if focus == Some(w.id) {
              items := items[j := items[j].(focused := true)];
            }
          } else {
            items := items + [NewItem(w, focus)];
          }
        }
      }
      assert windows[..|windows|] == windows;
      state.items := Seqs.Filter(items, Keep);
    }

    /** `layoutIcons`: give every icon its slot in the current dock box. */
    method LayoutIcons(cfg: DockConfig, monitors: seq<Monitor>)
      modifies state`items
      ensures state.items == Layout(old(state.items), DockBox(cfg, monitors, |old(state.items)|), cfg)
    {
      var box := DockBox(cfg, monitors, |state.items|);
      var items := state.items;
      for i := 0 to |items|
        invariant |items| == |state.items|
        invariant forall j :: 0 <= j < i ==> items[j] == Place(state.items[j], box, cfg, j)
        invariant forall j :: i <= j < |items| ==> items[j] == state.items[j]
      {
        var it := items[i];
        if it.position.Some? {
          it := it.(position := Some(IconCenter(box, cfg, i)));
        }
        if it.size.Some? {
          it := it.(size := Some(Vec2(cfg.iconSize as real, cfg.iconSize as real)));
        }
        if it.scale.Some? {
          it := it.(scale := Some(1.0));
        }
        if it.alpha.Some? {
          it := it.(alpha := Some(1.0));
        }
        items := items[i := it];
      }
      assert items == Layout(state.items, box, cfg);
      state.items := items;
    }

    /** `hitTestIcon`: the first icon whose magnified square contains `coords`, or -1. */
    method HitTestIcon(cfg: DockConfig, coords: Vec2) returns (idx: int)
      ensures idx == -1 || 0 <= idx < |state.items|
      ensures idx >= 0 ==> IconHit(state.items, cfg, cursorX, idx, coords)
      ensures forall j :: 0 <= j < |state.items| && (idx == -1 || j < idx) ==> !IconHit(state.items, cfg, cursorX, j, coords)
      ensures idx == FirstHit(state.items, cfg, cursorX, coords, 0)
    {
      var items := state.items;
      for i := 0 to |items|
        invariant forall j :: 0 <= j < i ==> !IconHit(items, cfg, cursorX, j, coords)
      {
        if items[i].position.Some? {
          var pos := items[i].position.value;
          var scaledHalf := ScaledHalf(items, cfg, cursorX, i);
          if coords.x >= pos.x - scaledHalf && coords.x <= pos.x + scaledHalf &&
             coords.y >= pos.y - scaledHalf && coords.y <= pos.y + scaledHalf {
            assert IconHit(items, cfg, cursorX, i, coords);
            FirstHitAt(items, cfg, cursorX, coords, 0, i);
            return i;
          }
        }
      }
      FirstHitAt(items, cfg, cursorX, coords, 0, |items|);
      return -1;
    }

    /**
     * `onMouseButton`, with the pointer at `coords`. Inside the dock box a
     * left press on an icon launches it and a right press flips its pin;
     * unpinning an item that is not running marks the list dirty. Returns
     * whether the event was consumed and the launch to perform.
     */
    method OnMouseButton(cfg: DockConfig, monitors: seq<Monitor>, windows: seq<Window>, e: ButtonEvent, coords: Vec2)
      returns (cancel: bool, launch: Option<Launch>)
      modifies state`items, this`itemsDirty
      ensures var hit := FirstHit(old(state.items), cfg, cursorX, coords, 0);
              cancel <==> Contains(DockBox(cfg, monitors, |old(state.items)|), coords) && e.pressed
                          && e.button != OtherButton && hit >= 0
      ensures var hit := FirstHit(old(state.items), cfg, cursorX, coords, 0);
              launch == (if cancel && e.button == Left then LaunchAction(old(state.items)[hit], windows) else None)
      ensures var hit := FirstHit(old(state.items), cfg, cursorX, coords, 0);
              state.items == (if cancel && e.button == Right then TogglePin(old(state.items), hit) else old(state.items))
      ensures var hit := FirstHit(old(state.items), cfg, cursorX, coords, 0);
              itemsDirty == (old(itemsDirty) || (cancel && e.button == Right && old(state.items)[hit].pinned
                                                  && !old(state.items)[hit].running))
    {
      cancel, launch := false, None;
      var box := DockBox(cfg, monitors, |state.items|);
      if !Contains(box, coords) {
        return;
      }
      if e.pressed && e.button == Left {
        var idx := HitTestIcon(cfg, coords);
        if idx >= 0 {
          cancel := true;
          launch := LaunchAction(state.items[idx], windows);
        }
      } else if e.pressed && e.button == Right {
        var idx := HitTestIcon(cfg, coords);
        if idx >= 0 {
          cancel := true;
          var item := state.items[idx];
          if item.pinned {
            item := item.(pinned := false);
            if !item.running {
              itemsDirty := true;
            }
          } else {
            item := item.(pinned := true);
          }
          state.items := state.items[idx := item];
        }
      }
    }

    /**
     * `onMouseMove`: remember the cursor and set the hover flag to whether the
     * dock box contains it. Returns whether the dock must be redrawn: when the
     * hover flag changed or while the dock is hovered.
     */
    method OnMouseMove(cfg: DockConfig, monitors: seq<Monitor>, coords: Vec2) returns (damage: bool)
      modifies this`cursorX, this`cursorY, state`dockHovered
      ensures cursorX == coords.x && cursorY == coords.y
      ensures state.dockHovered == Contains(DockBox(cfg, monitors, |state.items|), coords)
      ensures damage == (old(state.dockHovered) != state.dockHovered || state.dockHovered)
    {
      var box := DockBox(cfg, monitors, |state.items|);
      cursorX := coords.x;
      cursorY := coords.y;
      var wasHovered := state.dockHovered;
      state.dockHovered := Contains(box, coords);
      damage := wasHovered != state.dockHovered || state.dockHovered;
    }

    /** `onWindowOpen`, `onWindowClose` and `onWindowFocus`: any window change marks the item list dirty. */
    method OnWindowEvent()
      modifies this`itemsDirty
      ensures itemsDirty
    {
      itemsDirty := true;
    }

    /**
     * `renderPass` for `monitor` at time `now`: nothing unless the dock is
     * enabled and `monitor` is its target; then the auto-hide step, which may
     * skip the frame; then, when the list is dirty, a rebuild and layout that
     * clear the flag. Returns whether the dock is drawn.
     */
    method RenderPass(cfg: DockConfig, monitors: seq<Monitor>, monitor: Monitor, windows: seq<Window>,
                      focus: Option<WindowId>, now: int) returns (drawn: bool)
      modifies this`autoHideActive, this`lastHoverTime, this`itemsDirty, state`items
      ensures !cfg.enabled || TargetMonitor(cfg.monitor, monitors) != Some(monitor) ==>
        !drawn && unchanged(this) && state.items == old(state.items)
      ensures cfg.enabled && TargetMonitor(cfg.monitor, monitors) == Some(monitor) ==>
        var step := AutoHideStep(AutoHide(old(autoHideActive), old(lastHoverTime)), cfg.autoHide, state.dockHovered, now);
        && autoHideActive == step.next.active && lastHoverTime == step.next.since
        && drawn == !step.hidden
      ensures drawn ==> !itemsDirty
      ensures drawn && old(itemsDirty) ==>
        var rebuilt := Rebuild(old(state.items), windows, focus);
        state.items == Layout(rebuilt, DockBox(cfg, monitors, |rebuilt|), cfg)
      ensures !(drawn && old(itemsDirty)) ==> state.items == old(state.items) && itemsDirty == old(itemsDirty)
    {
      if !cfg.enabled {
        return false;
      }
      var target := TargetMonitor(cfg.monitor, monitors);
      if target.None? || target.value != monitor {
        return false;
      }
      if cfg.autoHide && !state.dockHovered {
        if !autoHideActive {
          autoHideActive := true;
          lastHoverTime := now;
        }
        if now - lastHoverTime > HideDelay {
          return false;
        }
      } else {
        autoHideActive := false;
      }
      if itemsDirty {
        RebuildDockItems(windows, focus);
        LayoutIcons(cfg, monitors);
        itemsDirty := false;
      }
      return true;
    }
  }

  /** The right-click pin toggle on item `k`: only its `pinned` flag flips. */
  function TogglePin(items: seq<DockItem>, k: int): (r: seq<DockItem>)
    requires 0 <= k < |items|
    ensures |r| == |items| && r[k].pinned == !items[k].pinned
    ensures r[k] == items[k].(pinned := r[k].pinned)
    ensures forall j :: 0 <= j < |items| && j != k ==> r[j] == items[j]
  {
    items[k := items[k].(pinned := !items[k].pinned)]
  }

  /** Flipping the same pin twice restores the list. */
  lemma TogglePinTwice(items: seq<DockItem>, k: int)
    requires 0 <= k < |items|
    ensures TogglePin(TogglePin(items, k), k) == items
  {
  }
}
