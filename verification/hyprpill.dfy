/**
 * The hyprpill window decoration: a pill-shaped grab handle drawn above a
 * window. Its looks animate between four visual states, and pressing and
 * moving it drags the window. One process-wide slot records which pill owns
 * the drag in progress.
 */
module HyprPill {
  import opened Wrappers
  import opened Geometry
  import Seqs

  type PillId = nat

  datatype VisualState = Inactive | Active | Hovered | Pressed

  /** An RGBA colour, each channel a float in [0, 1]. */
  datatype Color = Color(r: real, g: real, b: real, a: real)

  /** The animated fields of a pill (`m_width` ... `m_color`, and their `m_from*` origins). */
  datatype Looks = Looks(width: real, height: real, radius: real, opacity: real, offsetY: real, color: Color)

  /** The `plugin:hyprpill:*` configuration values the core reads, colours already decoded. */
  datatype PillConfig = PillConfig(
    enabled: bool,
    width: int, height: int, radius: int,
    widthInactive: int, heightInactive: int, radiusInactive: int,
    widthHover: int, heightHover: int,
    colorActive: Color, colorInactive: Color, colorHover: Color, colorPressed: Color,
    opacityActive: real, opacityInactive: real,
    offsetYActive: int, offsetYInactive: int,
    durationHover: int, durationPress: int,
    hoverHitboxWidth: int, hoverHitboxHeight: int, hoverHitboxOffsetY: int,
    clickHitboxWidth: int, clickHitboxHeight: int, clickHitboxOffsetY: int)

  /** What the compositor reports about the pill's window when an event arrives. */
  datatype OwnerWindow = OwnerWindow(
    alive: bool,      // the weak reference still resolves
    mapped: bool,
    floating: bool,
    focused: bool,    // the focus state's window is this window
    origin: Vec2)     // real position plus floating offset

  /** The compositor conditions `inputIsValid` checks besides the pill's own flags. */
  datatype InputHost = InputHost(workspaceVisible: bool, exclusiveLayer: bool, seatGrabRejects: bool)

  /** The monitor touch coordinates are relative to. */
  datatype Monitor = Monitor(position: Vec2, size: Vec2)

  /**
   * Everything an event handler reads from outside the pill: the assigned
   * decoration box (already translated to global coordinates and by the
   * workspace render offset), the window, the input conditions, the monitor
   * and the configuration.
   */
  datatype Scene = Scene(slot: Box, window: OwnerWindow, host: InputHost, monitor: Monitor, cfg: PillConfig)

  /** Side effects on the compositor, in the order the source issues them. */
  datatype Effect =
    | FocusWindow            // fullWindowFocus on the pill's window
    | RaiseWindow            // changeWindowZOrder(window, top)
    | SetFloating            // dispatch setfloating activewindow
    | ResizeHalf             // dispatch resizewindowpixel exact 50% 50%,activewindow
    | PinWindow              // dispatch pin activewindow
    | MoveWindowPixel(x: int, y: int)  // dispatch movewindowpixel exact x y,activewindow
    | SetTiled               // dispatch settiled activewindow

  function Max(a: int, b: int): int
  {
    if a < b then b else a
  }

  predicate Between(r: real, a: real, b: real)
  {
    (a <= r <= b) || (b <= r <= a)
  }

  // ---------------------------------------------------------------------------
  // Interpolation and easing
  // ---------------------------------------------------------------------------

  /** `lerpf`: the point a fraction `t` of the way from `a` to `b`. */
  function Lerp(a: real, b: real, t: real): real
  {
    a + (b - a) * t
  }

  lemma LerpUpRange(a: real, b: real, t: real)
    requires a <= b && 0.0 <= t <= 1.0
    ensures a <= Lerp(a, b, t) <= b
  {
    MulNonNeg(b - a, t);
    MulNonNeg(b - a, 1.0 - t);
  }

  lemma LerpDownRange(a: real, b: real, t: real)
    requires b <= a && 0.0 <= t <= 1.0
    ensures b <= Lerp(a, b, t) <= a
  {
    MulNonNeg(a - b, t);
    MulNonNeg(a - b, 1.0 - t);
  }

  /** Interpolation hits both end points and, for a fraction in [0, 1], never leaves the segment between them. */
  lemma LerpRange(a: real, b: real, t: real)
    ensures t == 0.0 ==> Lerp(a, b, t) == a
    ensures t == 1.0 ==> Lerp(a, b, t) == b
    ensures 0.0 <= t <= 1.0 ==> Between(Lerp(a, b, t), a, b)
  {
    if 0.0 <= t <= 1.0 {
      if a <= b {
        LerpUpRange(a, b, t);
      } else {
        LerpDownRange(a, b, t);
      }
    }
  }

  /** Interpolating with a growing fraction in [0, 1] moves monotonically from `a` toward `b`. */
  lemma LerpMonotone(a: real, b: real, x1: real, x2: real)
    requires 0.0 <= x1 <= x2 <= 1.0
    ensures a <= b ==> a <= Lerp(a, b, x1) <= Lerp(a, b, x2) <= b
    ensures b <= a ==> b <= Lerp(a, b, x2) <= Lerp(a, b, x1) <= a
  {
    if a <= b {
      MulNonNeg(b - a, x2 - x1);
      LerpUpRange(a, b, x1);
      LerpUpRange(a, b, x2);
    }
    if b <= a {
      MulNonNeg(a - b, x2 - x1);
      LerpDownRange(a, b, x1);
      LerpDownRange(a, b, x2);
    }
  }

  /** `lerpColor`: each channel interpolated on its own. */
  function LerpColor(a: Color, b: Color, t: real): (c: Color)
    ensures c.r == Lerp(a.r, b.r, t) && c.g == Lerp(a.g, b.g, t)
    ensures c.b == Lerp(a.b, b.b, t) && c.a == Lerp(a.a, b.a, t)
    ensures t == 0.0 ==> c == a
    ensures t == 1.0 ==> c == b
  {
    LerpRange(a.r, b.r, t);
    LerpRange(a.g, b.g, t);
    LerpRange(a.b, b.b, t);
    LerpRange(a.a, b.a, t);
    Color(Lerp(a.r, b.r, t), Lerp(a.g, b.g, t), Lerp(a.b, b.b, t), Lerp(a.a, b.a, t))
  }

  /** `easeInOut`: quadratic ease-in for the first half, mirrored ease-out for the second. */
  function EaseInOut(t: real): (e: real)
    ensures t == 0.0 ==> e == 0.0
    ensures t == 0.5 ==> e == 0.5
    ensures t == 1.0 ==> e == 1.0
    ensures 0.0 <= t <= 1.0 ==> 0.0 <= e <= 1.0
  {
    if t < 0.5 then
      if 0.0 <= t then EaseInRange(t); 2.0 * t * t else 2.0 * t * t
    else
      var u := -2.0 * t + 2.0;
      if t <= 1.0 then EaseOutRange(t); 1.0 - u * u * 0.5 else 1.0 - u * u * 0.5
  }

  /** The ease-in half stays within [0, 1/2]. */
  lemma EaseInRange(t: real)
    requires 0.0 <= t < 0.5
    ensures 0.0 <= 2.0 * t * t <= 0.5
  {
    MulNonNeg(t, t);
    MulNonNeg(t, 0.5 - t);
    assert t * (0.5 - t) == 0.5 * t - t * t;
    assert 2.0 * t * t == 2.0 * (t * t);
  }

  /** The ease-out half stays within [1/2, 1]. */
  lemma EaseOutRange(t: real)
    requires 0.5 <= t <= 1.0
    ensures 0.5 <= 1.0 - (-2.0 * t + 2.0) * (-2.0 * t + 2.0) * 0.5 <= 1.0
  {
    var u := -2.0 * t + 2.0;
    MulNonNeg(u, u);
    MulNonNeg(u, 1.0 - u);
  }

  /** The eased progress never moves backwards as time advances. */
  lemma EaseMonotone(s: real, t: real)
    requires 0.0 <= s <= t <= 1.0
    ensures EaseInOut(s) <= EaseInOut(t)
  {
    if t < 0.5 {
      MulNonNeg(s + t, t - s);
    } else if s >= 0.5 {
      MulNonNeg((-2.0 * s + 2.0) + (-2.0 * t + 2.0), 2.0 * t - 2.0 * s);
    } else {
      EaseInRange(s);
      EaseOutRange(t);
    }
  }

  /** The curve is point-symmetric about (1/2, 1/2). */
  lemma EaseSymmetric(t: real)
    requires 0.0 <= t <= 1.0
    ensures EaseInOut(1.0 - t) == 1.0 - EaseInOut(t)
  {
    if t < 0.5 {
      var u := -2.0 * (1.0 - t) + 2.0;
      assert u == 2.0 * t;
      assert u * u * 0.5 == 2.0 * t * t;
    } else if t > 0.5 {
      var u := -2.0 * t + 2.0;
      assert u == 2.0 * (1.0 - t);
      assert u * u * 0.5 == 2.0 * (1.0 - t) * (1.0 - t);
    }
  }

  // ---------------------------------------------------------------------------
  // Visual state
  // ---------------------------------------------------------------------------

  /** The state a pill should show, by priority: pressed, hovered, active, inactive. */
  function TargetState(dragPending: bool, dragging: bool, hovered: bool, focused: bool): (s: VisualState)
    ensures s == Pressed <==> dragPending || dragging
    ensures s == Hovered <==> !dragPending && !dragging && hovered
    ensures s == Active <==> !dragPending && !dragging && !hovered && focused
    ensures s == Inactive <==> !dragPending && !dragging && !hovered && !focused
  {
    if dragPending || dragging then Pressed
    else if hovered then Hovered
    else if focused then Active
    else Inactive
  }

  /** The transition length in milliseconds: the press duration for PRESSED, the hover duration otherwise, never below 1. */
  function Duration(s: VisualState, cfg: PillConfig): (d: int)
    ensures d >= 1
    ensures s == Pressed ==> d == Max(1, cfg.durationPress)
    ensures s != Pressed ==> d == Max(1, cfg.durationHover)
  {
    if s == Pressed then Max(1, cfg.durationPress) else Max(1, cfg.durationHover)
  }

  /** Dividing by a positive number preserves order, strictly and not. */
  lemma DivMonotone(x: real, y: real, d: real)
    requires 0.0 < d
    ensures x <= y ==> x / d <= y / d
    ensures x < y ==> x / d < y / d
  {
    var qx, qy := x / d, y / d;
    assert qx * d == x;
    assert qy * d == y;
    if qy <= qx {
      MulNonNeg(qx - qy, d);
      assert (qx - qy) * d == x - y;
    }
  }

  /** Linear progress of a transition: elapsed over duration, clamped to [0, 1]. */
  function Progress(elapsed: int, duration: int): (t: real)
    requires duration >= 1
    ensures 0.0 <= t <= 1.0
    ensures elapsed >= duration ==> t == 1.0
    ensures elapsed <= 0 ==> t == 0.0
    ensures 0 < elapsed < duration ==> 0.0 < t < 1.0
  {
    var d := duration as real;
    var q := elapsed as real / d;
    DivMonotone(0.0, elapsed as real, d);
    DivMonotone(elapsed as real, 0.0, d);
    DivMonotone(elapsed as real, d, d);
    DivMonotone(d, elapsed as real, d);
    assert 0.0 / d == 0.0 && d / d == 1.0;
    if q < 0.0 then 0.0 else if q > 1.0 then 1.0 else q
  }

  /** Progress never decreases as time advances. */
  lemma ProgressMonotone(e1: int, e2: int, duration: int)
    requires duration >= 1 && e1 <= e2
    ensures Progress(e1, duration) <= Progress(e2, duration)
  {
    DivMonotone(e1 as real, e2 as real, duration as real);
  }

  /**
   * The interpolation origin taken on a state change: the current values,
   * except that a width, height or radius that is not yet positive falls back
   * to the configured active value.
   */
  function Snapshot(cur: Looks, cfg: PillConfig): (o: Looks)
    ensures cur.width > 0.0 ==> o.width == cur.width
    ensures cur.width <= 0.0 ==> o.width == cfg.width as real
    ensures cur.height > 0.0 ==> o.height == cur.height
    ensures cur.height <= 0.0 ==> o.height == cfg.height as real
    ensures cur.radius > 0.0 ==> o.radius == cur.radius
    ensures cur.radius <= 0.0 ==> o.radius == cfg.radius as real
    ensures o.opacity == cur.opacity && o.offsetY == cur.offsetY && o.color == cur.color
  {
    cur.(width := if cur.width > 0.0 then cur.width else cfg.width as real,
         height := if cur.height > 0.0 then cur.height else cfg.height as real,
         radius := if cur.radius > 0.0 then cur.radius else cfg.radius as real)
  }

  /**
   * The looks a state animates toward. Radius and vertical offset follow
   * focus alone; HOVERED and PRESSED take the hover size, HOVERED the active
   * opacity and PRESSED full opacity.
   */
  function Destination(s: VisualState, focused: bool, cfg: PillConfig): (d: Looks)
    ensures s == Hovered || s == Pressed ==> d.width == cfg.widthHover as real && d.height == cfg.heightHover as real
    ensures s == Hovered ==> d.opacity == cfg.opacityActive && d.color == cfg.colorHover
    ensures s == Pressed ==> d.opacity == 1.0 && d.color == cfg.colorPressed
    ensures (s == Active || s == Inactive) && focused ==>
      d == Looks(cfg.width as real, cfg.height as real, cfg.radius as real, cfg.opacityActive, cfg.offsetYActive as real, cfg.colorActive)
    ensures (s == Active || s == Inactive) && !focused ==>
      d == Looks(cfg.widthInactive as real, cfg.heightInactive as real, cfg.radiusInactive as real,
                 cfg.opacityInactive, cfg.offsetYInactive as real, cfg.colorInactive)
    ensures d.radius == (if focused then cfg.radius else cfg.radiusInactive) as real
    ensures d.offsetY == (if focused then cfg.offsetYActive else cfg.offsetYInactive) as real
  {
    var base := if focused
      then Looks(cfg.width as real, cfg.height as real, cfg.radius as real, cfg.opacityActive, cfg.offsetYActive as real, cfg.colorActive)
      else Looks(cfg.widthInactive as real, cfg.heightInactive as real, cfg.radiusInactive as real,
                 cfg.opacityInactive, cfg.offsetYInactive as real, cfg.colorInactive);
    match s
    case Hovered => base.(width := cfg.widthHover as real, height := cfg.heightHover as real,
                          color := cfg.colorHover, opacity := cfg.opacityActive)
    case Pressed => base.(width := cfg.widthHover as real, height := cfg.heightHover as real,
                          color := cfg.colorPressed, opacity := 1.0)
    case _ => base
  }

  /** Every animated field interpolated from `o` toward `d` by eased progress `e`. */
  function Animate(o: Looks, d: Looks, e: real): (r: Looks)
    ensures e == 0.0 ==> r == o
    ensures e == 1.0 ==> r == d
    ensures 0.0 <= e <= 1.0 ==>
      Between(r.width, o.width, d.width) && Between(r.height, o.height, d.height) &&
      Between(r.radius, o.radius, d.radius) && Between(r.opacity, o.opacity, d.opacity) &&
      Between(r.offsetY, o.offsetY, d.offsetY)
  {
    LerpRange(o.width, d.width, e);
    LerpRange(o.height, d.height, e);
    LerpRange(o.radius, d.radius, e);
    LerpRange(o.opacity, d.opacity, e);
    LerpRange(o.offsetY, d.offsetY, e);
    Looks(Lerp(o.width, d.width, e), Lerp(o.height, d.height, e), Lerp(o.radius, d.radius, e),
          Lerp(o.opacity, d.opacity, e), Lerp(o.offsetY, d.offsetY, e), LerpColor(o.color, d.color, e))
  }

  /** The looks shown `elapsed` milliseconds into a transition from `o` to `d`. */
  function LooksAt(o: Looks, d: Looks, elapsed: int, duration: int): Looks
    requires duration >= 1
  {
    Animate(o, d, EaseInOut(Progress(elapsed, duration)))
  }

  /** At the start of a transition the looks are exactly its origin. */
  lemma Departs(o: Looks, d: Looks, duration: int)
    requires duration >= 1
    ensures LooksAt(o, d, 0, duration) == o
  {
  }

  /** Once the duration has elapsed, every field equals its destination exactly. */
  lemma Arrives(o: Looks, d: Looks, elapsed: int, duration: int)
    requires duration >= 1 && elapsed >= duration
    ensures LooksAt(o, d, elapsed, duration) == d
  {
  }

  /** As time advances, the width never moves away from its destination (no overshoot, no reversal). */
  lemma ConvergesMonotonically(o: Looks, d: Looks, e1: int, e2: int, duration: int)
    requires duration >= 1 && e1 <= e2
    ensures var w1, w2 := LooksAt(o, d, e1, duration).width, LooksAt(o, d, e2, duration).width;
      (o.width <= d.width ==> o.width <= w1 <= w2 <= d.width) && (d.width <= o.width ==> d.width <= w2 <= w1 <= o.width)
  {
    var t1, t2 := Progress(e1, duration), Progress(e2, duration);
    ProgressMonotone(e1, e2, duration);
    EaseMonotone(t1, t2);
    LerpMonotone(o.width, d.width, EaseInOut(t1), EaseInOut(t2));
  }

  /** The worked example: INACTIVE width 96 toward HOVERED width 120 over 140 ms is at 108 after 70 ms. */
  lemma HoverWidthAtMidpoint()
    ensures Lerp(96.0, 120.0, EaseInOut(Progress(70, 140))) == 108.0
  {
  }

  // ---------------------------------------------------------------------------
  // Boxes
  // ---------------------------------------------------------------------------

  predicate Integral(x: real)
  {
    x == x.Floor as real
  }

  /**
   * `visibleBoxGlobal`: the pill's box, centred horizontally on the slot and
   * sitting `offsetY` above the slot's top edge. The width is the animated
   * width once it exceeds 1 and the configured width before that.
   */
  function VisibleBox(slot: Box, cfgWidth: int, cur: Looks): Box
  {
    var centerX := slot.x + slot.w / 2.0;
    var w := Max(1, Round(if cur.width > 1.0 then cur.width else cfgWidth as real));
    var h := Max(1, Round(cur.height));
    var x := Round(centerX - w as real / 2.0);
    var y := Round(slot.y - h as real - cur.offsetY);
    Box(x as real, y as real, w as real, h as real)
  }

  /**
   * The pill's box is at least one pixel each way, lies on whole pixels, is
   * centred on the slot to within half a pixel and ends, to within half a
   * pixel, `offsetY` above the slot.
   */
  lemma VisibleBoxShape(slot: Box, cfgWidth: int, cur: Looks)
    ensures var b := VisibleBox(slot, cfgWidth, cur);
      && b.w >= 1.0 && b.h >= 1.0
      && Integral(b.x) && Integral(b.y) && Integral(b.w) && Integral(b.h)
      && -0.5 <= (b.x + b.w / 2.0) - (slot.x + slot.w / 2.0) <= 0.5
      && (cur.width > 1.0 ==> b.w == Round(cur.width) as real)
      && (cur.width <= 1.0 && cfgWidth >= 1 ==> b.w == cfgWidth as real)
      && -0.5 <= (b.y + b.h) - (slot.y - cur.offsetY) <= 0.5
  {
    RoundInteger(cfgWidth);
  }

  /** A hitbox: the box widened by `padW` and heightened by `padH` on each side, then shifted down by `offY`. */
  function Hitbox(v: Box, padW: int, padH: int, offY: int): Box
  {
    Box(v.x - padW as real, Round(v.y - padH as real + offY as real) as real,
        v.w + (padW * 2) as real, v.h + (padH * 2) as real)
  }

  /** A hitbox keeps the box's horizontal centre, grows by twice the padding, and is shifted by exactly `offY` from the padded box. */
  lemma HitboxShape(v: Box, padW: int, padH: int, offY: int)
    ensures var b := Hitbox(v, padW, padH, offY);
      && b.w == v.w + 2.0 * padW as real && b.h == v.h + 2.0 * padH as real
      && b.x + b.w / 2.0 == v.x + v.w / 2.0
      && (Integral(v.y) ==> b.y == v.y - padH as real + offY as real)
  {
    RoundInteger(v.y.Floor - padH + offY);
  }

  /** `hoverHitboxGlobal`. */
  function HoverHitbox(slot: Box, cfg: PillConfig, cur: Looks): Box
  {
    Hitbox(VisibleBox(slot, cfg.width, cur), cfg.hoverHitboxWidth, cfg.hoverHitboxHeight, cfg.hoverHitboxOffsetY)
  }

  /** `clickHitboxGlobal`. */
  function ClickHitbox(slot: Box, cfg: PillConfig, cur: Looks): Box
  {
    Hitbox(VisibleBox(slot, cfg.width, cur), cfg.clickHitboxWidth, cfg.clickHitboxHeight, cfg.clickHitboxOffsetY)
  }

  /** With non-negative padding and an offset no larger than the vertical padding, every point of the pill is inside its hitbox. */
  lemma HitboxCoversPill(slot: Box, cfgWidth: int, cur: Looks, padW: int, padH: int, offY: int, p: Vec2)
    requires 0 <= padW && -padH <= offY <= padH
    requires Contains(VisibleBox(slot, cfgWidth, cur), p)
    ensures Contains(Hitbox(VisibleBox(slot, cfgWidth, cur), padW, padH, offY), p)
  {
    VisibleBoxShape(slot, cfgWidth, cur);
    HitboxShape(VisibleBox(slot, cfgWidth, cur), padW, padH, offY);
  }

  /** Touch positions arrive normalised to the monitor; this is their global position. */
  function TouchToGlobal(m: Monitor, pos: Vec2): Vec2
  {
    Vec2(m.position.x + pos.x * m.size.x, m.position.y + pos.y * m.size.y)
  }

  predicate ValidMapped(w: OwnerWindow)
  {
    w.alive && w.mapped
  }

  /**
   * The `movewindowpixel exact x y` dispatch of `updateDragPosition`: the
   * window's new origin is the cursor minus the grab offset, each coordinate
   * cast to `int` (so it lands within one pixel of the exact origin).
   */
  function MoveTo(coords: Vec2, offset: Vec2): (m: Effect)
    ensures m.MoveWindowPixel?
    ensures -1.0 < (m.x as real + offset.x) - coords.x < 1.0
    ensures -1.0 < (m.y as real + offset.y) - coords.y < 1.0
    ensures coords.x - offset.x >= 0.0 ==> m.x as real <= coords.x - offset.x
    ensures coords.y - offset.y >= 0.0 ==> m.y as real <= coords.y - offset.y
  {
    var target := Sub(coords, offset);
    MoveWindowPixel(Trunc(target.x), Trunc(target.y))
  }

  /**
   * The dispatches of `updateDragPosition`: on the first movement of a drag
   * of a tiled window, float it, resize it to half the monitor and pin it;
   * then move it under the cursor.
   */
  function DragMoves(wasDragging: bool, floating: bool, coords: Vec2, offset: Vec2): (fx: seq<Effect>)
    ensures |fx| >= 1 && fx[|fx| - 1] == MoveTo(coords, offset)
    ensures SetFloating in fx <==> !wasDragging && !floating
    ensures ResizeHalf in fx <==> !wasDragging && !floating
    ensures PinWindow in fx <==> !wasDragging && !floating
    ensures !wasDragging && !floating ==> |fx| == 4 && fx[..3] == [SetFloating, ResizeHalf, PinWindow]
    ensures wasDragging || floating ==> |fx| == 1
  {
    if !wasDragging && !floating then [SetFloating, ResizeHalf, PinWindow, MoveTo(coords, offset)]
    else [MoveTo(coords, offset)]
  }

  /** The window is floated and pinned exactly once per drag: only on the move that starts dragging a tiled window. */
  lemma FloatsOnlyOnFirstMove(floating: bool, c1: Vec2, c2: Vec2, offset: Vec2)
    ensures SetFloating in DragMoves(false, floating, c1, offset) <==> !floating
    ensures SetFloating !in DragMoves(true, floating, c2, offset)
    ensures PinWindow !in DragMoves(true, floating, c2, offset)
  {
  }

  /** Drag ownership only ever changes hands through a free slot: a pill may release its own claim, never another's. */
  predicate KeepsOthersClaim(before: Option<PillId>, after: Option<PillId>, id: PillId)
  {
    before.Some? && before != Some(id) ==> after == before
  }

  /** The animated fields of a pill before its first update: zero-sized, fully opaque, transparent black. */
  const InitialLooks := Looks(0.0, 0.0, 0.0, 1.0, 0.0, Color(0.0, 0.0, 0.0, 0.0))

  /** The process-wide pill registry and the single drag-owner slot. */
  class PillContext {
    var dragOwner: Option<PillId>
    var pills: seq<PillId>

    constructor ()
      ensures dragOwner == None && pills == []
    {
      dragOwner := None;
      pills := [];
    }
  }

  class Pill {
    const id: PillId
    var hidden: bool
    var dragPending: bool
    var draggingThis: bool
    var touchEv: bool
    var cancelledDown: bool
    var hovered: bool
    var touchId: int
    var dragCursorOffset: Vec2
    var currentState: VisualState
    var targetState: VisualState
    var stateStart: int
    var lastFrame: int
    var current: Looks
    var origin: Looks

    /**
     * The pill's invariant against the shared context: the only touch point
     * it ever tracks is id 0, and while it has a drag pending or in progress
     * it is the drag owner.
     */
    ghost predicate Valid(ctx: PillContext)
      reads this, ctx
    {
      touchId == 0 && ((dragPending || draggingThis) ==> ctx.dragOwner == Some(id))
    }

    predicate Dragging()
      reads this
    {
      dragPending || draggingThis
    }

    /** `inputIsValid`: the plugin is enabled, the pill is not hidden, and the compositor lets input reach the window. */
    predicate InputIsValid(scene: Scene)
      reads this
    {
      scene.cfg.enabled && !hidden &&
      scene.host.workspaceVisible && !scene.host.exclusiveLayer && !scene.host.seatGrabRejects
    }

    /** A new pill: inactive, zero-sized, fully opaque, then animated once. */
    constructor (id: PillId, scene: Scene, cursor: Vec2, now: int)
      ensures this.id == id && !hidden && !Dragging() && !touchEv && !cancelledDown && touchId == 0
      ensures dragCursorOffset == Vec2(0.0, 0.0)
      ensures hovered == Contains(HoverHitbox(scene.slot, scene.cfg, InitialLooks), cursor)
      ensures targetState == TargetState(false, false, hovered, scene.window.focused)
      ensures currentState == targetState
      ensures stateStart == now && lastFrame == now
      ensures origin == (if targetState == Inactive then InitialLooks else Snapshot(InitialLooks, scene.cfg))
      ensures current == origin
      ensures forall ctx: PillContext :: Valid(ctx)
    {
      this.id := id;
      hidden, dragPending, draggingThis, touchEv, cancelledDown, hovered := false, false, false, false, false, false;
      touchId := 0;
      dragCursorOffset := Vec2(0.0, 0.0);
      currentState, targetState := Inactive, Inactive;
      stateStart, lastFrame := now, now;
      current := InitialLooks;
      origin := current;
      new;
      var _ := UpdateStateAndAnimate(scene, cursor, now);
      Departs(origin, Destination(targetState, scene.window.focused, scene.cfg), Duration(targetState, scene.cfg));
    }

    /**
     * `updateStateAndAnimate`: recompute hover, pick the target state, restart
     * the transition on a state change, and move every animated field toward
     * the target's destination by eased, clamped progress. Returns whether the
     * pill must be redrawn.
     */
    method UpdateStateAndAnimate(scene: Scene, cursor: Vec2, now: int) returns (damage: bool)
      modifies this
      ensures hovered == Contains(HoverHitbox(scene.slot, scene.cfg, old(current)), cursor)
      ensures targetState == TargetState(dragPending, draggingThis, hovered, scene.window.focused)
      ensures currentState == targetState
      ensures old(currentState) != targetState ==> stateStart == now && origin == Snapshot(old(current), scene.cfg)
      ensures old(currentState) == targetState ==> stateStart == old(stateStart) && origin == old(origin)
      ensures current == LooksAt(origin, Destination(targetState, scene.window.focused, scene.cfg),
                                 now - stateStart, Duration(targetState, scene.cfg))
      ensures damage == (Progress(now - stateStart, Duration(targetState, scene.cfg)) < 1.0 || now - old(lastFrame) > 16)
      ensures lastFrame == now
      ensures unchanged(this`dragPending, this`draggingThis, this`touchEv, this`cancelledDown, this`touchId)
      ensures unchanged(this`dragCursorOffset, this`hidden)
    {
      Retarget(scene, cursor, now);
      damage := Advance(scene.cfg, scene.window.focused, now);
    }

    /** The first half of `updateStateAndAnimate`: recompute hover and restart the transition when the target changes. */
    method Retarget(scene: Scene, cursor: Vec2, now: int)
      modifies this`hovered, this`targetState, this`currentState, this`stateStart, this`origin
      ensures hovered == Contains(HoverHitbox(scene.slot, scene.cfg, current), cursor)
      ensures targetState == TargetState(dragPending, draggingThis, hovered, scene.window.focused)
      ensures currentState == targetState
      ensures old(currentState) != targetState ==> stateStart == now && origin == Snapshot(current, scene.cfg)
      ensures old(currentState) == targetState ==> stateStart == old(stateStart) && origin == old(origin)
    {
      hovered := Contains(HoverHitbox(scene.slot, scene.cfg, current), cursor);
      targetState := TargetState(dragPending, draggingThis, hovered, scene.window.focused);
      if targetState != currentState {
        currentState := targetState;
        stateStart := now;
        origin := Snapshot(current, scene.cfg);
      }
    }

    /** The second half of `updateStateAndAnimate`: move every animated field along the current transition. */
    method Advance(cfg: PillConfig, focused: bool, now: int) returns (damage: bool)
      modifies this`current, this`lastFrame
      ensures current == LooksAt(origin, Destination(targetState, focused, cfg), now - stateStart, Duration(targetState, cfg))
      ensures damage == (Progress(now - stateStart, Duration(targetState, cfg)) < 1.0 || now - old(lastFrame) > 16)
      ensures lastFrame == now
    {
      var duration := Duration(targetState, cfg);
      current := LooksAt(origin, Destination(targetState, focused, cfg), now - stateStart, duration);
      damage := Progress(now - stateStart, duration) < 1.0 || now - lastFrame > 16;
      lastFrame := now;
    }

    /** The effect of a successful `beginDrag` on the fields it sets. */
    twostate predicate BeganDrag(ctx: PillContext, scene: Scene, coords: Vec2, now: int, cancel: bool, effects: seq<Effect>)
      reads this, ctx
    {
      && cancel && cancelledDown && dragPending
      && ctx.dragOwner == Some(id)
      && targetState == Pressed && stateStart == now
      && dragCursorOffset == Sub(coords, scene.window.origin)
      && effects == (if scene.window.focused then [] else [FocusWindow]) + (if scene.window.floating then [RaiseWindow] else [])
      && draggingThis == old(draggingThis)
      && currentState == old(currentState) && current == old(current) && origin == old(origin)
      && lastFrame == old(lastFrame) && hovered == old(hovered) && hidden == old(hidden)
      && ctx.pills == old(ctx.pills)
    }

    /** Whether `beginDrag` at `coords` succeeds: no other pill owns the drag, the point is in the click hitbox, the window exists. */
    predicate CanBegin(owner: Option<PillId>, scene: Scene, coords: Vec2)
      reads this
    {
      (owner == None || owner == Some(id)) &&
      Contains(ClickHitbox(scene.slot, scene.cfg, current), coords) &&
      scene.window.alive
    }

    /** `beginDrag`: claim the drag and go PRESSED, or do nothing. */
    method BeginDrag(ctx: PillContext, scene: Scene, coords: Vec2, now: int) returns (cancel: bool, effects: seq<Effect>)
      requires Valid(ctx)
      modifies this`dragCursorOffset, this`cancelledDown, this`dragPending, this`targetState, this`stateStart, ctx`dragOwner
      ensures Valid(ctx)
      ensures KeepsOthersClaim(old(ctx.dragOwner), ctx.dragOwner, id)
      ensures old(CanBegin(ctx.dragOwner, scene, coords)) ==> BeganDrag(ctx, scene, coords, now, cancel, effects)
      ensures !old(CanBegin(ctx.dragOwner, scene, coords)) ==> !cancel && effects == [] && unchanged(this, ctx)
      ensures touchEv == old(touchEv) && touchId == old(touchId)
    {
      if !CanBegin(ctx.dragOwner, scene, coords) {
        return false, [];
      }
      effects := if scene.window.focused then [] else [FocusWindow];
      if scene.window.floating {
        effects := effects + [RaiseWindow];
      }
      dragCursorOffset := Sub(coords, scene.window.origin);
      cancel := true;
      cancelledDown := true;
      dragPending := true;
      ctx.dragOwner := Some(id);
      targetState := Pressed;
      stateStart := now;
    }

    /** The effect of `endDrag`. */
    twostate predicate EndedDrag(ctx: PillContext, cancel: bool, effects: seq<Effect>)
      reads this, ctx
    {
      && cancel == old(cancelledDown)
      && effects == (if old(draggingThis) && old(touchEv) then [SetTiled] else [])
      && !cancelledDown && !dragPending && !draggingThis && !touchEv && touchId == 0
      && ctx.dragOwner == (if old(ctx.dragOwner) == Some(id) then None else old(ctx.dragOwner))
      && ctx.pills == old(ctx.pills)
      && dragCursorOffset == old(dragCursorOffset) && hovered == old(hovered) && hidden == old(hidden)
      && currentState == old(currentState) && targetState == old(targetState) && stateStart == old(stateStart)
      && current == old(current) && origin == old(origin) && lastFrame == old(lastFrame)
    }

    /** `endDrag`: clear every drag flag and give back the drag if this pill holds it. */
    method EndDrag(ctx: PillContext) returns (cancel: bool, effects: seq<Effect>)
      requires Valid(ctx)
      modifies this, ctx
      ensures Valid(ctx)
      ensures KeepsOthersClaim(old(ctx.dragOwner), ctx.dragOwner, id)
      ensures ctx.dragOwner != Some(id)
      ensures EndedDrag(ctx, cancel, effects)
    {
      cancel := cancelledDown;
      cancelledDown := false;
      effects := if draggingThis && touchEv then [SetTiled] else [];
      dragPending := false;
      draggingThis := false;
      touchEv := false;
      touchId := 0;
      if ctx.dragOwner == Some(id) {
        ctx.dragOwner := None;
      }
    }

    /** `onMouseButton`: a press begins a drag, any other button state ends it. */
    method OnMouseButton(ctx: PillContext, scene: Scene, pressed: bool, coords: Vec2, now: int)
      returns (cancel: bool, effects: seq<Effect>)
      requires Valid(ctx)
      modifies this, ctx
      ensures Valid(ctx)
      ensures KeepsOthersClaim(old(ctx.dragOwner), ctx.dragOwner, id)
      ensures !old(InputIsValid(scene)) ==> !cancel && effects == [] && unchanged(this, ctx)
      ensures old(InputIsValid(scene)) && !pressed ==> EndedDrag(ctx, cancel, effects)
      ensures old(InputIsValid(scene)) && pressed && old(CanBegin(ctx.dragOwner, scene, coords)) ==>
                BeganDrag(ctx, scene, coords, now, cancel, effects)
      ensures old(InputIsValid(scene)) && pressed && !old(CanBegin(ctx.dragOwner, scene, coords)) ==>
                !cancel && effects == [] && unchanged(this, ctx)
    {
      if !InputIsValid(scene) {
        return false, [];
      }
      if !pressed {
        cancel, effects := EndDrag(ctx);
        return;
      }
      cancel, effects := BeginDrag(ctx, scene, coords, now);
    }

    /** `onTouchDown`: only touch point 0 is followed; it is converted to global coordinates and begins a drag there. */
    method OnTouchDown(ctx: PillContext, scene: Scene, touchID: int, pos: Vec2, now: int)
      returns (cancel: bool, effects: seq<Effect>)
      requires Valid(ctx)
      modifies this, ctx
      ensures Valid(ctx)
      ensures KeepsOthersClaim(old(ctx.dragOwner), ctx.dragOwner, id)
      ensures !old(InputIsValid(scene)) || touchID != 0 ==> !cancel && effects == [] && unchanged(this, ctx)
      ensures old(InputIsValid(scene)) && touchID == 0 ==> touchEv && touchId == 0
      ensures old(InputIsValid(scene)) && touchID == 0 && old(CanBegin(ctx.dragOwner, scene, TouchToGlobal(scene.monitor, pos))) ==>
                BeganDrag(ctx, scene, TouchToGlobal(scene.monitor, pos), now, cancel, effects)
      ensures old(InputIsValid(scene)) && touchID == 0 && !old(CanBegin(ctx.dragOwner, scene, TouchToGlobal(scene.monitor, pos))) ==>
                !cancel && effects == [] && unchanged(ctx) &&
                unchanged(this`dragPending, this`draggingThis, this`cancelledDown, this`hovered, this`hidden,
                          this`currentState, this`targetState, this`stateStart, this`lastFrame, this`current,
                          this`origin, this`dragCursorOffset)
    {
      if !InputIsValid(scene) || touchID != 0 {
        return false, [];
      }
      touchEv := true;
      touchId := touchID;
      cancel, effects := BeginDrag(ctx, scene, TouchToGlobal(scene.monitor, pos), now);
    }

    /** `onTouchUp`: ends the drag only for the touch point this pill follows. */
    method OnTouchUp(ctx: PillContext, touchID: int) returns (cancel: bool, effects: seq<Effect>)
      requires Valid(ctx)
      modifies this, ctx
      ensures Valid(ctx)
      ensures KeepsOthersClaim(old(ctx.dragOwner), ctx.dragOwner, id)
      ensures !old(touchEv) || touchID != old(touchId) ==> !cancel && effects == [] && unchanged(this, ctx)
      ensures old(touchEv) && touchID == old(touchId) ==> EndedDrag(ctx, cancel, effects)
    {
      if !touchEv || touchID != touchId {
        return false, [];
      }
      cancel, effects := EndDrag(ctx);
    }

    /** `updateDragPosition`: move the window under the cursor and mark the drag as started. */
    method UpdateDragPosition(scene: Scene, coords: Vec2) returns (effects: seq<Effect>)
      modifies this`draggingThis
      ensures draggingThis
      ensures effects == DragMoves(old(draggingThis), scene.window.floating, coords, dragCursorOffset)
    {
      effects := DragMoves(draggingThis, scene.window.floating, coords, dragCursorOffset);
      draggingThis := true;
    }

    /** Whether a pointer move turns a pending mouse drag into a real one. */
    predicate StartsMouseDrag(ownerOk: bool, scene: Scene)
      reads this
    {
      ownerOk && InputIsValid(scene) && dragPending && !touchEv && ValidMapped(scene.window)
    }

    /**
     * `onMouseMove`: update hover (focusing the window and swallowing the
     * event when hovered outside a drag); on the first move of a pending mouse
     * drag, start dragging the window.
     */
    method OnMouseMove(ctx: PillContext, scene: Scene, coords: Vec2) returns (cancel: bool, effects: seq<Effect>)
      requires Valid(ctx)
      modifies this
      ensures Valid(ctx)
      ensures var ownerOk := old(ctx.dragOwner) == None || old(ctx.dragOwner) == Some(id);
        && (!ownerOk || !old(InputIsValid(scene)) ==>
              !hovered && !cancel && effects == [] && dragPending == old(dragPending) && draggingThis == old(draggingThis))
        && (ownerOk && old(InputIsValid(scene)) ==>
              hovered == Contains(HoverHitbox(scene.slot, scene.cfg, current), coords))
        && (old(StartsMouseDrag(ownerOk, scene)) ==>
              !dragPending && draggingThis && cancel &&
              effects == (if scene.window.focused then [] else [FocusWindow]) +
                         DragMoves(old(draggingThis), scene.window.floating, coords, dragCursorOffset))
        && (ownerOk && old(InputIsValid(scene)) && !old(StartsMouseDrag(ownerOk, scene)) ==>
              dragPending == old(dragPending) && draggingThis == old(draggingThis) &&
              cancel == (hovered && !dragPending && !draggingThis) &&
              effects == (if hovered && !dragPending && !draggingThis && !scene.window.focused then [FocusWindow] else []))
      ensures unchanged(this`touchEv, this`touchId, this`cancelledDown, this`dragCursorOffset, this`hidden)
      ensures unchanged(this`currentState, this`targetState, this`stateStart, this`lastFrame, this`current, this`origin)
    {
      cancel, effects := false, [];
      if ctx.dragOwner.Some? && ctx.dragOwner != Some(id) {
        hovered := false;
        return;
      }
      if !InputIsValid(scene) {
        hovered := false;
        return;
      }
      hovered := Contains(HoverHitbox(scene.slot, scene.cfg, current), coords);
      if hovered {
        if !dragPending && !draggingThis && !scene.window.focused {
          effects := [FocusWindow];
        }
        if !dragPending && !draggingThis {
          cancel := true;
        }
      }
      if !dragPending || touchEv || !ValidMapped(scene.window) {
        return;
      }
      if !scene.window.focused {
        effects := effects + [FocusWindow];
      }
      dragPending := false;
      cancel := true;
      var moves := UpdateDragPosition(scene, coords);
      effects := effects + moves;
    }

    /** `onTouchMove`: while a touch drag is pending, every move of the followed touch point moves the window. */
    method OnTouchMove(ctx: PillContext, scene: Scene, touchID: int, pos: Vec2) returns (effects: seq<Effect>)
      requires Valid(ctx)
      modifies this
      ensures Valid(ctx)
      ensures var follows := old(dragPending) && old(touchEv) && touchID == old(touchId) && ValidMapped(scene.window);
        && (!follows ==> effects == [] && unchanged(this))
        && (follows ==>
              draggingThis && dragPending &&
              effects == DragMoves(old(draggingThis), scene.window.floating, TouchToGlobal(scene.monitor, pos), dragCursorOffset))
      ensures unchanged(this`touchEv, this`touchId, this`cancelledDown, this`dragCursorOffset, this`hidden, this`hovered)
      ensures unchanged(this`currentState, this`targetState, this`stateStart, this`lastFrame, this`current, this`origin)
    {
      if !dragPending || !touchEv || touchID != touchId || !ValidMapped(scene.window) {
        return [];
      }
      effects := UpdateDragPosition(scene, TouchToGlobal(scene.monitor, pos));
    }

    /** The destructor: give back the drag if held and leave the registry. */
    method Destroy(ctx: PillContext)
      modifies ctx
      ensures KeepsOthersClaim(old(ctx.dragOwner), ctx.dragOwner, id)
      ensures ctx.dragOwner == (if old(ctx.dragOwner) == Some(id) then None else old(ctx.dragOwner))
      ensures ctx.pills == Seqs.Filter(old(ctx.pills), p => p != id)
      ensures id !in ctx.pills
    {
      if ctx.dragOwner == Some(id) {
        ctx.dragOwner := None;
      }
      ctx.pills := Seqs.Filter(ctx.pills, p => p != id);
    }
  }

  /**
   * One drag at a time is an invariant of the whole registry: every operation
   * of pill `a` that touches the context keeps the claim of any other pill
   * (`BeginDrag`, `EndDrag`, `OnMouseButton`, `OnTouchDown`, `OnTouchUp` and
   * `Destroy` all ensure `KeepsOthersClaim`; the move handlers leave the
   * context alone), so an untouched pill `b` that was consistent with the
   * context before stays consistent after.
   */
  twostate lemma OthersStayValid(a: Pill, b: Pill, ctx: PillContext)
    requires a.id != b.id
    requires KeepsOthersClaim(old(ctx.dragOwner), ctx.dragOwner, a.id)
    requires unchanged(b) && old(b.Valid(ctx))
    ensures b.Valid(ctx)
  {
  }

  /** Two distinct pills that are both consistent with the context are never dragging at the same time. */
  lemma AtMostOneDragging(a: Pill, b: Pill, ctx: PillContext)
    requires a.id != b.id && a.Valid(ctx) && b.Valid(ctx)
    ensures !(a.Dragging() && b.Dragging())
  {
  }
}
