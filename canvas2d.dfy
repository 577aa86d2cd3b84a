/** The Canvas 2D renderer: a thin layer that turns "draw a server rack",
    "draw a data flow" and "animate particles" into calls on a 2D drawing
    context. The context is modelled by the log of calls it received; the
    function `Paint` gives that log its meaning (what ends up painted, and
    the context state left behind). */
module Canvas2D {
  import opened Base
  import opened Dom

  type Color = string

  // Colours used by drawServerRack
  const FrameActive: Color := "#1e293b"
  const FrameIdle: Color := "#0f172a"
  const UnitActive: Color := "#334155"
  const UnitIdle: Color := "#1e293b"
  const LedGreen: Color := "#10b981"
  const LedAmber: Color := "#f59e0b"
  const LedRed: Color := "#ef4444"
  const LedGray: Color := "#374151"
  const VentActive: Color := "#64748b"
  const VentIdle: Color := "#374151"
  const PowerColor: Color := "#10b981"

  /** Global alpha: a plain value, or the particle fade `life / maxLife`,
      kept as a ratio because `maxLife` may be zero. */
  datatype Alpha = Opacity(value: real) | LifeRatio(life: real, maxLife: real)

  /** Arc radius: a plain value, or the particle radius `2 * life / maxLife`. */
  datatype Radius = Fixed(r: real) | Faded(life: real, maxLife: real)

  /** Whether assigning this alpha takes effect: the `globalAlpha` setter
      ignores a value that is not finite or lies outside [0, 1]. A zero
      `maxLife` makes the ratio infinite or NaN. */
  predicate AlphaAccepted(a: Alpha) {
    match a
    case Opacity(v) => 0.0 <= v <= 1.0
    case LifeRatio(life, maxLife) => maxLife != 0.0 && 0.0 <= life / maxLife <= 1.0
  }

  /** The global alpha after assigning `a` to it when it was `current`. */
  function AssignAlpha(current: Alpha, a: Alpha): Alpha {
    if AlphaAccepted(a) then a else current
  }

  /** Whether the radius is finite: `arc` does nothing at all when an
      argument is infinite or NaN, as a zero `maxLife` makes it. */
  predicate RadiusFinite(r: Radius) {
    r.Faded? ==> r.maxLife != 0.0
  }

  /** Whether `arc` throws an IndexSizeError: a finite negative radius. */
  predicate RadiusNegative(r: Radius) {
    match r
    case Fixed(v) => v < 0.0
    case Faded(life, maxLife) => maxLife != 0.0 && 2.0 * (life / maxLife) < 0.0
  }

  /** One call on the 2D context (arcs are always full circles). */
  datatype Command =
    | SetFillStyle(fill: Color)
    | SetStrokeStyle(stroke: Color)
    | SetLineWidth(width: real)
    | SetShadowColor(shadow: Color)
    | SetShadowBlur(blur: real)
    | SetGlobalAlpha(alpha: Alpha)
    | FillRect(x: real, y: real, w: real, h: real)
    | ClearRect(x: real, y: real, w: real, h: real)
    | BeginPath
    | MoveTo(p: Point)
    | LineTo(p: Point)
    | Arc(center: Point, radius: Radius)
    | Fill
    | Stroke
    /** Stands for everything one `drawCircuitBoard` call draws: its
        grid lines and nodes are chosen by unseeded `Math.random`. */
    | CircuitPattern(x: real, y: real, w: real, h: real, density: real)
    /** `ctx.scale(s, s)`. */
    | Scale(s: real)
    /** Not a call: assigning the canvas's `width` or `height` resets the
        context's bitmap and drawing state (HTML Standard, the canvas
        element's "set bitmap dimensions" steps). */
    | ResetContext

  // ---------------------------------------------------------------------
  // What a command log paints

  datatype PathOp = MoveOp(p: Point) | LineOp(p: Point) | ArcOp(center: Point, radius: Radius)

  /** What an `arc` call that does not throw adds to the current path. A
      negative radius throws instead; `animateParticles` stops before
      logging such a call, and every other radius drawn is positive. */
  function ArcOps(center: Point, radius: Radius): seq<PathOp> {
    if RadiusFinite(radius) then [ArcOp(center, radius)] else []
  }

  /** The drawing state of a context. */
  datatype Pen = Pen(
    fill: Color, stroke: Color, lineWidth: real,
    shadowColor: Color, shadowBlur: real, alpha: Alpha,
    scale: real, path: seq<PathOp>)

  /** Something left on the canvas. */
  datatype Mark =
    | RectMark(x: real, y: real, w: real, h: real, color: Color)
    | FillMark(path: seq<PathOp>, color: Color, alpha: Alpha)
    | StrokeMark(path: seq<PathOp>, color: Color, width: real)
    | ClearMark(x: real, y: real, w: real, h: real)
    | CircuitMark(x: real, y: real, w: real, h: real, density: real)
    /** The whole bitmap cleared by a context reset. */
    | WipeMark

  datatype Painting = Painting(pen: Pen, marks: seq<Mark>)

  /** The state of a fresh 2D context. */
  const InitialPen := Pen("#000000", "#000000", 1.0, "rgba(0, 0, 0, 0)", 0.0, Opacity(1.0), 1.0, [])

  function Exec(pen: Pen, c: Command): Painting {
    match c
    case SetFillStyle(color) => Painting(pen.(fill := color), [])
    case SetStrokeStyle(color) => Painting(pen.(stroke := color), [])
    case SetLineWidth(width) => Painting(pen.(lineWidth := width), [])
    case SetShadowColor(color) => Painting(pen.(shadowColor := color), [])
    case SetShadowBlur(blur) => Painting(pen.(shadowBlur := blur), [])
    case SetGlobalAlpha(alpha) => Painting(pen.(alpha := AssignAlpha(pen.alpha, alpha)), [])
    case FillRect(x, y, w, h) => Painting(pen, [RectMark(x, y, w, h, pen.fill)])
    case ClearRect(x, y, w, h) => Painting(pen, [ClearMark(x, y, w, h)])
    case BeginPath => Painting(pen.(path := []), [])
    case MoveTo(p) => Painting(pen.(path := pen.path + [MoveOp(p)]), [])
    case LineTo(p) => Painting(pen.(path := pen.path + [LineOp(p)]), [])
    case Arc(center, radius) => Painting(pen.(path := pen.path + ArcOps(center, radius)), [])
    case Fill => Painting(pen, [FillMark(pen.path, pen.fill, pen.alpha)])
    case Stroke => Painting(pen, [StrokeMark(pen.path, pen.stroke, pen.lineWidth)])
    case CircuitPattern(x, y, w, h, density) => Painting(pen, [CircuitMark(x, y, w, h, density)])
    case Scale(f) => Painting(pen.(scale := pen.scale * f), [])
    case ResetContext => Painting(InitialPen, [WipeMark])
  }

  /** Run a command log on a context whose state is `pen`. */
  function Paint(pen: Pen, cmds: seq<Command>): Painting
    decreases |cmds|
  {
    if cmds == [] then Painting(pen, [])
    else
      var first := Exec(pen, cmds[0]);
      var rest := Paint(first.pen, cmds[1..]);
      Painting(rest.pen, first.marks + rest.marks)
  }

  /** Painting a concatenation paints the first part, then the second part
      from the state the first left behind. */
  lemma {:induction false} PaintAppend(pen: Pen, a: seq<Command>, b: seq<Command>)
    ensures Paint(pen, a + b).pen == Paint(Paint(pen, a).pen, b).pen
    ensures Paint(pen, a + b).marks == Paint(pen, a).marks + Paint(Paint(pen, a).pen, b).marks
    decreases |a|
  {
    if a == [] {
      assert a + b == b;
    } else {
      assert (a + b)[0] == a[0];
      assert (a + b)[1..] == a[1..] + b;
      PaintAppend(Exec(pen, a[0]).pen, a[1..], b);
    }
  }

  /** The filled circles among some marks: a fill of a path that is one arc. */
  datatype Dot = Dot(center: Point, radius: Radius, color: Color, alpha: Alpha)

  function Dots(marks: seq<Mark>): (d: seq<Dot>)
    ensures |d| <= |marks|
  {
    if marks == [] then []
    else
      var m := marks[|marks| - 1];
      Dots(marks[..|marks| - 1]) +
        (if m.FillMark? && |m.path| == 1 && m.path[0].ArcOp?
         then [Dot(m.path[0].center, m.path[0].radius, m.color, m.alpha)] else [])
  }

  /** The filled rectangles among some marks. */
  function Rects(marks: seq<Mark>): (r: seq<Mark>)
    ensures forall k :: 0 <= k < |r| ==> r[k].RectMark?
  {
    if marks == [] then []
    else
      var m := marks[|marks| - 1];
      Rects(marks[..|marks| - 1]) + (if m.RectMark? then [m] else [])
  }

  /** The stroked paths among some marks. */
  function Strokes(marks: seq<Mark>): (s: seq<Mark>)
    ensures forall k :: 0 <= k < |s| ==> s[k].StrokeMark?
  {
    if marks == [] then []
    else
      var m := marks[|marks| - 1];
      Strokes(marks[..|marks| - 1]) + (if m.StrokeMark? then [m] else [])
  }

  lemma {:induction false} ViewsAppend(a: seq<Mark>, b: seq<Mark>)
    ensures Dots(a + b) == Dots(a) + Dots(b)
    ensures Rects(a + b) == Rects(a) + Rects(b)
    ensures Strokes(a + b) == Strokes(a) + Strokes(b)
    decreases |b|
  {
    if b == [] {
      assert a + b == a;
    } else {
      var b' := b[..|b| - 1];
      assert (a + b)[..|a + b| - 1] == a + b';
      assert (a + b)[|a + b| - 1] == b[|b| - 1];
      ViewsAppend(a, b');
    }
  }

  // ---------------------------------------------------------------------
  // drawServerRack

  function FrameColor(active: bool): Color { if active then FrameActive else FrameIdle }
  function UnitColor(active: bool): Color { if active then UnitActive else UnitIdle }
  function VentColor(active: bool): Color { if active then VentActive else VentIdle }
  function LedColors(active: bool): (c: seq<Color>)
    ensures |c| == 3
  {
    if active then [LedGreen, LedAmber, LedRed] else [LedGray, LedGray, LedGray]
  }

  /** LED `k` of the slot whose top is `unitY`. */
  function LedCommands(x: real, unitY: real, unitHeight: real, color: Color, k: nat): seq<Command> {
    [SetFillStyle(color), BeginPath,
     Arc(Point(x + 15.0 + k as real * 8.0, unitY + unitHeight / 2.0), Fixed(2.0)), Fill]
  }

  /** The first `k` LEDs of a slot. */
  function LedsUpTo(x: real, unitY: real, unitHeight: real, active: bool, k: nat): seq<Command>
    requires k <= 3
  {
    if k == 0 then []
    else LedsUpTo(x, unitY, unitHeight, active, k - 1)
         + LedCommands(x, unitY, unitHeight, LedColors(active)[k - 1], k - 1)
  }

  /** Ventilation line `j` of the slot whose top is `unitY`. */
  function VentCommands(x: real, width: real, unitY: real, unitHeight: real, j: nat): seq<Command> {
    var vx := x + width - 30.0 + j as real * 5.0;
    [BeginPath, MoveTo(Point(vx, unitY + 3.0)), LineTo(Point(vx, unitY + unitHeight - 3.0)), Stroke]
  }

  /** The first `j` ventilation lines of a slot. */
  function VentsUpTo(x: real, width: real, unitY: real, unitHeight: real, j: nat): seq<Command> {
    if j == 0 then []
    else VentsUpTo(x, width, unitY, unitHeight, j - 1) + VentCommands(x, width, unitY, unitHeight, j - 1)
  }

  /** One server unit: background, three LEDs, four ventilation lines. */
  function SlotCommands(x: real, width: real, unitY: real, unitHeight: real, active: bool): seq<Command> {
    [SetFillStyle(UnitColor(active)), FillRect(x + 5.0, unitY + 2.0, width - 10.0, unitHeight - 4.0)]
    + LedsUpTo(x, unitY, unitHeight, active, 3)
    + [SetStrokeStyle(VentColor(active)), SetLineWidth(1.0)]
    + VentsUpTo(x, width, unitY, unitHeight, 4)
  }

  /** Top of slot `i` of a rack at `y` of height `height`. */
  function SlotTop(y: real, height: real, i: nat): real {
    y + i as real * (height / 8.0)
  }

  /** How many server units a rack holds. */
  const UnitCount: nat := 8

  /** The first `n` server units of a rack. */
  function UnitsUpTo(x: real, y: real, width: real, height: real, active: bool, n: nat): seq<Command> {
    if n == 0 then []
    else UnitsUpTo(x, y, width, height, active, n - 1)
         + SlotCommands(x, width, SlotTop(y, height, n - 1), height / 8.0, active)
  }

  function PowerCommands(x: real, y: real, width: real, active: bool): seq<Command> {
    if active then [SetFillStyle(PowerColor), FillRect(x + width - 8.0, y + 5.0, 3.0, 15.0)] else []
  }

  /** Everything one `drawServerRack` call sends to the context. */
  function RackCommands(x: real, y: real, width: real, height: real, active: bool): seq<Command> {
    [SetFillStyle(FrameColor(active)), FillRect(x, y, width, height)]
    + UnitsUpTo(x, y, width, height, active, UnitCount)
    + PowerCommands(x, y, width, active)
  }

  // ---------------------------------------------------------------------
  // drawDataFlow

  /** Number of whole segments and the fraction of the next one that a
      progress value covers on a polyline of `n` segments. */
  function FlowIndex(n: nat, progress: real): int {
    Floor(progress * n as real)
  }

  function FlowFraction(n: nat, progress: real): real {
    progress * n as real - FlowIndex(n, progress) as real
  }

  /** The vertices the source's loop appends after `moveTo(points[0])`:
      iteration `i` draws to `points[i+1]` when `i` is below the current
      index, or to the interpolated point when `i` is the current index and
      the fraction is positive. */
  function FlowStepsUpTo(points: seq<Point>, index: int, fraction: real, i: nat): seq<Point>
    requires i < |points|
  {
    if i == 0 then []
    else
      var j := i - 1;
      FlowStepsUpTo(points, index, fraction, j) +
        (if j == index && fraction > 0.0 then [Lerp(points[j], points[j + 1], fraction)]
         else if j < index then [points[j + 1]]
         else [])
  }

  /** The polyline selected by a whole-segment index and a fraction,
      stated directly: `points[0]`, then the whole segments covered
      (clamped to the polyline), then the interpolated end of the partly
      covered segment, if any. */
  function PathAt(points: seq<Point>, index: int, fraction: real): (path: seq<Point>)
    requires |points| >= 2
    ensures 1 <= |path| <= |points|
    ensures path[0] == points[0]
  {
    var n := |points| - 1;
    var whole := if index < 0 then 0 else if index > n then n else index;
    points[..whole + 1]
    + (if 0 <= index < n && fraction > 0.0
       then [Lerp(points[index], points[index + 1], fraction)] else [])
  }

  /** The polyline `drawDataFlow` draws for a progress value. */
  function DrawnPath(points: seq<Point>, progress: real): (path: seq<Point>)
    requires |points| >= 2
    ensures 1 <= |path| <= |points|
    ensures path[0] == points[0]
  {
    var n := |points| - 1;
    PathAt(points, FlowIndex(n, progress), FlowFraction(n, progress))
  }

  function LineTos(ps: seq<Point>): (cmds: seq<Command>)
    ensures |cmds| == |ps|
    ensures forall k :: 0 <= k < |ps| ==> cmds[k] == LineTo(ps[k])
  {
    seq(|ps|, k requires 0 <= k < |ps| => LineTo(ps[k]))
  }

  /** Everything one `drawDataFlow` call sends to the context. */
  function FlowCommands(points: seq<Point>, progress: real, color: Color): seq<Command> {
    if |points| < 2 then []
    else
      var path := DrawnPath(points, progress);
      [SetStrokeStyle(color), SetLineWidth(2.0), SetShadowColor(color), SetShadowBlur(10.0),
       BeginPath, MoveTo(points[0])]
      + LineTos(path[1..])
      + [Stroke, SetShadowBlur(0.0)]
  }

  // ---------------------------------------------------------------------
  // animateParticles

  datatype Particle = Particle(x: real, y: real, vx: real, vy: real, life: real, maxLife: real, color: Color)

  /** A particle after one frame. */
  function Advance(p: Particle): (q: Particle)
    ensures q.life == p.life - 1.0 && q.x == p.x + p.vx && q.y == p.y + p.vy
    ensures q.vx == p.vx && q.vy == p.vy && q.maxLife == p.maxLife && q.color == p.color
  {
    p.(x := p.x + p.vx, y := p.y + p.vy, life := p.life - 1.0)
  }

  function AdvanceAll(ps: seq<Particle>): (qs: seq<Particle>)
    ensures |qs| == |ps|
    ensures forall k :: 0 <= k < |ps| ==> qs[k] == Advance(ps[k])
  {
    seq(|ps|, k requires 0 <= k < |ps| => Advance(ps[k]))
  }

  /** The particles still alive, in their original order. */
  function Survivors(ps: seq<Particle>): seq<Particle> {
    if ps == [] then []
    else
      var last := ps[|ps| - 1];
      Survivors(ps[..|ps| - 1]) + (if last.life > 0.0 then [last] else [])
  }

  /** The calls that draw one particle, before it moves. */
  function ParticleCommands(p: Particle): seq<Command> {
    [SetGlobalAlpha(LifeRatio(p.life, p.maxLife)), SetFillStyle(p.color), BeginPath,
     Arc(Point(p.x, p.y), Faded(p.life, p.maxLife)), Fill]
  }

  function ParticlesCommands(ps: seq<Particle>): seq<Command> {
    if ps == [] then []
    else ParticlesCommands(ps[..|ps| - 1]) + ParticleCommands(ps[|ps| - 1])
  }

  /** The error `arc` throws on a negative radius. */
  datatype DrawError = IndexSizeError

  /** Drawing the particle throws: its radius `2 * life / maxLife` is
      finite and negative, as when `life` and `maxLife` have opposite
      signs. */
  predicate ArcThrows(p: Particle) {
    RadiusNegative(Faded(p.life, p.maxLife))
  }

  /** The calls made for a particle whose `arc` throws: those before it. */
  function ThrownCommands(p: Particle): seq<Command> {
    [SetGlobalAlpha(LifeRatio(p.life, p.maxLife)), SetFillStyle(p.color), BeginPath]
  }

  /** Drawing one more particle appends its calls: those before `arc`,
      then the arc and the fill. */
  lemma ParticlesCommandsNext(ps: seq<Particle>, i: nat)
    requires i < |ps|
    ensures ParticlesCommands(ps[..i + 1]) ==
              ParticlesCommands(ps[..i]) + ThrownCommands(ps[i])
              + [Arc(Point(ps[i].x, ps[i].y), Faded(ps[i].life, ps[i].maxLife)), Fill]
  {
    assert ps[..i + 1][..i] == ps[..i];
  }

  /** The index of the first particle whose `arc` throws, or the number of
      particles when none does: how many particles a frame draws and
      moves. */
  function FirstThrow(ps: seq<Particle>): (k: nat)
    ensures k <= |ps|
  {
    if ps == [] then 0
    else if ArcThrows(ps[0]) then 0
    else 1 + FirstThrow(ps[1..])
  }

  /** No particle before `FirstThrow` throws, and the one at it does. */
  lemma {:induction false} FirstThrowIsFirst(ps: seq<Particle>)
    ensures forall j :: 0 <= j < FirstThrow(ps) ==> !ArcThrows(ps[j])
    ensures FirstThrow(ps) < |ps| ==> ArcThrows(ps[FirstThrow(ps)])
    decreases |ps|
  {
    if ps != [] && !ArcThrows(ps[0]) {
      FirstThrowIsFirst(ps[1..]);
      forall j | 0 < j < FirstThrow(ps)
        ensures !ArcThrows(ps[j])
      {
        assert ps[j] == ps[1..][j - 1];
      }
    }
  }

  /** A particle before the first throwing one that does not throw
      itself leaves that index ahead. */
  lemma FirstThrowAhead(ps: seq<Particle>, i: nat)
    requires i < |ps| && i <= FirstThrow(ps) && !ArcThrows(ps[i])
    ensures i < FirstThrow(ps)
  {
    FirstThrowIsFirst(ps);
  }

  /** The first index at or after the drawn ones where the end is reached
      or an `arc` throws is the first throw. */
  lemma FirstThrowReached(ps: seq<Particle>, i: nat)
    requires i <= FirstThrow(ps) && (i == |ps| || ArcThrows(ps[i]))
    ensures i == FirstThrow(ps)
  {
    FirstThrowIsFirst(ps);
  }

  /** The calls a frame makes: each particle's, up to the first one whose
      `arc` throws, whose calls stop before `arc`. */
  function FrameCalls(ps: seq<Particle>): seq<Command> {
    var k := FirstThrow(ps);
    ParticlesCommands(ps[..k]) + (if k < |ps| then ThrownCommands(ps[k]) else [])
  }

  // ---------------------------------------------------------------------
  // setupCanvas

  /** What `setupCanvas` does to the context: two resets (width, then
      height, are assigned) and a scale by the device pixel ratio. */
  function SetupCommands(devicePixelRatio: real): seq<Command> {
    [ResetContext, ResetContext, Scale(DeviceScale(devicePixelRatio))]
  }

  // ---------------------------------------------------------------------
  // The renderer

  class Canvas2DRenderer {
    const canvas: Canvas
    /** The calls received by the canvas's 2D context, in order. */
    var log: seq<Command>
    /** Never assigned by the renderer: frames are scheduled by its owner. */
    var animationId: Option<nat>
    /** Frame ids passed to `cancelAnimationFrame`. */
    var cancelled: seq<nat>

    /** The renderer around a canvas already bound to a 2D context; the
        constructor then runs `setupCanvas`. */
    constructor Bind(canvas: Canvas, devicePixelRatio: real)
      requires canvas.mode == Bound(TwoD)
      modifies canvas`width, canvas`height
      ensures this.canvas == canvas && animationId == None && cancelled == []
      ensures log == SetupCommands(devicePixelRatio)
      ensures canvas.width == canvas.BackingWidth(devicePixelRatio)
      ensures canvas.height == canvas.BackingHeight(devicePixelRatio)
    {
      this.canvas := canvas;
      log := [];
      animationId := None;
      cancelled := [];
      new;
      SetupCanvas(devicePixelRatio);
    }

    /** `setupCanvas`: size the backing store for the device pixel ratio
        (which resets the context) and scale drawing back to CSS pixels. */
    method SetupCanvas(devicePixelRatio: real)
      modifies this`log, canvas`width, canvas`height
      ensures canvas.width == canvas.BackingWidth(devicePixelRatio)
      ensures canvas.height == canvas.BackingHeight(devicePixelRatio)
      ensures log == old(log) + SetupCommands(devicePixelRatio)
    {
      canvas.width := AttributeValue(canvas.rectWidth * DeviceScale(devicePixelRatio), DefaultWidth) as real;
      log := log + [ResetContext];
      canvas.height := AttributeValue(canvas.rectHeight * DeviceScale(devicePixelRatio), DefaultHeight) as real;
      log := log + [ResetContext];
      log := log + [Scale(DeviceScale(devicePixelRatio))];
    }

    /** `resize`: the same steps again for the element's current size. */
    method Resize(devicePixelRatio: real)
      modifies this`log, canvas`width, canvas`height
      ensures canvas.width == canvas.BackingWidth(devicePixelRatio)
      ensures canvas.height == canvas.BackingHeight(devicePixelRatio)
      ensures log == old(log) + SetupCommands(devicePixelRatio)
    {
      SetupCanvas(devicePixelRatio);
    }

    method DrawServerRack(x: real, y: real, width: real, height: real, active: bool)
      modifies this`log
      ensures log == old(log) + RackCommands(x, y, width, height, active)
    {
      ghost var start := log;
      ghost var frame := [SetFillStyle(FrameColor(active)), FillRect(x, y, width, height)];
      log := log + [SetFillStyle(FrameColor(active)), FillRect(x, y, width, height)];
      DrawUnits(x, y, width, height, active);
      ghost var units := UnitsUpTo(x, y, width, height, active, UnitCount);
      if active {
        log := log + [SetFillStyle(PowerColor), FillRect(x + width - 8.0, y + 5.0, 3.0, 15.0)];
      }
      ghost var power := PowerCommands(x, y, width, active);
      assert log == start + frame + units + power;
      ConcatAssoc(start, frame, units);
      ConcatAssoc(start, frame + units, power);
    }

    /** drawServerRack's slot loop: the rack's eight server units. */
    method DrawUnits(x: real, y: real, width: real, height: real, active: bool)
      modifies this`log
      ensures log == old(log) + UnitsUpTo(x, y, width, height, active, UnitCount)
    {
      ghost var head := log;
      var unitHeight := height / 8.0;
      for i := 0 to 8
        invariant log == head + UnitsUpTo(x, y, width, height, active, i)
      {
        var unitY := y + i as real * unitHeight;
        ghost var units := UnitsUpTo(x, y, width, height, active, i);
        ghost var slot := SlotCommands(x, width, unitY, unitHeight, active);
        DrawUnit(x, width, unitY, unitHeight, active);
        ghost var n := i + 1;
        assert n - 1 == i && SlotTop(y, height, n - 1) == unitY;
        assert UnitsUpTo(x, y, width, height, active, n) == units + slot;
        ConcatAssoc(head, units, slot);
      }
    }

    /** The body of drawServerRack's slot loop: one server unit. */
    method DrawUnit(x: real, width: real, unitY: real, unitHeight: real, active: bool)
      modifies this`log
      ensures log == old(log) + SlotCommands(x, width, unitY, unitHeight, active)
    {
      ghost var start := log;
      ghost var back := [SetFillStyle(UnitColor(active)), FillRect(x + 5.0, unitY + 2.0, width - 10.0, unitHeight - 4.0)];
      log := log + [SetFillStyle(UnitColor(active)), FillRect(x + 5.0, unitY + 2.0, width - 10.0, unitHeight - 4.0)];
      ghost var ledStart := log;
      var colors := LedColors(active);
      for k := 0 to 3
        invariant log == ledStart + LedsUpTo(x, unitY, unitHeight, active, k)
      {
        ghost var leds := LedsUpTo(x, unitY, unitHeight, active, k);
        var led := [SetFillStyle(colors[k]), BeginPath,
                    Arc(Point(x + 15.0 + k as real * 8.0, unitY + unitHeight / 2.0), Fixed(2.0)), Fill];
        log := log + led;
        assert LedsUpTo(x, unitY, unitHeight, active, k + 1) == leds + led;
        ConcatAssoc(ledStart, leds, led);
      }
      ghost var leds := LedsUpTo(x, unitY, unitHeight, active, 3);
      ghost var pen := [SetStrokeStyle(VentColor(active)), SetLineWidth(1.0)];
      log := log + [SetStrokeStyle(VentColor(active)), SetLineWidth(1.0)];
      ghost var ventStart := log;
      for j := 0 to 4
        invariant log == ventStart + VentsUpTo(x, width, unitY, unitHeight, j)
      {
        ghost var vents := VentsUpTo(x, width, unitY, unitHeight, j);
        var vx := x + width - 30.0 + j as real * 5.0;
        var vent := [BeginPath, MoveTo(Point(vx, unitY + 3.0)), LineTo(Point(vx, unitY + unitHeight - 3.0)), Stroke];
        log := log + vent;
        assert VentsUpTo(x, width, unitY, unitHeight, j + 1) == vents + vent;
        ConcatAssoc(ventStart, vents, vent);
      }
      ghost var vents := VentsUpTo(x, width, unitY, unitHeight, 4);
      assert log == start + back + leds + pen + vents;
      ConcatAssoc(start, back, leds);
      ConcatAssoc(start, back + leds, pen);
      ConcatAssoc(start, back + leds + pen, vents);
    }

    method DrawDataFlow(points: seq<Point>, progress: real, color: Color)
      modifies this`log
      ensures log == old(log) + FlowCommands(points, progress, color)
    {
      if |points| < 2 {
        return;
      }
      ghost var start := log;
      var header := [SetStrokeStyle(color), SetLineWidth(2.0), SetShadowColor(color), SetShadowBlur(10.0),
                     BeginPath, MoveTo(points[0])];
      log := log + header;
      var totalLength := |points| - 1;
      // currentIndex = floor(progress * totalLength), segmentProgress its fractional part
      var currentIndex := FlowIndex(totalLength, progress);
      var segmentProgress := FlowFraction(totalLength, progress);
      DrawFlowSegments(points, currentIndex, segmentProgress);
      ghost var lines := LineTos(DrawnPath(points, progress)[1..]);
      var tail := [Stroke, SetShadowBlur(0.0)];
      log := log + tail;
      ConcatAssoc(start + header, lines, tail);
      ConcatAssoc(start, header, lines + tail);
      ConcatAssoc(header, lines, tail);
    }

    /** drawDataFlow's segment loop. */
    method DrawFlowSegments(points: seq<Point>, currentIndex: int, segmentProgress: real)
      requires |points| >= 2
      modifies this`log
      ensures log == old(log) + LineTos(PathAt(points, currentIndex, segmentProgress)[1..])
    {
      var totalLength := |points| - 1;
      var bound := if currentIndex + 1 < totalLength then currentIndex + 1 else totalLength;
      var i := 0;
      while i < bound
        invariant 0 <= i <= if bound < 0 then 0 else bound
        invariant log == old(log) + LineTos(FlowStepsUpTo(points, currentIndex, segmentProgress, i))
      {
        ghost var before := FlowStepsUpTo(points, currentIndex, segmentProgress, i);
        if i == currentIndex && segmentProgress > 0.0 {
          var p := Lerp(points[i], points[i + 1], segmentProgress);
          log := log + [LineTo(p)];
          assert FlowStepsUpTo(points, currentIndex, segmentProgress, i + 1) == before + [p];
        } else if i < currentIndex {
          log := log + [LineTo(points[i + 1])];
          assert FlowStepsUpTo(points, currentIndex, segmentProgress, i + 1) == before + [points[i + 1]];
        } else {
          assert FlowStepsUpTo(points, currentIndex, segmentProgress, i + 1) == before;
        }
        i := i + 1;
      }
      FlowStepsMatchPath(points, currentIndex, segmentProgress);
    }

    /** `animateParticles`: draw and move every particle, reset the alpha
        and return the particles with life left. A particle whose `arc`
        throws ends the call there: the particles before it stay moved,
        it and the rest are untouched, the alpha is not reset and the
        error propagates. */
    method AnimateParticles(particles: array<Particle>) returns (r: Result<seq<Particle>, DrawError>)
      modifies this`log, particles
      ensures r.Success? <==> FirstThrow(old(particles[..])) == particles.Length
      ensures r.Success? ==>
                && particles[..] == AdvanceAll(old(particles[..]))
                && r.value == Survivors(particles[..])
                && log == old(log) + ParticlesCommands(old(particles[..])) + [SetGlobalAlpha(Opacity(1.0))]
      ensures r.Failure? ==>
                var k := FirstThrow(old(particles[..]));
                && r.error == IndexSizeError
                && particles[..k] == AdvanceAll(old(particles[..k]))
                && particles[k..] == old(particles[k..])
                && log == old(log) + ParticlesCommands(old(particles[..k])) + ThrownCommands(old(particles[k]))
    {
      ghost var start := particles[..];
      var drawn := AdvanceParticles(particles);
      if drawn < particles.Length {
        assert particles[..drawn] == AdvanceAll(start[..drawn]);
        assert particles[drawn..] == start[drawn..];
        return Failure(IndexSizeError);
      }
      assert start[..drawn] == start && start[drawn..] == [];
      assert particles[..] == AdvanceAll(start);
      log := log + [SetGlobalAlpha(Opacity(1.0))];
      var alive := LiveParticles(particles);
      r := Success(alive);
    }

    /** The `forEach` of `animateParticles`: draw each particle, then move
        it and age it by one frame, in place, until an `arc` throws.
        Returns how many particles were drawn and moved. The throw is the
        loop's exit test; the throwing particle's calls before `arc` are
        still made. */
    method AdvanceParticles(particles: array<Particle>) returns (drawn: nat)
      modifies this`log, particles
      ensures drawn == FirstThrow(old(particles[..]))
      ensures forall j :: 0 <= j < drawn ==> particles[j] == Advance(old(particles[j]))
      ensures forall j :: drawn <= j < particles.Length ==> particles[j] == old(particles[j])
      ensures log == old(log) + FrameCalls(old(particles[..]))
    {
      ghost var start := particles[..];
      var n := particles.Length;
      var calls: seq<Command> := [];
      var i := 0;
      while i < n && !ArcThrows(particles[i])
        modifies particles
        invariant 0 <= i <= FirstThrow(start)
        invariant forall j :: 0 <= j < i ==> particles[j] == Advance(start[j])
        invariant forall j :: i <= j < n ==> particles[j] == start[j]
        invariant calls == ParticlesCommands(start[..i])
      {
        var p := particles[i];
        assert p == start[i];
        FirstThrowAhead(start, i);
        calls := calls + ThrownCommands(p) + [Arc(Point(p.x, p.y), Faded(p.life, p.maxLife)), Fill];
        particles[i] := Advance(p);
        ParticlesCommandsNext(start, i);
        i := i + 1;
      }
      FirstThrowReached(start, i);
      if i < n {
        // The particle whose `arc` throws: its calls before `arc` were made.
        calls := calls + ThrownCommands(particles[i]);
      }
      log := log + calls;
      return i;
    }

    /** The `filter` of `animateParticles`: the particles with life left, in order. */
    method LiveParticles(particles: array<Particle>) returns (alive: seq<Particle>)
      ensures alive == Survivors(particles[..])
    {
      var n := particles.Length;
      alive := [];
      for j := 0 to n
        invariant alive == Survivors(particles[..j])
      {
        assert particles[..j + 1][..j] == particles[..j];
        if particles[j].life > 0.0 {
          alive := alive + [particles[j]];
        }
      }
      assert particles[..n] == particles[..];
    }

    /** Stands for `drawCircuitBoard`, whose pattern is random. */
    method DrawCircuitBoard(x: real, y: real, width: real, height: real, density: real)
      modifies this`log
      ensures log == old(log) + [CircuitPattern(x, y, width, height, density)]
    {
      log := log + [CircuitPattern(x, y, width, height, density)];
    }

    method Clear()
      modifies this`log
      ensures log == old(log) + [ClearRect(0.0, 0.0, canvas.width, canvas.height)]
    {
      log := log + [ClearRect(0.0, 0.0, canvas.width, canvas.height)];
    }

    method Destroy()
      modifies this`cancelled
      ensures cancelled == old(cancelled) +
        (if animationId.Some? && animationId.value != 0 then [animationId.value] else [])
    {
      if animationId.Some? && animationId.value != 0 {
        cancelled := cancelled + [animationId.value];
      }
    }
  }

  /** `new Canvas2DRenderer(canvas)`: throws exactly when `getContext('2d')`
      yields null; otherwise the renderer draws on that canvas's context. */
  method NewCanvas2DRenderer(canvas: Canvas, devicePixelRatio: real) returns (r: Result<Canvas2DRenderer, InitError>)
    modifies canvas`mode, canvas`width, canvas`height
    ensures r.Success? <==> old(canvas.Grants(TwoD))
    ensures r.Success? ==> fresh(r.value) && r.value.canvas == canvas
                           && r.value.log == SetupCommands(devicePixelRatio)
                           && r.value.animationId == None && r.value.cancelled == []
                           && canvas.mode == Bound(TwoD)
                           && canvas.width == canvas.BackingWidth(devicePixelRatio)
                           && canvas.height == canvas.BackingHeight(devicePixelRatio)
    ensures r.Failure? ==> r.error == Context2DUnavailable && unchanged(canvas)
  {
    var ok := canvas.GetContext(TwoD);
    if !ok {
      return Failure(Context2DUnavailable);
    }
    var renderer := new Canvas2DRenderer.Bind(canvas, devicePixelRatio);
    return Success(renderer);
  }

  // ---------------------------------------------------------------------
  // drawDataFlow: the loop draws exactly the drawn path

  lemma {:induction false} FlowStepsWhole(points: seq<Point>, index: int, fraction: real, i: nat)
    requires i < |points| && i <= index
    ensures FlowStepsUpTo(points, index, fraction, i) == points[1..i + 1]
  {
    if i > 0 {
      FlowStepsWhole(points, index, fraction, i - 1);
    }
  }

  lemma FlowStepsMatchPath(points: seq<Point>, index: int, fraction: real)
    requires |points| >= 2
    ensures var n := |points| - 1;
            var bound := if index + 1 < n then index + 1 else n;
            FlowStepsUpTo(points, index, fraction, if bound < 0 then 0 else bound)
              == PathAt(points, index, fraction)[1..]
  {
    var n := |points| - 1;
    if index < 0 {
    } else if index < n {
      FlowStepsWhole(points, index, fraction, index);
    } else {
      FlowStepsWhole(points, index, fraction, n);
      assert points[..n + 1] == points;
    }
  }
}
