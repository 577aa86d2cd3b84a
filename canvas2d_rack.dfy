/** What `drawServerRack` paints: a frame, eight server units, each with
    three LEDs and four ventilation lines, and a power bar on active racks.
    Every statement is about `Paint`, so it holds whatever state the
    context was in before the call, except that fills keep the global
    alpha the context already had. */
module Canvas2DRack {
  import opened Base
  import opened Canvas2D

  /** LED `k` of the slot whose top is `top`. */
  function LedDot(x: real, top: real, unitHeight: real, color: Color, k: nat, alpha: Alpha): Dot {
    Dot(Point(x + 15.0 + k as real * 8.0, top + unitHeight / 2.0), Fixed(2.0), color, alpha)
  }

  /** Ventilation line `j` of the slot whose top is `top`. */
  function VentStroke(x: real, width: real, top: real, unitHeight: real, active: bool, j: nat): Mark {
    var vx := x + width - 30.0 + j as real * 5.0;
    StrokeMark([MoveOp(Point(vx, top + 3.0)), LineOp(Point(vx, top + unitHeight - 3.0))], VentColor(active), 1.0)
  }

  /** The background of slot `i`. */
  function SlotRect(x: real, y: real, width: real, height: real, active: bool, i: nat): Mark {
    RectMark(x + 5.0, SlotTop(y, height, i) + 2.0, width - 10.0, height / 8.0 - 4.0, UnitColor(active))
  }

  function PowerRects(x: real, y: real, width: real, active: bool): seq<Mark> {
    if active then [RectMark(x + width - 8.0, y + 5.0, 3.0, 15.0, PowerColor)] else []
  }

  lemma PaintCons(pen: Pen, c: Command, rest: seq<Command>)
    ensures Paint(pen, [c] + rest).pen == Paint(Exec(pen, c).pen, rest).pen
    ensures Paint(pen, [c] + rest).marks == Exec(pen, c).marks + Paint(Exec(pen, c).pen, rest).marks
  {
    assert ([c] + rest)[0] == c;
    assert ([c] + rest)[1..] == rest;
  }

  lemma PaintNothing(pen: Pen)
    ensures Paint(pen, []) == Painting(pen, [])
  {
  }

  /** What one LED's calls paint: one filled arc. */
  lemma LedMarks(pen: Pen, x: real, top: real, unitHeight: real, color: Color, k: nat)
    ensures var c := Point(x + 15.0 + k as real * 8.0, top + unitHeight / 2.0);
            var r := Paint(pen, LedCommands(x, top, unitHeight, color, k));
            r.marks == [FillMark([ArcOp(c, Fixed(2.0))], color, pen.alpha)] && r.pen.alpha == pen.alpha
  {
    var c := Point(x + 15.0 + k as real * 8.0, top + unitHeight / 2.0);
    assert LedCommands(x, top, unitHeight, color, k) == FillArc(color, c, Fixed(2.0));
    FillArcMarks(pen, color, c, Fixed(2.0));
  }

  /** `fillStyle = color; beginPath(); arc(center, radius); fill()`. */
  function FillArc(color: Color, center: Point, radius: Radius): seq<Command> {
    [SetFillStyle(color), BeginPath, Arc(center, radius), Fill]
  }

  /** Setting the fill, then filling a one-arc path, leaves one fill in
      that colour and the current alpha: a disc, or an empty path when the
      radius is not finite. */
  lemma FillArcMarks(pen: Pen, color: Color, center: Point, radius: Radius)
    ensures var r := Paint(pen, FillArc(color, center, radius));
            r.marks == [FillMark(ArcOps(center, radius), color, pen.alpha)] && r.pen.alpha == pen.alpha
  {
    assert FillArc(color, center, radius) == [SetFillStyle(color)] + ([BeginPath] + ([Arc(center, radius)] + [Fill]));
    PaintCons(pen, SetFillStyle(color), [BeginPath] + ([Arc(center, radius)] + [Fill]));
    BeginArcMarks(pen.(fill := color), center, radius);
  }

  lemma BeginArcMarks(pen: Pen, center: Point, radius: Radius)
    ensures var r := Paint(pen, [BeginPath] + ([Arc(center, radius)] + [Fill]));
            r.marks == [FillMark(ArcOps(center, radius), pen.fill, pen.alpha)] && r.pen.alpha == pen.alpha
  {
    PaintCons(pen, BeginPath, [Arc(center, radius)] + [Fill]);
    ArcMarks(pen.(path := []), center, radius);
    assert pen.(path := []).path + ArcOps(center, radius) == ArcOps(center, radius);
  }

  lemma ArcMarks(pen: Pen, center: Point, radius: Radius)
    ensures var r := Paint(pen, [Arc(center, radius)] + [Fill]);
            r.marks == [FillMark(pen.path + ArcOps(center, radius), pen.fill, pen.alpha)] && r.pen.alpha == pen.alpha
  {
    var next := pen.(path := pen.path + ArcOps(center, radius));
    assert Exec(pen, Arc(center, radius)) == Painting(next, []);
    PaintCons(pen, Arc(center, radius), [Fill]);
    FillPaint(next);
  }

  lemma FillPaint(pen: Pen)
    ensures Paint(pen, [Fill]) == Painting(pen, [FillMark(pen.path, pen.fill, pen.alpha)])
  {
    assert [Fill][1..] == [];
  }

  /** One LED: a single filled dot, in the LED's colour. */
  lemma LedPaint(pen: Pen, x: real, top: real, unitHeight: real, color: Color, k: nat)
    ensures var r := Paint(pen, LedCommands(x, top, unitHeight, color, k));
            Dots(r.marks) == [LedDot(x, top, unitHeight, color, k, pen.alpha)]
            && Rects(r.marks) == [] && Strokes(r.marks) == [] && r.pen.alpha == pen.alpha
  {
    LedMarks(pen, x, top, unitHeight, color, k);
    var c := Point(x + 15.0 + k as real * 8.0, top + unitHeight / 2.0);
    ViewsOne(FillMark([ArcOp(c, Fixed(2.0))], color, pen.alpha));
  }

  /** The views of a concatenated log are the views of its two parts. */
  lemma PaintViews(pen: Pen, a: seq<Command>, b: seq<Command>)
    ensures var mid := Paint(pen, a).pen;
            && Paint(pen, a + b).pen == Paint(mid, b).pen
            && Dots(Paint(pen, a + b).marks) == Dots(Paint(pen, a).marks) + Dots(Paint(mid, b).marks)
            && Rects(Paint(pen, a + b).marks) == Rects(Paint(pen, a).marks) + Rects(Paint(mid, b).marks)
            && Strokes(Paint(pen, a + b).marks) == Strokes(Paint(pen, a).marks) + Strokes(Paint(mid, b).marks)
  {
    PaintAppend(pen, a, b);
    ViewsAppend(Paint(pen, a).marks, Paint(Paint(pen, a).pen, b).marks);
  }

  /** The views of a single mark. */
  lemma ViewsOne(m: Mark)
    ensures Dots([m]) == (if m.FillMark? && |m.path| == 1 && m.path[0].ArcOp?
                          then [Dot(m.path[0].center, m.path[0].radius, m.color, m.alpha)] else [])
    ensures Rects([m]) == (if m.RectMark? then [m] else [])
    ensures Strokes([m]) == (if m.StrokeMark? then [m] else [])
  {
    assert [m][..0] == [];
  }

  /** Setting a fill colour and filling a rectangle paints that rectangle. */
  lemma FilledRectPaint(pen: Pen, color: Color, x: real, y: real, w: real, h: real)
    ensures var r := Paint(pen, [SetFillStyle(color), FillRect(x, y, w, h)]);
            r.marks == [RectMark(x, y, w, h, color)] && r.pen == pen.(fill := color)
  {
    var p1 := pen.(fill := color);
    var tail := [FillRect(x, y, w, h)];
    assert [SetFillStyle(color), FillRect(x, y, w, h)] == [SetFillStyle(color)] + tail;
    PaintCons(pen, SetFillStyle(color), tail);
    assert Paint(p1, tail) == Painting(p1, [RectMark(x, y, w, h, color)]) by { assert tail[1..] == []; }
  }

  lemma FilledRectViews(pen: Pen, color: Color, x: real, y: real, w: real, h: real)
    ensures var r := Paint(pen, [SetFillStyle(color), FillRect(x, y, w, h)]);
            Dots(r.marks) == [] && Rects(r.marks) == [RectMark(x, y, w, h, color)] && Strokes(r.marks) == []
            && r.pen == pen.(fill := color)
  {
    FilledRectPaint(pen, color, x, y, w, h);
    ViewsOne(RectMark(x, y, w, h, color));
  }

  /** Setting the stroke colour and width paints nothing. */
  lemma StrokeStylePaint(pen: Pen, color: Color, width: real)
    ensures var r := Paint(pen, [SetStrokeStyle(color), SetLineWidth(width)]);
            r.marks == [] && r.pen == pen.(stroke := color, lineWidth := width)
  {
    var p1 := pen.(stroke := color);
    var tail := [SetLineWidth(width)];
    assert [SetStrokeStyle(color), SetLineWidth(width)] == [SetStrokeStyle(color)] + tail;
    PaintCons(pen, SetStrokeStyle(color), tail);
    assert Paint(p1, tail) == Painting(p1.(lineWidth := width), []) by { assert tail[1..] == []; }
  }

  /** What one ventilation line's calls paint: one stroked segment, in the
      context's current stroke style. */
  lemma VentMarks(pen: Pen, x: real, width: real, top: real, unitHeight: real, j: nat)
    ensures var vx := x + width - 30.0 + j as real * 5.0;
            var r := Paint(pen, VentCommands(x, width, top, unitHeight, j));
            r.marks == [StrokeMark([MoveOp(Point(vx, top + 3.0)), LineOp(Point(vx, top + unitHeight - 3.0))],
                                   pen.stroke, pen.lineWidth)]
            && r.pen.alpha == pen.alpha && r.pen.stroke == pen.stroke && r.pen.lineWidth == pen.lineWidth
  {
    var vx := x + width - 30.0 + j as real * 5.0;
    var a := Point(vx, top + 3.0);
    var b := Point(vx, top + unitHeight - 3.0);
    var p1 := pen.(path := []);
    var p2 := p1.(path := [MoveOp(a)]);
    var p3 := p2.(path := [MoveOp(a), LineOp(b)]);
    var r3 := [Stroke];
    var r2 := [LineTo(b)] + r3;
    var r1 := [MoveTo(a)] + r2;
    assert VentCommands(x, width, top, unitHeight, j) == [BeginPath] + r1;
    var m := [StrokeMark([MoveOp(a), LineOp(b)], pen.stroke, pen.lineWidth)];
    assert Paint(p3, r3) == Painting(p3, m) by { assert r3[1..] == []; }
    assert Paint(p2, r2) == Painting(p3, m) by {
      assert p2.path + [LineOp(b)] == p3.path;
      PaintCons(p2, LineTo(b), r3);
    }
    assert Paint(p1, r1) == Painting(p3, m) by {
      assert p1.path + [MoveOp(a)] == p2.path;
      PaintCons(p1, MoveTo(a), r2);
    }
    PaintCons(pen, BeginPath, r1);
  }

  lemma VentPaint(pen: Pen, x: real, width: real, top: real, unitHeight: real, active: bool, j: nat)
    requires pen.stroke == VentColor(active) && pen.lineWidth == 1.0
    ensures var r := Paint(pen, VentCommands(x, width, top, unitHeight, j));
            Dots(r.marks) == [] && Rects(r.marks) == []
            && Strokes(r.marks) == [VentStroke(x, width, top, unitHeight, active, j)]
            && r.pen.alpha == pen.alpha && r.pen.stroke == pen.stroke && r.pen.lineWidth == pen.lineWidth
  {
    VentMarks(pen, x, width, top, unitHeight, j);
    var vx := x + width - 30.0 + j as real * 5.0;
    ViewsOne(StrokeMark([MoveOp(Point(vx, top + 3.0)), LineOp(Point(vx, top + unitHeight - 3.0))],
                        pen.stroke, pen.lineWidth));
  }

  /** The dots of a slot's first `k` LEDs. */
  function LedDotsUpTo(x: real, top: real, unitHeight: real, active: bool, alpha: Alpha, k: nat): seq<Dot>
    requires k <= 3
  {
    if k == 0 then []
    else LedDotsUpTo(x, top, unitHeight, active, alpha, k - 1)
         + [LedDot(x, top, unitHeight, LedColors(active)[k - 1], k - 1, alpha)]
  }


  lemma {:induction false} LedsPaint(pen: Pen, x: real, top: real, unitHeight: real, active: bool, k: nat)
    requires k <= 3
    ensures var r := Paint(pen, LedsUpTo(x, top, unitHeight, active, k));
            Dots(r.marks) == LedDotsUpTo(x, top, unitHeight, active, pen.alpha, k)
            && Rects(r.marks) == [] && Strokes(r.marks) == [] && r.pen.alpha == pen.alpha
  {
    if k == 0 {
      PaintNothing(pen);
    } else {
      var prev := LedsUpTo(x, top, unitHeight, active, k - 1);
      var color := LedColors(active)[k - 1];
      var led := LedCommands(x, top, unitHeight, color, k - 1);
      assert LedsUpTo(x, top, unitHeight, active, k) == prev + led;
      var mid := Paint(pen, prev);
      var r := Paint(pen, prev + led);
      var before := LedDotsUpTo(x, top, unitHeight, active, pen.alpha, k - 1);
      var dot := LedDot(x, top, unitHeight, color, k - 1, pen.alpha);
      LedsPaint(pen, x, top, unitHeight, active, k - 1);
      LedPaint(mid.pen, x, top, unitHeight, color, k - 1);
      PaintViews(pen, prev, led);
      assert LedDotsUpTo(x, top, unitHeight, active, pen.alpha, k) == before + [dot];
    }
  }

  /** The strokes of a slot's first `j` ventilation lines. */
  function VentStrokesUpTo(x: real, width: real, top: real, unitHeight: real, active: bool, j: nat): seq<Mark> {
    if j == 0 then []
    else VentStrokesUpTo(x, width, top, unitHeight, active, j - 1)
         + [VentStroke(x, width, top, unitHeight, active, j - 1)]
  }


  /** The state and views after some calls, as `VentsPaint` states them. */
  predicate VentsPainted(pen: Pen, r: Painting, x: real, width: real, top: real, unitHeight: real, active: bool, j: nat) {
    Dots(r.marks) == [] && Rects(r.marks) == []
    && Strokes(r.marks) == VentStrokesUpTo(x, width, top, unitHeight, active, j)
    && r.pen.alpha == pen.alpha && r.pen.stroke == pen.stroke && r.pen.lineWidth == pen.lineWidth
  }

  lemma VentsStep(pen: Pen, x: real, width: real, top: real, unitHeight: real, active: bool, j: nat)
    requires pen.stroke == VentColor(active) && pen.lineWidth == 1.0
    requires VentsPainted(pen, Paint(pen, VentsUpTo(x, width, top, unitHeight, j)), x, width, top, unitHeight, active, j)
    ensures VentsPainted(pen, Paint(pen, VentsUpTo(x, width, top, unitHeight, j + 1)), x, width, top, unitHeight, active, j + 1)
  {
    var prev := VentsUpTo(x, width, top, unitHeight, j);
    var vent := VentCommands(x, width, top, unitHeight, j);
    assert VentsUpTo(x, width, top, unitHeight, j + 1) == prev + vent;
    var mid := Paint(pen, prev);
    var r := Paint(pen, prev + vent);
    var before := VentStrokesUpTo(x, width, top, unitHeight, active, j);
    var line := VentStroke(x, width, top, unitHeight, active, j);
    VentPaint(mid.pen, x, width, top, unitHeight, active, j);
    assert Strokes(r.marks) == before + [line] by { PaintViews(pen, prev, vent); }
    assert VentStrokesUpTo(x, width, top, unitHeight, active, j + 1) == before + [line];
    assert Dots(r.marks) == [] && Rects(r.marks) == [] by { PaintViews(pen, prev, vent); }
    assert r.pen == Paint(mid.pen, vent).pen by { PaintAppend(pen, prev, vent); }
  }

  lemma {:induction false} VentsPaint(pen: Pen, x: real, width: real, top: real, unitHeight: real, active: bool, j: nat)
    requires pen.stroke == VentColor(active) && pen.lineWidth == 1.0
    ensures VentsPainted(pen, Paint(pen, VentsUpTo(x, width, top, unitHeight, j)), x, width, top, unitHeight, active, j)
  {
    if j == 0 {
      PaintNothing(pen);
    } else {
      VentsPaint(pen, x, width, top, unitHeight, active, j - 1);
      VentsStep(pen, x, width, top, unitHeight, active, j - 1);
    }
  }

  // ---------------------------------------------------------------------
  // One server unit

  predicate SlotPainted(pen: Pen, r: Painting, x: real, width: real, top: real, unitHeight: real, active: bool) {
    && Dots(r.marks) == LedDotsUpTo(x, top, unitHeight, active, pen.alpha, 3)
    && Rects(r.marks) == [RectMark(x + 5.0, top + 2.0, width - 10.0, unitHeight - 4.0, UnitColor(active))]
    && Strokes(r.marks) == VentStrokesUpTo(x, width, top, unitHeight, active, 4)
    && r.pen.alpha == pen.alpha
  }

  /** A slot's background and LEDs. */
  lemma SlotHeadPaint(pen: Pen, x: real, width: real, top: real, unitHeight: real, active: bool)
    ensures var a := [SetFillStyle(UnitColor(active)), FillRect(x + 5.0, top + 2.0, width - 10.0, unitHeight - 4.0)];
            var r := Paint(pen, a + LedsUpTo(x, top, unitHeight, active, 3));
            && Dots(r.marks) == LedDotsUpTo(x, top, unitHeight, active, pen.alpha, 3)
            && Rects(r.marks) == [RectMark(x + 5.0, top + 2.0, width - 10.0, unitHeight - 4.0, UnitColor(active))]
            && Strokes(r.marks) == [] && r.pen.alpha == pen.alpha
  {
    var a := [SetFillStyle(UnitColor(active)), FillRect(x + 5.0, top + 2.0, width - 10.0, unitHeight - 4.0)];
    FilledRectPaint(pen, UnitColor(active), x + 5.0, top + 2.0, width - 10.0, unitHeight - 4.0);
    LedsPaint(Paint(pen, a).pen, x, top, unitHeight, active, 3);
    PaintViews(pen, a, LedsUpTo(x, top, unitHeight, active, 3));
  }

  /** A slot's background, LEDs and vent style, which paints nothing more. */
  lemma SlotStyledPaint(pen: Pen, x: real, width: real, top: real, unitHeight: real, active: bool)
    ensures var a := [SetFillStyle(UnitColor(active)), FillRect(x + 5.0, top + 2.0, width - 10.0, unitHeight - 4.0)];
            var c := [SetStrokeStyle(VentColor(active)), SetLineWidth(1.0)];
            var r := Paint(pen, a + LedsUpTo(x, top, unitHeight, active, 3) + c);
            && Dots(r.marks) == LedDotsUpTo(x, top, unitHeight, active, pen.alpha, 3)
            && Rects(r.marks) == [RectMark(x + 5.0, top + 2.0, width - 10.0, unitHeight - 4.0, UnitColor(active))]
            && Strokes(r.marks) == [] && r.pen.alpha == pen.alpha
            && r.pen.stroke == VentColor(active) && r.pen.lineWidth == 1.0
  {
    var a := [SetFillStyle(UnitColor(active)), FillRect(x + 5.0, top + 2.0, width - 10.0, unitHeight - 4.0)];
    var ab := a + LedsUpTo(x, top, unitHeight, active, 3);
    var c := [SetStrokeStyle(VentColor(active)), SetLineWidth(1.0)];
    SlotHeadPaint(pen, x, width, top, unitHeight, active);
    StrokeStylePaint(Paint(pen, ab).pen, VentColor(active), 1.0);
    PaintViews(pen, ab, c);
    ViewsAppend([], []);
  }

  /** One server unit: its background, its three LEDs and its four
      ventilation lines, whatever the context's state before. */
  lemma SlotPaint(pen: Pen, x: real, width: real, top: real, unitHeight: real, active: bool)
    ensures SlotPainted(pen, Paint(pen, SlotCommands(x, width, top, unitHeight, active)), x, width, top, unitHeight, active)
  {
    var a := [SetFillStyle(UnitColor(active)), FillRect(x + 5.0, top + 2.0, width - 10.0, unitHeight - 4.0)];
    var c := [SetStrokeStyle(VentColor(active)), SetLineWidth(1.0)];
    var abc := a + LedsUpTo(x, top, unitHeight, active, 3) + c;
    var d := VentsUpTo(x, width, top, unitHeight, 4);
    assert SlotCommands(x, width, top, unitHeight, active) == abc + d;
    SlotStyledPaint(pen, x, width, top, unitHeight, active);
    VentsPaint(Paint(pen, abc).pen, x, width, top, unitHeight, active, 4);
    PaintViews(pen, abc, d);
  }

  // ---------------------------------------------------------------------
  // The eight server units

  /** The dot of LED `k` of slot `i` among a rack's dots. */
  function LedAt(dots: seq<Dot>, i: nat, k: nat): Dot
    requires 3 * i + k < |dots|
  {
    dots[3 * i + k]
  }

  /** Ventilation line `j` of slot `i` among a rack's strokes. */
  function VentAt(strokes: seq<Mark>, i: nat, j: nat): Mark
    requires 4 * i + j < |strokes|
  {
    strokes[4 * i + j]
  }

  function SlotRects(x: real, y: real, width: real, height: real, active: bool, n: nat): seq<Mark> {
    if n == 0 then []
    else SlotRects(x, y, width, height, active, n - 1) + [SlotRect(x, y, width, height, active, n - 1)]
  }


  /** The LED dots of the first `n` slots, slot after slot. */
  function UnitDots(x: real, y: real, height: real, active: bool, alpha: Alpha, n: nat): seq<Dot> {
    if n == 0 then []
    else UnitDots(x, y, height, active, alpha, n - 1)
         + LedDotsUpTo(x, SlotTop(y, height, n - 1), height / 8.0, active, alpha, 3)
  }

  /** The ventilation lines of the first `n` slots, slot after slot. */
  function UnitVents(x: real, y: real, width: real, height: real, active: bool, n: nat): seq<Mark> {
    if n == 0 then []
    else UnitVents(x, y, width, height, active, n - 1)
         + VentStrokesUpTo(x, width, SlotTop(y, height, n - 1), height / 8.0, active, 4)
  }

  predicate UnitsPainted(pen: Pen, r: Painting, x: real, y: real, width: real, height: real, active: bool, n: nat) {
    && Dots(r.marks) == UnitDots(x, y, height, active, pen.alpha, n)
    && Rects(r.marks) == SlotRects(x, y, width, height, active, n)
    && Strokes(r.marks) == UnitVents(x, y, width, height, active, n)
    && r.pen.alpha == pen.alpha
  }

  /** Painting a slot after the first `n - 1` units adds that slot's
      views after theirs. */
  lemma UnitsStep(pen: Pen, units: seq<Command>, prev: seq<Command>, slot: seq<Command>,
                  x: real, y: real, width: real, height: real, active: bool, n: nat)
    requires 0 < n && units == prev + slot
    requires UnitsPainted(pen, Paint(pen, prev), x, y, width, height, active, n - 1)
    requires SlotPainted(Paint(pen, prev).pen, Paint(Paint(pen, prev).pen, slot),
                         x, width, SlotTop(y, height, n - 1), height / 8.0, active)
    ensures UnitsPainted(pen, Paint(pen, units), x, y, width, height, active, n)
  {
    PaintViews(pen, prev, slot);
  }

  lemma {:induction false} UnitsPaint(pen: Pen, x: real, y: real, width: real, height: real, active: bool, n: nat)
    ensures UnitsPainted(pen, Paint(pen, UnitsUpTo(x, y, width, height, active, n)), x, y, width, height, active, n)
  {
    if n == 0 {
      PaintNothing(pen);
    } else {
      UnitsPaint(pen, x, y, width, height, active, n - 1);
      UnitsNext(pen, x, y, width, height, active, n);
    }
  }

  lemma UnitsNext(pen: Pen, x: real, y: real, width: real, height: real, active: bool, n: nat)
    requires 0 < n
    requires UnitsPainted(pen, Paint(pen, UnitsUpTo(x, y, width, height, active, n - 1)), x, y, width, height, active, n - 1)
    ensures UnitsPainted(pen, Paint(pen, UnitsUpTo(x, y, width, height, active, n)), x, y, width, height, active, n)
  {
    var prev := UnitsUpTo(x, y, width, height, active, n - 1);
    var slot := SlotCommands(x, width, SlotTop(y, height, n - 1), height / 8.0, active);
    assert UnitsUpTo(x, y, width, height, active, n) == prev + slot;
    SlotPaint(Paint(pen, prev).pen, x, width, SlotTop(y, height, n - 1), height / 8.0, active);
    UnitsStep(pen, UnitsUpTo(x, y, width, height, active, n), prev, slot, x, y, width, height, active, n);
  }

  lemma {:induction false} LedDotsUpToAt(x: real, top: real, unitHeight: real, active: bool, alpha: Alpha, k: nat)
    requires k <= 3
    ensures var d := LedDotsUpTo(x, top, unitHeight, active, alpha, k);
            |d| == k && forall kk :: 0 <= kk < k ==> d[kk] == LedDot(x, top, unitHeight, LedColors(active)[kk], kk, alpha)
  {
    if k > 0 {
      LedDotsUpToAt(x, top, unitHeight, active, alpha, k - 1);
    }
  }

  lemma {:induction false} VentStrokesUpToAt(x: real, width: real, top: real, unitHeight: real, active: bool, j: nat)
    ensures var s := VentStrokesUpTo(x, width, top, unitHeight, active, j);
            |s| == j && forall jj :: 0 <= jj < j ==> s[jj] == VentStroke(x, width, top, unitHeight, active, jj)
  {
    if j > 0 {
      VentStrokesUpToAt(x, width, top, unitHeight, active, j - 1);
    }
  }

  lemma {:induction false} SlotRectsAt(x: real, y: real, width: real, height: real, active: bool, n: nat)
    ensures var r := SlotRects(x, y, width, height, active, n);
            |r| == n && forall i :: 0 <= i < n ==> r[i] == SlotRect(x, y, width, height, active, i)
  {
    if n > 0 {
      SlotRectsAt(x, y, width, height, active, n - 1);
    }
  }

  /** Slot `i`'s LEDs are dots `3i`, `3i+1`, `3i+2`. */
  lemma {:induction false} UnitDotsAt(x: real, y: real, height: real, active: bool, alpha: Alpha, n: nat)
    ensures |UnitDots(x, y, height, active, alpha, n)| == 3 * n
    ensures forall i, k :: 0 <= i < n && 0 <= k < 3 ==>
              LedAt(UnitDots(x, y, height, active, alpha, n), i, k)
                == LedDot(x, SlotTop(y, height, i), height / 8.0, LedColors(active)[k], k, alpha)
  {
    if n > 0 {
      UnitDotsAt(x, y, height, active, alpha, n - 1);
      var before := UnitDots(x, y, height, active, alpha, n - 1);
      var last := LedDotsUpTo(x, SlotTop(y, height, n - 1), height / 8.0, active, alpha, 3);
      LedDotsUpToAt(x, SlotTop(y, height, n - 1), height / 8.0, active, alpha, 3);
      var all := UnitDots(x, y, height, active, alpha, n);
      assert all == before + last;
      forall i, k | 0 <= i < n && 0 <= k < 3
        ensures LedAt(all, i, k) == LedDot(x, SlotTop(y, height, i), height / 8.0, LedColors(active)[k], k, alpha)
      {
        if i < n - 1 {
          assert LedAt(all, i, k) == LedAt(before, i, k);
        } else {
          assert LedAt(all, i, k) == last[k];
        }
      }
    }
  }

  /** Slot `i`'s ventilation lines are strokes `4i` to `4i+3`. */
  lemma {:induction false} UnitVentsAt(x: real, y: real, width: real, height: real, active: bool, n: nat)
    ensures |UnitVents(x, y, width, height, active, n)| == 4 * n
    ensures forall i, j :: 0 <= i < n && 0 <= j < 4 ==>
              VentAt(UnitVents(x, y, width, height, active, n), i, j)
                == VentStroke(x, width, SlotTop(y, height, i), height / 8.0, active, j)
  {
    if n > 0 {
      UnitVentsAt(x, y, width, height, active, n - 1);
      var before := UnitVents(x, y, width, height, active, n - 1);
      var last := VentStrokesUpTo(x, width, SlotTop(y, height, n - 1), height / 8.0, active, 4);
      VentStrokesUpToAt(x, width, SlotTop(y, height, n - 1), height / 8.0, active, 4);
      var all := UnitVents(x, y, width, height, active, n);
      assert all == before + last;
      forall i, j | 0 <= i < n && 0 <= j < 4
        ensures VentAt(all, i, j) == VentStroke(x, width, SlotTop(y, height, i), height / 8.0, active, j)
      {
        if i < n - 1 {
          assert VentAt(all, i, j) == VentAt(before, i, j);
        } else {
          assert VentAt(all, i, j) == last[j];
        }
      }
    }
  }

  // ---------------------------------------------------------------------
  // The whole rack

  lemma PowerPaint(pen: Pen, x: real, y: real, width: real, active: bool)
    ensures var r := Paint(pen, PowerCommands(x, y, width, active));
            Dots(r.marks) == [] && Rects(r.marks) == PowerRects(x, y, width, active) && Strokes(r.marks) == []
  {
    if active {
      FilledRectViews(pen, PowerColor, x + width - 8.0, y + 5.0, 3.0, 15.0);
    } else {
      PaintNothing(pen);
    }
  }

  predicate RackPainted(pen: Pen, r: Painting, x: real, y: real, width: real, height: real, active: bool) {
    && Dots(r.marks) == UnitDots(x, y, height, active, pen.alpha, UnitCount)
    && Rects(r.marks) == [RectMark(x, y, width, height, FrameColor(active))]
                         + SlotRects(x, y, width, height, active, UnitCount) + PowerRects(x, y, width, active)
    && Strokes(r.marks) == UnitVents(x, y, width, height, active, UnitCount)
  }

  /** A frame that paints one rectangle, units, and a power bar that
      paints only rectangles: the views of the whole are the units' with
      the frame's and the power bar's rectangles around them. */
  lemma RackViews(frame: seq<Mark>, units: seq<Mark>, power: seq<Mark>,
                  frameRect: Mark, dots: seq<Dot>, slots: seq<Mark>, vents: seq<Mark>, powerRects: seq<Mark>)
    requires Dots(frame) == [] && Rects(frame) == [frameRect] && Strokes(frame) == []
    requires Dots(units) == dots && Rects(units) == slots && Strokes(units) == vents
    requires Dots(power) == [] && Rects(power) == powerRects && Strokes(power) == []
    ensures Dots(frame + units + power) == dots
    ensures Rects(frame + units + power) == [frameRect] + slots + powerRects
    ensures Strokes(frame + units + power) == vents
  {
    ViewsAppend(frame, units);
    ViewsAppend(frame + units, power);
    assert [] + dots + [] == dots;
    assert [] + vents + [] == vents;
  }

  /** Everything `drawServerRack` paints: the frame, then the eight slot
      backgrounds, then the power bar when the rack is active (rectangles);
      three LEDs per slot (dots); four ventilation lines per slot (strokes).
      Nothing else is filled or stroked. */
  lemma RackPaint(pen: Pen, x: real, y: real, width: real, height: real, active: bool)
    ensures RackPainted(pen, Paint(pen, RackCommands(x, y, width, height, active)), x, y, width, height, active)
  {
    var frame := [SetFillStyle(FrameColor(active)), FillRect(x, y, width, height)];
    var units := UnitsUpTo(x, y, width, height, active, UnitCount);
    var power := PowerCommands(x, y, width, active);
    assert RackCommands(x, y, width, height, active) == frame + units + power;
    var framePen := pen.(fill := FrameColor(active));
    FilledRectViews(pen, FrameColor(active), x, y, width, height);
    UnitsPaint(framePen, x, y, width, height, active, UnitCount);
    PaintAppend(pen, frame, units);
    var unitsPen := Paint(framePen, units).pen;
    PowerPaint(unitsPen, x, y, width, active);
    PaintAppend(pen, frame + units, power);
    RackViews(Paint(pen, frame).marks, Paint(framePen, units).marks, Paint(unitsPen, power).marks,
              RectMark(x, y, width, height, FrameColor(active)),
              UnitDots(x, y, height, active, pen.alpha, UnitCount), SlotRects(x, y, width, height, active, UnitCount),
              UnitVents(x, y, width, height, active, UnitCount), PowerRects(x, y, width, active));
  }

  /** A rack's 24 LEDs: slot `i`'s LED `k` is a dot of radius 2 at
      `(x + 15 + 8k, top of slot i + half a slot)`. On an idle rack all of
      them are gray; on an active rack every slot shows green, amber, red. */
  lemma RackLeds(pen: Pen, x: real, y: real, width: real, height: real, active: bool)
    ensures var d := Dots(Paint(pen, RackCommands(x, y, width, height, active)).marks);
            && |d| == 24
            && (forall i, k :: 0 <= i < 8 && 0 <= k < 3 ==>
                  LedAt(d, i, k) == LedDot(x, SlotTop(y, height, i), height / 8.0, LedColors(active)[k], k, pen.alpha))
            && (!active ==> forall t :: 0 <= t < 24 ==> d[t].color == LedGray)
            && (active ==> forall i :: 0 <= i < 8 ==>
                  LedAt(d, i, 0).color == LedGreen && LedAt(d, i, 1).color == LedAmber && LedAt(d, i, 2).color == LedRed)
  {
    RackPaint(pen, x, y, width, height, active);
    UnitDotsAt(x, y, height, active, pen.alpha, UnitCount);
    var d := Dots(Paint(pen, RackCommands(x, y, width, height, active)).marks);
    if !active {
      forall t | 0 <= t < 24
        ensures d[t].color == LedGray
      {
        assert d[t] == LedAt(d, t / 3, t % 3);
      }
    }
  }

  /** A rack's 32 ventilation lines: slot `i`'s line `j` is a vertical
      segment at `x + width - 30 + 5j`, 3 pixels inside the slot's top and
      bottom, one pixel wide. */
  lemma RackVents(pen: Pen, x: real, y: real, width: real, height: real, active: bool)
    ensures var s := Strokes(Paint(pen, RackCommands(x, y, width, height, active)).marks);
            && |s| == 32
            && forall i, j :: 0 <= i < 8 && 0 <= j < 4 ==>
                 VentAt(s, i, j) == VentStroke(x, width, SlotTop(y, height, i), height / 8.0, active, j)
  {
    RackPaint(pen, x, y, width, height, active);
    UnitVentsAt(x, y, width, height, active, UnitCount);
  }

  /** A rack's filled rectangles: the frame, the eight slot backgrounds in
      order, and the power bar exactly when the rack is active. */
  lemma RackRects(pen: Pen, x: real, y: real, width: real, height: real, active: bool)
    ensures var r := Rects(Paint(pen, RackCommands(x, y, width, height, active)).marks);
            && |r| == (if active then 10 else 9)
            && r[0] == RectMark(x, y, width, height, FrameColor(active))
            && (forall i :: 0 <= i < 8 ==> r[i + 1] == SlotRect(x, y, width, height, active, i))
            && (active ==> r[9] == RectMark(x + width - 8.0, y + 5.0, 3.0, 15.0, PowerColor))
  {
    RackPaint(pen, x, y, width, height, active);
    SlotRectsAt(x, y, width, height, active, UnitCount);
  }
}
