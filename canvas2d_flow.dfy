/** What `drawDataFlow` paints, and how the painted polyline grows with
    the progress value. */
module Canvas2DFlow {
  import opened Base
  import opened Canvas2D
  import opened Canvas2DRack

  /** The path operations of a polyline: move to its first vertex, then a
      line to each of the others. */
  function PolylineOps(path: seq<Point>): (ops: seq<PathOp>)
    requires |path| >= 1
    ensures |ops| == |path| && ops[0] == MoveOp(path[0])
    ensures forall k :: 1 <= k < |path| ==> ops[k] == LineOp(path[k])
  {
    [MoveOp(path[0])] + seq(|path| - 1, k requires 0 <= k < |path| - 1 => LineOp(path[k + 1]))
  }

  /** The style calls and first vertex that open every data flow. */
  function FlowHeader(points: seq<Point>, color: Color): seq<Command>
    requires |points| >= 1
  {
    [SetStrokeStyle(color), SetLineWidth(2.0), SetShadowColor(color), SetShadowBlur(10.0),
     BeginPath, MoveTo(points[0])]
  }

  lemma HeaderStyle(pen: Pen, color: Color)
    ensures var r := Paint(pen, [SetStrokeStyle(color), SetLineWidth(2.0), SetShadowColor(color)]);
            r.marks == [] && r.pen == pen.(stroke := color, lineWidth := 2.0, shadowColor := color)
  {
    var p1 := pen.(stroke := color);
    var p2 := p1.(lineWidth := 2.0);
    var r2 := [SetShadowColor(color)];
    var r1 := [SetLineWidth(2.0)] + r2;
    assert [SetStrokeStyle(color), SetLineWidth(2.0), SetShadowColor(color)] == [SetStrokeStyle(color)] + r1;
    assert Paint(p2, r2) == Painting(p2.(shadowColor := color), []) by { assert r2[1..] == []; }
    PaintCons(p1, SetLineWidth(2.0), r2);
    PaintCons(pen, SetStrokeStyle(color), r1);
  }

  lemma HeaderPath(pen: Pen, p0: Point)
    ensures var r := Paint(pen, [SetShadowBlur(10.0), BeginPath, MoveTo(p0)]);
            r.marks == [] && r.pen == pen.(shadowBlur := 10.0, path := [MoveOp(p0)])
  {
    var p1 := pen.(shadowBlur := 10.0);
    var p2 := p1.(path := []);
    var r2 := [MoveTo(p0)];
    var r1 := [BeginPath] + r2;
    assert [SetShadowBlur(10.0), BeginPath, MoveTo(p0)] == [SetShadowBlur(10.0)] + r1;
    assert p2.path + [MoveOp(p0)] == [MoveOp(p0)];
    assert Paint(p2, r2) == Painting(p2.(path := [MoveOp(p0)]), []) by { assert r2[1..] == []; }
    PaintCons(p1, BeginPath, r2);
    PaintCons(pen, SetShadowBlur(10.0), r1);
  }

  lemma HeaderPaint(pen: Pen, points: seq<Point>, color: Color)
    requires |points| >= 1
    ensures var r := Paint(pen, FlowHeader(points, color));
            r.marks == [] && r.pen == pen.(stroke := color, lineWidth := 2.0, shadowColor := color,
                                           shadowBlur := 10.0, path := [MoveOp(points[0])])
  {
    var a := [SetStrokeStyle(color), SetLineWidth(2.0), SetShadowColor(color)];
    var b := [SetShadowBlur(10.0), BeginPath, MoveTo(points[0])];
    assert FlowHeader(points, color) == a + b;
    HeaderStyle(pen, color);
    HeaderPath(Paint(pen, a).pen, points[0]);
    PaintAppend(pen, a, b);
  }

  /** `lineTo` calls only extend the current path. */
  lemma {:induction false} LineTosPaint(pen: Pen, ps: seq<Point>)
    ensures Paint(pen, LineTos(ps)) == Painting(pen.(path := pen.path + seq(|ps|, k requires 0 <= k < |ps| => LineOp(ps[k]))), [])
    decreases |ps|
  {
    if ps == [] {
      assert pen.path + [] == pen.path;
      assert LineTos(ps) == [];
    } else {
      var rest := ps[1..];
      assert LineTos(ps) == [LineTo(ps[0])] + LineTos(rest);
      var p1 := pen.(path := pen.path + [LineOp(ps[0])]);
      assert Exec(pen, LineTo(ps[0])) == Painting(p1, []);
      PaintCons(pen, LineTo(ps[0]), LineTos(rest));
      LineTosPaint(p1, rest);
      assert p1.path + seq(|rest|, k requires 0 <= k < |rest| => LineOp(rest[k]))
          == pen.path + seq(|ps|, k requires 0 <= k < |ps| => LineOp(ps[k]));
    }
  }

  lemma FooterPaint(pen: Pen)
    ensures var r := Paint(pen, [Stroke, SetShadowBlur(0.0)]);
            r.marks == [StrokeMark(pen.path, pen.stroke, pen.lineWidth)] && r.pen == pen.(shadowBlur := 0.0)
  {
    var tail := [SetShadowBlur(0.0)];
    assert [Stroke, SetShadowBlur(0.0)] == [Stroke] + tail;
    assert Paint(pen, tail) == Painting(pen.(shadowBlur := 0.0), []) by { assert tail[1..] == []; }
    PaintCons(pen, Stroke, tail);
  }

  lemma FlowParts(pen: Pen, head: seq<Command>, lines: seq<Command>, foot: seq<Command>, path: seq<Point>, color: Color)
    requires |path| >= 1
    requires Paint(pen, head) == Painting(pen.(stroke := color, lineWidth := 2.0, shadowColor := color,
                                               shadowBlur := 10.0, path := [MoveOp(path[0])]), [])
    requires var mid := Paint(pen, head).pen;
             Paint(mid, lines) == Painting(mid.(path := PolylineOps(path)), [])
    requires var mid := Paint(pen, head + lines).pen;
             Paint(mid, foot) == Painting(mid.(shadowBlur := 0.0), [StrokeMark(mid.path, mid.stroke, mid.lineWidth)])
    ensures var r := Paint(pen, head + lines + foot);
            && r.marks == [StrokeMark(PolylineOps(path), color, 2.0)]
            && r.pen == pen.(stroke := color, lineWidth := 2.0, shadowColor := color, shadowBlur := 0.0,
                             path := PolylineOps(path))
  {
    PaintAppend(pen, head, lines);
    PaintAppend(pen, head + lines, foot);
  }

  /** `drawDataFlow` paints one thing: a 2-pixel stroke in the flow's
      colour along `DrawnPath`; it leaves the shadow blur at 0 and the
      stroke style, width and shadow colour set to the flow's. With fewer
      than two points it paints nothing and changes nothing. */
  lemma FlowPaint(pen: Pen, points: seq<Point>, progress: real, color: Color)
    ensures var r := Paint(pen, FlowCommands(points, progress, color));
            && (|points| < 2 ==> r == Painting(pen, []))
            && (|points| >= 2 ==>
                  var path := DrawnPath(points, progress);
                  && r.marks == [StrokeMark(PolylineOps(path), color, 2.0)]
                  && r.pen == pen.(stroke := color, lineWidth := 2.0, shadowColor := color, shadowBlur := 0.0,
                                   path := PolylineOps(path)))
  {
    if |points| < 2 {
      PaintNothing(pen);
    } else {
      var path := DrawnPath(points, progress);
      var head := FlowHeader(points, color);
      var lines := LineTos(path[1..]);
      var foot := [Stroke, SetShadowBlur(0.0)];
      assert FlowCommands(points, progress, color) == head + lines + foot;
      HeaderPaint(pen, points, color);
      var mid := Paint(pen, head).pen;
      LineTosPaint(mid, path[1..]);
      assert [MoveOp(path[0])] + seq(|path[1..]|, k requires 0 <= k < |path[1..]| => LineOp(path[1..][k]))
          == PolylineOps(path);
      PaintAppend(pen, head, lines);
      FooterPaint(Paint(pen, head + lines).pen);
      FlowParts(pen, head, lines, foot, path, color);
    }
  }

  // ---------------------------------------------------------------------
  // The drawn polyline as a function of progress

  /** The fraction of the partly drawn segment is in [0, 1). */
  lemma FlowFractionRange(n: nat, progress: real)
    ensures 0.0 <= FlowFraction(n, progress) < 1.0
    ensures FlowIndex(n, progress) as real + FlowFraction(n, progress) == progress * n as real
  {
  }

  /** Progress at or below 0 draws only the first point. */
  lemma DrawnPathAtStart(points: seq<Point>, progress: real)
    requires |points| >= 2 && progress <= 0.0
    ensures DrawnPath(points, progress) == [points[0]]
  {
    var n := |points| - 1;
    assert progress * n as real <= 0.0 by {
      ProductNonNegative(-progress, n as real);
    }
    assert FlowIndex(n, progress) <= 0;
    assert points[..1] == [points[0]];
  }

  /** Progress at or above 1 draws the whole polyline. */
  lemma DrawnPathAtEnd(points: seq<Point>, progress: real)
    requires |points| >= 2 && progress >= 1.0
    ensures DrawnPath(points, progress) == points
  {
    var n := |points| - 1;
    assert progress * n as real >= n as real by {
      ProductNonNegative(progress - 1.0, n as real);
    }
    assert FlowIndex(n, progress) >= n;
    assert points[..n + 1] == points;
  }

  lemma PathAtMonotone(points: seq<Point>, i1: int, f1: real, i2: int, f2: real)
    requires |points| >= 2
    requires i1 < i2 || (i1 == i2 && f1 <= f2)
    ensures var short := PathAt(points, i1, f1);
            var long := PathAt(points, i2, f2);
            |short| <= |long| && short[..|short| - 1] == long[..|short| - 1]
  {
    var n := |points| - 1;
    var short := PathAt(points, i1, f1);
    var long := PathAt(points, i2, f2);
    var w1 := if i1 < 0 then 0 else if i1 > n then n else i1;
    var w2 := if i2 < 0 then 0 else if i2 > n then n else i2;
    assert short[..w1 + 1] == points[..w1 + 1];
    assert long[..w2 + 1] == points[..w2 + 1];
    if 0 <= i1 < n && f1 > 0.0 {
      assert |short| == w1 + 2;
      if i1 == i2 {
        assert |long| == w1 + 2;
        assert short[..|short| - 1] == points[..w1 + 1];
      } else {
        assert w1 + 1 <= w2;
        assert short[..|short| - 1] == points[..w1 + 1];
        assert long[..w1 + 1] == points[..w1 + 1];
      }
    } else {
      assert short == points[..w1 + 1];
      assert w1 <= w2;
      assert long[..w1] == points[..w1];
    }
  }

  /** More progress covers at least as many whole segments, and on the
      same segment at least as large a fraction. */
  lemma FlowIndexMonotone(n: nat, p: real, q: real)
    requires p <= q
    ensures FlowIndex(n, p) <= FlowIndex(n, q)
    ensures FlowIndex(n, p) == FlowIndex(n, q) ==> FlowFraction(n, p) <= FlowFraction(n, q)
  {
    var a := p * n as real;
    var b := q * n as real;
    assert a <= b by {
      var d := q - p;
      var m := n as real;
      assert 0.0 <= d * m;
      calc { d * m; q * m - p * m; b - a; }
    }
    var ip := Floor(a);
    var iq := Floor(b);
    assert ip <= iq;
  }

  /** More progress never draws less: the path for `p` has no more
      vertices than the path for `q >= p`, and all but its last vertex are
      vertices of the longer path too. */
  lemma DrawnPathMonotone(points: seq<Point>, p: real, q: real)
    requires |points| >= 2 && p <= q
    ensures var short := DrawnPath(points, p);
            var long := DrawnPath(points, q);
            |short| <= |long| && short[..|short| - 1] == long[..|short| - 1]
  {
    var n := |points| - 1;
    FlowIndexMonotone(n, p, q);
    PathAtMonotone(points, FlowIndex(n, p), FlowFraction(n, p), FlowIndex(n, q), FlowFraction(n, q));
  }
}
