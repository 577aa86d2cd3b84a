/** Shared vocabulary: optional values, results, points, layout positions and the two
    pieces of JavaScript number arithmetic the portfolio relies on. */
module Base {

  datatype Option<+T> = None | Some(value: T)

  datatype Result<+T, +E> = Success(value: T) | Failure(error: E)

  /** A 2D point in CSS pixels; coordinates are exact reals. */
  datatype Point = Point(x: real, y: real)

  /** A robot or room position on a page, in percent of the layout's
      width and height. */
  datatype Position = Position(x: int, y: int)

  /** The point a fraction `s` of the way from `p` to `q`. */
  function Lerp(p: Point, q: Point, s: real): (r: Point)
    ensures s == 0.0 ==> r == p
    ensures s == 1.0 ==> r == q
  {
    Point(p.x + (q.x - p.x) * s, p.y + (q.y - p.y) * s)
  }

  /** `Math.floor` on an exact real. */
  function Floor(r: real): (n: int)
    ensures n as real <= r < n as real + 1.0
  {
    r.Floor
  }

  /** JavaScript's `%` on numbers: truncated division, so the result has
      the sign of the dividend (Dafny's own `%` is Euclidean). */
  function JsMod(a: real, b: real): (r: real)
    requires b != 0.0
    ensures 0.0 <= a && 0.0 < b ==> 0.0 <= r < b
    ensures a < 0.0 && 0.0 < b ==> -b < r <= 0.0
  {
    var q := a / b;
    var t := if q >= 0.0 then q.Floor else -((-q).Floor);
    TruncBounds(a, b, q, t as real);
    a - b * t as real
  }

  /** On non-negative dividends JavaScript's `%` repeats with period `b`. */
  lemma JsModPeriodic(a: real, b: real)
    requires 0.0 <= a && 0.0 < b
    ensures JsMod(a + b, b) == JsMod(a, b)
  {
    var q := a / b;
    DivOfProduct(a + b, q + 1.0, b);
    FloorShift(q);
    var t := q.Floor;
    assert JsMod(a, b) == a - b * t as real;
    assert JsMod(a + b, b) == (a + b) - b * (t + 1) as real;
    assert b * (t + 1) as real == b * t as real + b;
  }

  /** The product of two non-negative reals is non-negative. */
  lemma ProductNonNegative(a: real, b: real)
    requires 0.0 <= a && 0.0 <= b
    ensures 0.0 <= a * b
  {
  }

  /** Division undoes multiplication by a non-zero divisor. */
  lemma DivOfProduct(y: real, x: real, b: real)
    requires b != 0.0 && y == b * x
    ensures y / b == x
  {
  }

  /** Adding one to a real adds one to its floor. */
  lemma FloorShift(x: real)
    ensures (x + 1.0).Floor == x.Floor + 1
  {
    var n := x.Floor;
    assert n as real <= x < n as real + 1.0;
    assert (n + 1) as real <= x + 1.0 < (n + 1) as real + 1.0;
  }

  lemma TruncBounds(a: real, b: real, q: real, t: real)
    requires b != 0.0 && a == b * q
    requires q >= 0.0 ==> t <= q < t + 1.0
    requires q < 0.0 ==> t - 1.0 < q <= t
    ensures 0.0 <= a && 0.0 < b ==> 0.0 <= a - b * t < b
    ensures a < 0.0 && 0.0 < b ==> -b < a - b * t <= 0.0
  {
    if 0.0 < b {
      if q >= 0.0 {
        var d := q - t;
        assert 0.0 <= b * d;
        calc { b * d; b * q - b * t; a - b * t; }
        var e := t + 1.0 - q;
        assert 0.0 < b * e;
        calc { b * e; b * (t + 1.0) - b * q; b * t + b - a; }
      } else {
        assert a < 0.0 by { assert 0.0 < b * -q; }
        var d := q - t + 1.0;
        assert 0.0 < b * d;
        calc { b * d; b * q - b * t + b; a - b * t + b; }
        var e := t - q;
        assert 0.0 <= b * e;
        calc { b * e; b * t - b * q; b * t - a; }
      }
    }
  }

  lemma ConcatAssoc<T>(a: seq<T>, b: seq<T>, c: seq<T>)
    ensures a + b + c == a + (b + c)
  {
  }

  /** `f` applied to each element, the results joined in order. */
  function ConcatMap<A, B>(xs: seq<A>, f: A -> seq<B>): seq<B> {
    if xs == [] then [] else ConcatMap(xs[..|xs| - 1], f) + f(xs[|xs| - 1])
  }

  lemma ConcatMapSingle<A, B>(x: A, f: A -> seq<B>)
    ensures ConcatMap([x], f) == f(x)
  {
    assert [x][..0] == [];
  }

  lemma {:induction false} ConcatMapAppend<A, B>(xs: seq<A>, ys: seq<A>, f: A -> seq<B>)
    ensures ConcatMap(xs + ys, f) == ConcatMap(xs, f) + ConcatMap(ys, f)
    decreases |ys|
  {
    if ys == [] {
      assert xs + ys == xs;
    } else {
      var front := ys[..|ys| - 1];
      assert (xs + ys)[..|xs + ys| - 1] == xs + front;
      assert (xs + ys)[|xs + ys| - 1] == ys[|ys| - 1];
      ConcatMapAppend(xs, front, f);
    }
  }
}
