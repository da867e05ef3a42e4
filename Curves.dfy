/** The parametrised curves the converter samples: the cubic Bézier blend and
    the "line" evaluator, which is a step function rather than a lerp. */
module Curves {
  import opened Common

  /** One coordinate of the cubic Bézier blend
      a(1-t)^3 + 3b t(1-t)^2 + 3c t^2(1-t) + d t^3. */
  function Blend(a: real, b: real, c: real, d: real, t: real): real {
    var s := 1.0 - t;
    a * s * s * s + 3.0 * b * t * s * s + 3.0 * c * t * t * s + d * t * t * t
  }

  /** `bezier(b, T)`: the blend evaluated independently per axis. It starts at
      the first control point and ends at the last one. */
  function Bezier(p0: Point, p1: Point, p2: Point, p3: Point, t: real): (r: Point)
    ensures t == 0.0 ==> r == p0
    ensures t == 1.0 ==> r == p3
  {
    Point(Blend(p0.x, p1.x, p2.x, p3.x, t), Blend(p0.y, p1.y, p2.y, p3.y, t))
  }

  /** The curve handed to `draw_object` as its argument F: every caller
      passes `T -> bezier([p0, p1, p2, p3], T)`. */
  datatype Curve = Cubic(p0: Point, p1: Point, p2: Point, p3: Point)

  /** F(T): the point the curve reaches at parameter `t`. */
  function At(curve: Curve, t: real): Point {
    Bezier(curve.p0, curve.p1, curve.p2, curve.p3, t)
  }

  /** The four Bernstein weights sum to one, so a curve whose control points
      coincide never leaves that point. */
  lemma BezierOfOnePoint(p: Point, t: real)
    ensures Bezier(p, p, p, p, t) == p
  {
    var s := 1.0 - t;
    var w := s * s * s + 3.0 * t * s * s + 3.0 * t * t * s + t * t * t;
    assert w == (s + t) * (s + t) * (s + t);
    assert w == 1.0;
    assert Blend(p.x, p.x, p.x, p.x, t) == p.x * w;
    assert Blend(p.y, p.y, p.y, p.y, t) == p.y * w;
  }

  /** The blend is affine in its control points: moving all four by (dx, dy)
      moves every point of the curve by (dx, dy). */
  lemma BezierTranslates(p0: Point, p1: Point, p2: Point, p3: Point, dx: real, dy: real, t: real)
    ensures Bezier(Shift(p0, dx, dy), Shift(p1, dx, dy), Shift(p2, dx, dy), Shift(p3, dx, dy), t)
         == Shift(Bezier(p0, p1, p2, p3, t), dx, dy)
  {
    BlendShifts(p0.x, p1.x, p2.x, p3.x, dx, t);
    BlendShifts(p0.y, p1.y, p2.y, p3.y, dy, t);
  }

  lemma BlendShifts(a: real, b: real, c: real, d: real, k: real, t: real)
    ensures Blend(a + k, b + k, c + k, d + k, t) == Blend(a, b, c, d, t) + k
  {
    var s := 1.0 - t;
    var w0, w1, w2, w3 := s * s * s, t * s * s, t * t * s, t * t * t;
    assert Blend(a, b, c, d, t) == a * w0 + 3.0 * b * w1 + 3.0 * c * w2 + d * w3;
    assert Blend(a + k, b + k, c + k, d + k, t)
        == (a + k) * w0 + 3.0 * (b + k) * w1 + 3.0 * (c + k) * w2 + (d + k) * w3;
    assert (a + k) * w0 == a * w0 + k * w0;
    assert (b + k) * w1 == b * w1 + k * w1;
    assert (c + k) * w2 == c * w2 + k * w2;
    assert (d + k) * w3 == d * w3 + k * w3;
    assert w0 + 3.0 * w1 + 3.0 * w2 + w3 == (s + t) * (s + t) * (s + t) == 1.0;
    assert k * w0 + 3.0 * k * w1 + 3.0 * k * w2 + k * w3 == k * (w0 + 3.0 * w1 + 3.0 * w2 + w3);
  }

  function Shift(p: Point, dx: real, dy: real): Point {
    Point(p.x + dx, p.y + dy)
  }

  /** `line(l, T)` as written: (x1, y2) for every T < 1, (x2, y2) from T = 1
      on. The y coordinate of the start point is never used. */
  function Line(p1: Point, p2: Point, t: real): (r: Point)
    ensures r.y == p2.y
    ensures t < 1.0 ==> r.x == p1.x
    ensures t >= 1.0 ==> r == p2
  {
    if t < 1.0 then Point(p1.x, p2.y) else p2
  }

  /** The segment (0,0)-(10,10) evaluated at T = 0 gives (0,10): the drawn
      "line" starts off the segment. */
  lemma LineMissesItsStart()
    ensures Line(Point(0.0, 0.0), Point(10.0, 10.0), 0.0) == Point(0.0, 10.0)
    ensures Line(Point(0.0, 0.0), Point(10.0, 10.0), 0.0) != Point(0.0, 0.0)
  {
  }

  /** The evaluator with the start point it evidently means: (x1, y1) before
      T = 1, the end point after, so that both ends are reached. */
  function LineFixed(p1: Point, p2: Point, t: real): (r: Point)
    ensures t < 1.0 ==> r == p1
    ensures t >= 1.0 ==> r == p2
  {
    if t < 1.0 then p1 else p2
  }

  /** Like the Bézier evaluator, the corrected line starts at its first point
      and ends at its last. */
  lemma LineFixedEndpoints(p1: Point, p2: Point)
    ensures LineFixed(p1, p2, 0.0) == p1 && LineFixed(p1, p2, 1.0) == p2
  {
  }
}
