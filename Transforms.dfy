/** The transform composer of svg_to_gcode.py: a chain of SVG transform items
    (matrix, translate, rotate, scale; skewX, skewY and unknown names are
    passed over) applied to a point one item at a time, left to right, with
    rounding only at the end. */
module Transforms {
  import opened Common
  import opened Text

  const PI: real := 3.14159265359

  /** What one transform item denotes once its arguments are read. */
  datatype Xform =
    | Matrix(a: real, b: real, c: real, d: real, e: real, f: real)
    | Translate(tx: real, ty: real)
    | Rotate(deg: real, cx: real, cy: real)
    | Scale(sx: real, sy: real)
    | Ignored  // skewX, skewY (a warning is printed) and every other name

  const ItemSeparators: set<char> := {' '}
  const ArgumentSeparators: set<char> := {'(', ',', ')'}

  /** `float(s)`. */
  function Float(nums: Numerics, s: string): (r: Result<real>)
    ensures r.Ok? <==> nums.parse(s).Some?
    ensures r.Ok? ==> nums.parse(s) == Some(r.value)
    ensures r.Err? ==> r.error == NotANumber
  {
    match nums.parse(s)
    case Some(v) => Ok(v)
    case None => Err(NotANumber)
  }

  /** `float(T_split[k])`. */
  function ArgAt(nums: Numerics, parts: seq<string>, k: nat): Result<real> {
    if k < |parts| then Float(nums, parts[k]) else Err(IndexOutOfRange(k))
  }

  /** `[float(g) for g in ss]`: every piece must be a number. */
  function Floats(nums: Numerics, ss: seq<string>): (r: Result<seq<real>>)
    ensures r.Ok? <==> forall k :: 0 <= k < |ss| ==> nums.parse(ss[k]).Some?
    ensures r.Ok? ==> (|r.value| == |ss| &&
      forall k :: 0 <= k < |ss| ==> nums.parse(ss[k]) == Some(r.value[k]))
    ensures r.Err? ==> r.error == NotANumber
  {
    if ss == [] then Ok([])
    else
      var v :- Float(nums, ss[0]);
      var vs :- Floats(nums, ss[1..]);
      assert forall k :: 1 <= k < |ss| ==> ss[k] == ss[1..][k - 1];
      Ok([v] + vs)
  }

  const Supported: set<string> := {"matrix", "translate", "rotate", "scale"}

  /** Reads one item, already split into its name and argument pieces. A
      translate or scale with one argument takes ty = 0 and sy = sx; matrix
      needs exactly six numbers; any other name is passed over. */
  function ParseXform(nums: Numerics, parts: seq<string>): (r: Result<Xform>)
    ensures parts == [] ==> r == Err(IndexOutOfRange(0))
    ensures r.Ok? && r.value.Ignored? <==> parts != [] && parts[0] !in Supported
    ensures r.Ok? && r.value.Matrix? ==> |parts| == 7
    ensures r.Ok? && r.value.Translate? ==>
      |parts| >= 2 && nums.parse(parts[1]) == Some(r.value.tx) &&
      (|parts| == 2 ==> r.value.ty == 0.0)
    ensures r.Ok? && r.value.Scale? ==>
      |parts| >= 2 && nums.parse(parts[1]) == Some(r.value.sx) &&
      (|parts| == 2 ==> r.value.sy == r.value.sx)
    ensures r.Ok? && r.value.Rotate? && |parts| == 2 ==> r.value.cx == 0.0 && r.value.cy == 0.0
  {
    if parts == [] then Err(IndexOutOfRange(0))
    else if parts[0] == "matrix" then
      var vs :- Floats(nums, parts[1..]);
      if |vs| == 6 then Ok(Matrix(vs[0], vs[1], vs[2], vs[3], vs[4], vs[5]))
      else Err(WrongArity)
    else if parts[0] == "translate" then
      var tx :- ArgAt(nums, parts, 1);
      var ty :- if |parts| <= 2 then Ok(0.0) else ArgAt(nums, parts, 2);
      Ok(Translate(tx, ty))
    else if parts[0] == "rotate" then
      var deg :- ArgAt(nums, parts, 1);
      if |parts| >= 3 then
        var cx :- ArgAt(nums, parts, 2);
        var cy :- ArgAt(nums, parts, 3);
        Ok(Rotate(deg, cx, cy))
      else Ok(Rotate(deg, 0.0, 0.0))
    else if parts[0] == "scale" then
      var sx :- ArgAt(nums, parts, 1);
      var sy :- if |parts| <= 2 then Ok(sx) else ArgAt(nums, parts, 2);
      Ok(Scale(sx, sy))
    else Ok(Ignored)
  }

  /** `matrix(a,b,c,d,e,f)`: the six coefficients are the six argument
      pieces in order; a piece that is not a number fails first, then a
      count other than six fails the unpacking. */
  lemma ParseMatrix(nums: Numerics, parts: seq<string>)
    requires parts != [] && parts[0] == "matrix"
    ensures var r := ParseXform(nums, parts);
      && (r.Ok? <==> |parts| == 7 && forall k :: 1 <= k < 7 ==> nums.parse(parts[k]).Some?)
      && (r.Ok? ==>
            r.value.Matrix? &&
            nums.parse(parts[1]) == Some(r.value.a) && nums.parse(parts[2]) == Some(r.value.b) &&
            nums.parse(parts[3]) == Some(r.value.c) && nums.parse(parts[4]) == Some(r.value.d) &&
            nums.parse(parts[5]) == Some(r.value.e) && nums.parse(parts[6]) == Some(r.value.f))
      && (r.Err? ==> r.error == if forall k :: 1 <= k < |parts| ==> nums.parse(parts[k]).Some?
                                then WrongArity else NotANumber)
  {
    var args := parts[1..];
    assert forall k :: 1 <= k < |parts| ==> parts[k] == args[k - 1];
    var vs := Floats(nums, args);
    assert (forall k :: 1 <= k < |parts| ==> nums.parse(parts[k]).Some?) <==>
           (forall k :: 0 <= k < |args| ==> nums.parse(args[k]).Some?);
    if vs.Ok? && |vs.value| == 6 {
      assert nums.parse(args[0]) == Some(vs.value[0]);
    }
  }

  /** `translate(tx[,ty])`: tx is the first argument, ty the second or 0. */
  lemma ParseTranslate(nums: Numerics, parts: seq<string>)
    requires parts != [] && parts[0] == "translate"
    ensures var r := ParseXform(nums, parts);
      && (r.Ok? <==> |parts| >= 2 && nums.parse(parts[1]).Some? &&
                     (|parts| >= 3 ==> nums.parse(parts[2]).Some?))
      && (r.Ok? ==> r.value == Translate(nums.parse(parts[1]).value,
                                         if |parts| >= 3 then nums.parse(parts[2]).value else 0.0))
      && (|parts| < 2 ==> r == Err(IndexOutOfRange(1)))
      && (r.Err? && |parts| >= 2 ==> r.error == NotANumber)
  {
  }

  /** `scale(sx[,sy])`: sx is the first argument, sy the second or sx. */
  lemma ParseScale(nums: Numerics, parts: seq<string>)
    requires parts != [] && parts[0] == "scale"
    ensures var r := ParseXform(nums, parts);
      && (r.Ok? <==> |parts| >= 2 && nums.parse(parts[1]).Some? &&
                     (|parts| >= 3 ==> nums.parse(parts[2]).Some?))
      && (r.Ok? ==> r.value == Scale(nums.parse(parts[1]).value,
                                     if |parts| >= 3 then nums.parse(parts[2]).value
                                     else nums.parse(parts[1]).value))
      && (|parts| < 2 ==> r == Err(IndexOutOfRange(1)))
      && (r.Err? && |parts| >= 2 ==> r.error == NotANumber)
  {
  }

  /** `rotate(a[,cx,cy])`: the angle is the first argument; once a second
      piece is present the centre needs a third one as well. */
  lemma ParseRotate(nums: Numerics, parts: seq<string>)
    requires parts != [] && parts[0] == "rotate"
    ensures var r := ParseXform(nums, parts);
      && (r.Ok? <==> |parts| >= 2 && nums.parse(parts[1]).Some? &&
                     (|parts| >= 3 ==> |parts| >= 4 && nums.parse(parts[2]).Some? && nums.parse(parts[3]).Some?))
      && (r.Ok? ==> r.value == Rotate(nums.parse(parts[1]).value,
                                      if |parts| >= 3 then nums.parse(parts[2]).value else 0.0,
                                      if |parts| >= 3 then nums.parse(parts[3]).value else 0.0))
      && (|parts| < 2 ==> r == Err(IndexOutOfRange(1)))
      && (|parts| == 3 && nums.parse(parts[1]).Some? && nums.parse(parts[2]).Some? ==> r == Err(IndexOutOfRange(3)))
      && (r.Err? && |parts| >= 2 && r.error != IndexOutOfRange(3) ==> r.error == NotANumber)
  {
  }

  /** One item applied to the running point (rx, ry). */
  function ApplyXform(nums: Numerics, t: Xform, p: Point): Point {
    match t
    case Matrix(a, b, c, d, e, f) => Point(a * p.x + c * p.y + e, b * p.x + d * p.y + f)
    case Translate(tx, ty) => Point(p.x + tx, p.y + ty)
    case Rotate(deg, cx, cy) =>
      var angle := deg * 2.0 * PI / 360.0;
      var dx, dy := p.x - cx, p.y - cy;
      Point(cx + dx * Cos(nums, angle) - dy * Sin(nums, angle),
            cy + dx * Sin(nums, angle) + dy * Cos(nums, angle))
    case Scale(sx, sy) => Point(p.x * sx, p.y * sy)
    case Ignored => p
  }

  /** The items of a chain, read and applied left to right. */
  function ApplyItems(nums: Numerics, items: seq<string>, p: Point): Result<Point> {
    if items == [] then Ok(p)
    else
      var t :- ParseXform(nums, Fields(items[0], ArgumentSeparators));
      ApplyItems(nums, items[1..], ApplyXform(nums, t, p))
  }

  /** `transform(x, y, chain)`: the whole chain applied exactly, then rounded.
      An empty chain only rounds, and the result is always a display
      position. */
  function TransformSpec(nums: Numerics, chain: string, p: Point): (r: Result<Point>)
    ensures Fields(chain, ItemSeparators) == [] ==> r == Ok(RoundPoint(nums, p))
    ensures r.Ok? ==> Displayed(nums, r.value)
  {
    var q :- ApplyItems(nums, Fields(chain, ItemSeparators), p);
    assert RoundPoint(nums, q) == RoundPoint(nums, q);
    Ok(RoundPoint(nums, q))
  }

  /** The loop of `transform`, mutating (rx, ry) item by item. */
  method Transform(nums: Numerics, x: real, y: real, chain: string) returns (r: Result<Point>)
    ensures r == TransformSpec(nums, chain, Point(x, y))
  {
    var rx, ry := x, y;
    var items := Fields(chain, ItemSeparators);
    for k := 0 to |items|
      invariant ApplyItems(nums, items[k..], Point(rx, ry)) == ApplyItems(nums, items, Point(x, y))
    {
      ApplyItemsStep(nums, items, k, Point(rx, ry));
      var t :- ParseXform(nums, Fields(items[k], ArgumentSeparators));
      var q := ApplyXform(nums, t, Point(rx, ry));
      rx, ry := q.x, q.y;
    }
    r := Ok(RoundPoint(nums, Point(rx, ry)));
  }

  /** One item of a chain, read off its suffix. */
  lemma ApplyItemsStep(nums: Numerics, items: seq<string>, k: nat, p: Point)
    requires k < |items|
    ensures var x := ParseXform(nums, Fields(items[k], ArgumentSeparators));
      ApplyItems(nums, items[k..], p) ==
        if x.Ok? then ApplyItems(nums, items[k + 1..], ApplyXform(nums, x.value, p)) else Err(x.error)
  {
    assert items[k..][1..] == items[k + 1..];
  }

  /** Applying `a + b` is applying `a`, then `b` to its result: the chain is
      read strictly left to right. */
  lemma {:induction false} ApplyItemsAppend(nums: Numerics, a: seq<string>, b: seq<string>, p: Point)
    ensures ApplyItems(nums, a + b, p) ==
      match ApplyItems(nums, a, p)
      case Ok(q) => ApplyItems(nums, b, q)
      case Err(e) => Err(e)
    decreases |a|
  {
    if a == [] {
      assert a + b == b;
    } else {
      assert (a + b)[0] == a[0];
      assert (a + b)[1..] == a[1..] + b;
      match ParseXform(nums, Fields(a[0], ArgumentSeparators)) {
        case Ok(t) => ApplyItemsAppend(nums, a[1..], b, ApplyXform(nums, t, p));
        case Err(_) =>
      }
    }
  }

  /** An affine map (x, y) -> (a x + c y + e, b x + d y + f), written as SVG
      writes matrix(a b c d e f). */
  datatype Affine = Affine(a: real, b: real, c: real, d: real, e: real, f: real)

  const Identity: Affine := Affine(1.0, 0.0, 0.0, 1.0, 0.0, 0.0)

  function ApplyAffine(m: Affine, p: Point): Point {
    Point(m.a * p.x + m.c * p.y + m.e, m.b * p.x + m.d * p.y + m.f)
  }

  /** The product that applies `first`, then `second`. */
  function Then(first: Affine, second: Affine): Affine {
    Affine(second.a * first.a + second.c * first.b,
           second.b * first.a + second.d * first.b,
           second.a * first.c + second.c * first.d,
           second.b * first.c + second.d * first.d,
           second.a * first.e + second.c * first.f + second.e,
           second.b * first.e + second.d * first.f + second.f)
  }

  lemma ThenApplies(first: Affine, second: Affine, p: Point)
    ensures ApplyAffine(Then(first, second), p) == ApplyAffine(second, ApplyAffine(first, p))
  {
    var q, m := ApplyAffine(first, p), Then(first, second);
    ComposeRow(second.a, second.c, second.e, first.a, first.c, first.e, first.b, first.d, first.f, p.x, p.y);
    ComposeRow(second.b, second.d, second.f, first.a, first.c, first.e, first.b, first.d, first.f, p.x, p.y);
    assert ApplyAffine(m, p).x == ApplyAffine(second, q).x;
    assert ApplyAffine(m, p).y == ApplyAffine(second, q).y;
  }

  /** One row of the product: feeding the rows (a c e) and (b d f) into the
      row (u v w) is the row of the products. */
  lemma ComposeRow(u: real, v: real, w: real, a: real, c: real, e: real, b: real, d: real, f: real,
                   x: real, y: real)
    ensures u * (a * x + c * y + e) + v * (b * x + d * y + f) + w
         == (u * a + v * b) * x + (u * c + v * d) * y + (u * e + v * f + w)
  {
    assert u * (a * x + c * y + e) == (u * a) * x + (u * c) * y + u * e;
    assert v * (b * x + d * y + f) == (v * b) * x + (v * d) * y + v * f;
    assert (u * a + v * b) * x == (u * a) * x + (v * b) * x;
    assert (u * c + v * d) * y == (u * c) * y + (v * d) * y;
  }

  /** The matrix of each item, the rotation with the abstract cosine and sine
      of its angle. */
  function AsAffine(nums: Numerics, t: Xform): Affine {
    match t
    case Matrix(a, b, c, d, e, f) => Affine(a, b, c, d, e, f)
    case Translate(tx, ty) => Affine(1.0, 0.0, 0.0, 1.0, tx, ty)
    case Rotate(deg, cx, cy) =>
      var angle := deg * 2.0 * PI / 360.0;
      var co, si := Cos(nums, angle), Sin(nums, angle);
      Affine(co, si, -si, co, cx - cx * co + cy * si, cy - cx * si - cy * co)
    case Scale(sx, sy) => Affine(sx, 0.0, 0.0, sy, 0.0, 0.0)
    case Ignored => Identity
  }

  /** Every supported item is the affine map of its matrix. */
  lemma XformIsAffine(nums: Numerics, t: Xform, p: Point)
    ensures ApplyXform(nums, t, p) == ApplyAffine(AsAffine(nums, t), p)
  {
    match t {
      case Rotate(deg, cx, cy) =>
        RotateIsAffine(nums, deg, cx, cy, p);
      case Matrix(a, b, c, d, e, f) =>
        assert AsAffine(nums, t) == Affine(a, b, c, d, e, f);
        assert ApplyXform(nums, t, p) == Point(a * p.x + c * p.y + e, b * p.x + d * p.y + f);
      case Translate(tx, ty) =>
        assert ApplyAffine(Affine(1.0, 0.0, 0.0, 1.0, tx, ty), p) == Point(p.x + tx, p.y + ty);
      case Scale(sx, sy) =>
        assert ApplyAffine(Affine(sx, 0.0, 0.0, sy, 0.0, 0.0), p) == Point(p.x * sx, p.y * sy);
      case Ignored =>
        assert ApplyAffine(Identity, p) == p;
    }
  }

  lemma RotateIsAffine(nums: Numerics, deg: real, cx: real, cy: real, p: Point)
    ensures ApplyXform(nums, Rotate(deg, cx, cy), p) == ApplyAffine(AsAffine(nums, Rotate(deg, cx, cy)), p)
  {
    var angle := deg * 2.0 * PI / 360.0;
    var co, si := Cos(nums, angle), Sin(nums, angle);
    RotationIsAffine(co, si, cx, cy, p);
    assert ApplyXform(nums, Rotate(deg, cx, cy), p)
        == Point(cx + (p.x - cx) * co - (p.y - cy) * si, cy + (p.x - cx) * si + (p.y - cy) * co);
    assert AsAffine(nums, Rotate(deg, cx, cy)) == Affine(co, si, -si, co, cx - cx * co + cy * si, cy - cx * si - cy * co);
  }

  lemma RotationIsAffine(co: real, si: real, cx: real, cy: real, p: Point)
    ensures var dx, dy := p.x - cx, p.y - cy;
      && cx + dx * co - dy * si == co * p.x + (-si) * p.y + (cx - cx * co + cy * si)
      && cy + dx * si + dy * co == si * p.x + co * p.y + (cy - cx * si - cy * co)
  {
    RotateRow(co, -si, cx, cy, p.x, p.y);
    RotateRow(si, co, cx, cy, p.x, p.y);
  }

  /** Turning about (cx, cy): cx + (x - cx) k - (y - cy) m is the row
      (k, -m) with offset cx - cx k + cy m. */
  lemma RotateRow(k: real, m: real, cx: real, cy: real, x: real, y: real)
    ensures cx + (x - cx) * k + (y - cy) * m == k * x + m * y + (cx - cx * k - cy * m)
  {
    assert (x - cx) * k == k * x - cx * k;
    assert (y - cy) * m == m * y - cy * m;
  }

  /** The matrices of a chain's items, multiplied in reading order. */
  function ChainAffine(nums: Numerics, items: seq<string>): Result<Affine> {
    if items == [] then Ok(Identity)
    else
      var t :- ParseXform(nums, Fields(items[0], ArgumentSeparators));
      var rest :- ChainAffine(nums, items[1..]);
      Ok(Then(AsAffine(nums, t), rest))
  }

  /** Applying the items one by one, as the source does, gives exactly the
      point that the single pre-multiplied matrix gives, and fails on the same
      chains. */
  lemma {:induction false} ApplyItemsIsOneMatrix(nums: Numerics, items: seq<string>, p: Point)
    ensures ApplyItems(nums, items, p).Ok? <==> ChainAffine(nums, items).Ok?
    ensures ChainAffine(nums, items).Ok? ==>
      ApplyItems(nums, items, p) == Ok(ApplyAffine(ChainAffine(nums, items).value, p))
    decreases |items|
  {
    if items != [] {
      match ParseXform(nums, Fields(items[0], ArgumentSeparators)) {
        case Ok(t) =>
          var q := ApplyXform(nums, t, p);
          ApplyItemsIsOneMatrix(nums, items[1..], q);
          XformIsAffine(nums, t, p);
          if ChainAffine(nums, items[1..]).Ok? {
            ThenApplies(AsAffine(nums, t), ChainAffine(nums, items[1..]).value, p);
          }
        case Err(_) =>
      }
    }
  }
}
