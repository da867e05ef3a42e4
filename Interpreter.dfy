/** `path_to_gcode` of svg_to_gcode.py: an index-driven walk over the absolute
    token list that `relative_to_absolute` produced, writing pen moves for M
    and L, flattening cubic Bezier segments with `draw_object`, and lifting
    the pen at the end. Every point goes through `transform` first. */
module Interpreter {
  import opened Common
  import opened Curves
  import opened Transforms
  import opened Flattener
  import opened Preprocess

  /** The state of the loop: the index i, the pen (cx, cy) and the G-code
      written so far. */
  datatype Pen = Pen(i: int, cursor: Point, out: seq<GLine>)

  const PenStart: Pen := Pen(0, Origin, [])

  /** `transform(float(p[j]), float(p[j+1]), transformation)`. */
  function PointAt(nums: Numerics, chain: string, p: seq<Token>, j: int): (r: Result<Point>)
    ensures r.Ok? ==> Displayed(nums, r.value)
  {
    var x :- NumAt(p, j);
    var y :- NumAt(p, j + 1);
    TransformSpec(nums, chain, Point(x, y))
  }

  /** The four control points of a segment: the first pair at `first`, the
      other three at `second`, `second + 2` and `second + 4`. */
  datatype Controls = Controls(p0: Point, p1: Point, p2: Point, p3: Point)

  function ControlsAt(nums: Numerics, chain: string, p: seq<Token>, first: int, second: int): (r: Result<Controls>)
    ensures r.Ok? ==> && PointAt(nums, chain, p, first) == Ok(r.value.p0)
                      && PointAt(nums, chain, p, second) == Ok(r.value.p1)
                      && PointAt(nums, chain, p, second + 2) == Ok(r.value.p2)
                      && PointAt(nums, chain, p, second + 4) == Ok(r.value.p3)
  {
    var p0 :- PointAt(nums, chain, p, first);
    var p1 :- PointAt(nums, chain, p, second);
    var p2 :- PointAt(nums, chain, p, second + 2);
    var p3 :- PointAt(nums, chain, p, second + 4);
    Ok(Controls(p0, p1, p2, p3))
  }

  /** Whether token t takes the branch for command c. */
  predicate IsCmd(t: Token, c: char) {
    t == Cmd(c)
  }

  /** One pass of the while loop of `path_to_gcode`, for `i < len(p)`. */
  function Pass(cfg: Config, nums: Numerics, chain: string, p: seq<Token>, s: Pen, fuel: nat): (r: Result<Pen>)
    requires 0 <= s.i < |p|
    ensures r.Ok? ==> s.i < r.value.i && |s.out| <= |r.value.out| && r.value.out[..|s.out|] == s.out
    ensures IsCmd(p[s.i], 'M') || IsCmd(p[s.i], 'L') ==> (r.Ok? <==> PointAt(nums, chain, p, s.i + 1).Ok?)
    ensures IsCmd(p[s.i], 'Z') ==> r.Err?
    ensures r.Ok? && IsCmd(p[s.i], 'M') ==>
      && r.value.i == s.i + 3
      && PointAt(nums, chain, p, s.i + 1) == Ok(r.value.cursor)
      && r.value.out == s.out + [G1(r.value.cursor), M3, G4(cfg.pauseStart)]
    ensures r.Ok? && IsCmd(p[s.i], 'L') ==>
      && r.value.i == s.i + 3
      && PointAt(nums, chain, p, s.i + 1) == Ok(r.value.cursor)
      && r.value.out == s.out + [G1(r.value.cursor)]
  {
    if IsCmd(p[s.i], 'M') || IsCmd(p[s.i], 'L') then
      var q :- PointAt(nums, chain, p, s.i + 1);
      var lines := if IsCmd(p[s.i], 'M') then [G1(q), M3, G4(cfg.pauseStart)] else [G1(q)];
      assert (s.out + lines)[..|s.out|] == s.out;
      Ok(Pen(s.i + 3, q, s.out + lines))
    else if IsCmd(p[s.i], 'Z') then
      var q :- PointAt(nums, chain, p, 1);
      Err(UndefinedName)
    else
      CurvePass(cfg, nums, chain, p, s, fuel)
  }

  /** Where the second control point of a curve is read: after the C tag,
      or at the token itself. */
  function Second(p: seq<Token>, i: int): int
    requires 0 <= i < |p|
  {
    if IsCmd(p[i], 'C') then i + 1 else i
  }

  /** The C branch, and the branch for any other token, which reads it as
      the first number of a six-number continuation. The start control
      point is read from the two tokens before index i, not from the pen;
      the pen becomes the cursor `draw_object` returns. */
  function CurvePass(cfg: Config, nums: Numerics, chain: string, p: seq<Token>, s: Pen, fuel: nat): (r: Result<Pen>)
    requires 0 <= s.i < |p|
    ensures r.Ok? ==> s.i < r.value.i && |s.out| <= |r.value.out| && r.value.out[..|s.out|] == s.out
  {
    Advance(p, s, Segment(cfg, nums, chain, p, s.i - 2, Second(p, s.i), s.cursor, fuel))
  }

  /** A curve pass fails exactly when a control point cannot be read or
      transformed, or `draw_object` fails; it has no failure of its own. */
  lemma CurvePassSucceeds(cfg: Config, nums: Numerics, chain: string, p: seq<Token>, s: Pen, fuel: nat)
    requires 0 <= s.i < |p|
    ensures CurvePass(cfg, nums, chain, p, s, fuel).Ok? <==>
      && ControlsAt(nums, chain, p, s.i - 2, Second(p, s.i)).Ok?
      && var c := ControlsAt(nums, chain, p, s.i - 2, Second(p, s.i)).value;
         DrawSpec(cfg, nums, Cubic(c.p0, c.p1, c.p2, c.p3), s.cursor, false, false, fuel).Ok?
  {
  }

  /** The pen after a curve pass, from what `draw_object` returned. */
  function Advance(p: seq<Token>, s: Pen, segment: Result<Drawing>): (r: Result<Pen>)
    requires 0 <= s.i < |p|
    ensures r.Ok? ==> s.i < r.value.i && |s.out| <= |r.value.out| && r.value.out[..|s.out|] == s.out
  {
    var d :- segment;
    assert (s.out + d.gcode)[..|s.out|] == s.out;
    Ok(Pen(Second(p, s.i) + 6, d.cursor, s.out + d.gcode))
  }

  /** The four control points read and transformed, and the segment they
      span flattened from `cursor` with the pen left as it is. */
  function Segment(cfg: Config, nums: Numerics, chain: string, p: seq<Token>, first: int, second: int,
                   cursor: Point, fuel: nat): Result<Drawing>
  {
    var c :- ControlsAt(nums, chain, p, first, second);
    DrawSpec(cfg, nums, Cubic(c.p0, c.p1, c.p2, c.p3), cursor, false, false, fuel)
  }

  /** A curve pass reads its four control points, the first from the two
      tokens before index i whatever the pen, flattens the Bezier segment
      they span from the pen without lifting or lowering it, appends what
      `draw_object` wrote, moves the pen to the cursor it returned, and
      advances 7 after a C tag and 6 otherwise. */
  lemma CurvePassDraws(cfg: Config, nums: Numerics, chain: string, p: seq<Token>, s: Pen, fuel: nat)
    requires 0 <= s.i < |p| && CurvePass(cfg, nums, chain, p, s, fuel).Ok?
    ensures var r := CurvePass(cfg, nums, chain, p, s, fuel).value;
      && r.i == s.i + (if IsCmd(p[s.i], 'C') then 7 else 6)
      && ControlsAt(nums, chain, p, s.i - 2, Second(p, s.i)).Ok?
      && var c := ControlsAt(nums, chain, p, s.i - 2, Second(p, s.i)).value;
         DrawSpec(cfg, nums, Cubic(c.p0, c.p1, c.p2, c.p3), s.cursor, false, false, fuel)
           == Ok(Drawing(r.out[|s.out|..], r.cursor))
  {
    var r := CurvePass(cfg, nums, chain, p, s, fuel).value;
    var c := ControlsAt(nums, chain, p, s.i - 2, Second(p, s.i)).value;
    var d := DrawSpec(cfg, nums, Cubic(c.p0, c.p1, c.p2, c.p3), s.cursor, false, false, fuel).value;
    assert r.out == s.out + d.gcode;
    assert r.out[|s.out|..] == d.gcode;
  }

  /** The while loop from state `s` on. */
  function PassLoop(cfg: Config, nums: Numerics, chain: string, p: seq<Token>, s: Pen, fuel: nat): (r: Result<Pen>)
    requires 0 <= s.i
    ensures r.Ok? ==> r.value.i >= |p| && |s.out| <= |r.value.out| && r.value.out[..|s.out|] == s.out
    decreases |p| - s.i
  {
    if s.i >= |p| then Ok(s)
    else
      var s' :- Pass(cfg, nums, chain, p, s, fuel);
      PassLoop(cfg, nums, chain, p, s', fuel)
  }

  /** `path_to_gcode(p, transformation)`: the loop from the origin, then the
      pen lifted with M5 and a pause of pause_end. */
  function PathSpec(cfg: Config, nums: Numerics, chain: string, p: seq<Token>, fuel: nat): (r: Result<seq<GLine>>)
    ensures r.Ok? ==> |r.value| >= 2 && r.value[|r.value| - 2..] == [M5, G4(cfg.pauseEnd)]
  {
    var f :- PassLoop(cfg, nums, chain, p, PenStart, fuel);
    Ok(f.out + [M5, G4(cfg.pauseEnd)])
  }

  /** Two numbers read and sent through `transform`. */
  method ReadPoint(nums: Numerics, chain: string, p: seq<Token>, j: int) returns (r: Result<Point>)
    ensures r == PointAt(nums, chain, p, j)
  {
    var x :- NumAt(p, j);
    var y :- NumAt(p, j + 1);
    r := Transform(nums, x, y, chain);
  }

  /** The body of the while loop of `path_to_gcode`. */
  method RunPass(cfg: Config, nums: Numerics, chain: string, p: seq<Token>, s: Pen, fuel: nat)
    returns (r: Result<Pen>)
    requires 0 <= s.i < |p|
    ensures r == Pass(cfg, nums, chain, p, s, fuel)
  {
    if IsCmd(p[s.i], 'M') {
      var q :- ReadPoint(nums, chain, p, s.i + 1);
      r := Ok(Pen(s.i + 3, q, s.out + [G1(q), M3, G4(cfg.pauseStart)]));
    } else if IsCmd(p[s.i], 'L') {
      var q :- ReadPoint(nums, chain, p, s.i + 1);
      r := Ok(Pen(s.i + 3, q, s.out + [G1(q)]));
    } else if IsCmd(p[s.i], 'Z') {
      var q :- ReadPoint(nums, chain, p, 1);
      r := Err(UndefinedName);
    } else {
      r := RunCurve(cfg, nums, chain, p, s, fuel);
    }
  }

  /** The two curve branches, through `transform` and `draw_object`. */
  method RunCurve(cfg: Config, nums: Numerics, chain: string, p: seq<Token>, s: Pen, fuel: nat)
    returns (r: Result<Pen>)
    requires 0 <= s.i < |p|
    ensures r == CurvePass(cfg, nums, chain, p, s, fuel)
  {
    var segment := FlattenSegment(cfg, nums, chain, p, s.i - 2, Second(p, s.i), s.cursor, fuel);
    CurvePassAdvances(cfg, nums, chain, p, s, fuel, segment);
    var d :- segment;
    r := Ok(Pen(Second(p, s.i) + 6, d.cursor, s.out + d.gcode));
  }

  lemma CurvePassAdvances(cfg: Config, nums: Numerics, chain: string, p: seq<Token>, s: Pen, fuel: nat,
                          segment: Result<Drawing>)
    requires 0 <= s.i < |p|
    requires segment == Segment(cfg, nums, chain, p, s.i - 2, Second(p, s.i), s.cursor, fuel)
    ensures CurvePass(cfg, nums, chain, p, s, fuel) == Advance(p, s, segment)
  {
  }

  method FlattenSegment(cfg: Config, nums: Numerics, chain: string, p: seq<Token>, first: int, second: int,
                        cursor: Point, fuel: nat) returns (r: Result<Drawing>)
    ensures r == Segment(cfg, nums, chain, p, first, second, cursor, fuel)
  {
    var c :- ReadControls(nums, chain, p, first, second);
    r := DrawSegment(cfg, nums, c, cursor, fuel);
  }

  /** `draw_object(bezier, [P1x, P1y, ..., P4y], cx, cy, DOWN = False, UP = False)`. */
  method DrawSegment(cfg: Config, nums: Numerics, c: Controls, cursor: Point, fuel: nat)
    returns (r: Result<Drawing>)
    ensures r == DrawSpec(cfg, nums, Cubic(c.p0, c.p1, c.p2, c.p3), cursor, false, false, fuel)
  {
    r := DrawObject(cfg, nums, Cubic(c.p0, c.p1, c.p2, c.p3), cursor, false, false, fuel);
  }

  method ReadControls(nums: Numerics, chain: string, p: seq<Token>, first: int, second: int)
    returns (r: Result<Controls>)
    ensures r == ControlsAt(nums, chain, p, first, second)
  {
    var p0 :- ReadPoint(nums, chain, p, first);
    var p1 :- ReadPoint(nums, chain, p, second);
    var p2 :- ReadPoint(nums, chain, p, second + 2);
    var p3 :- ReadPoint(nums, chain, p, second + 4);
    r := Ok(Controls(p0, p1, p2, p3));
  }

  /** `path_to_gcode`: the index, the pen and the G-code updated pass by
      pass. (The exact position (rx, ry) that the source also declares is
      never read.) */
  method PathToGcode(cfg: Config, nums: Numerics, p: seq<Token>, chain: string, fuel: nat)
    returns (r: Result<seq<GLine>>)
    ensures r == PathSpec(cfg, nums, chain, p, fuel)
  {
    var i := 0;
    var cx, cy := 0.0, 0.0;
    var gcode: seq<GLine> := [];
    while i < |p|
      invariant 0 <= i
      invariant PassLoop(cfg, nums, chain, p, Pen(i, Point(cx, cy), gcode), fuel)
             == PassLoop(cfg, nums, chain, p, PenStart, fuel)
      decreases |p| - i
    {
      var s :- RunPass(cfg, nums, chain, p, Pen(i, Point(cx, cy), gcode), fuel);
      i, cx, cy, gcode := s.i, s.cursor.x, s.cursor.y, s.out;
    }
    r := Ok(gcode + [M5, G4(cfg.pauseEnd)]);
  }

  lemma AllDisplayedAppend(nums: Numerics, a: seq<GLine>, b: seq<GLine>)
    requires AllDisplayed(nums, a) && AllDisplayed(nums, b)
    ensures AllDisplayed(nums, a + b)
  {
    forall k | 0 <= k < |a + b| && (a + b)[k].G1? ensures Displayed(nums, (a + b)[k].to) {
      if k >= |a| {
        assert (a + b)[k] == b[k - |a|];
      }
    }
  }

  /** What every pass keeps: the pen is the target of the last G1 written
      (the origin before any), and every G1 goes to a display position. */
  ghost predicate PenTracks(nums: Numerics, s: Pen) {
    s.cursor == LastG1(s.out, Origin) && AllDisplayed(nums, s.out)
  }

  lemma MoveKeepsPen(cfg: Config, nums: Numerics, s: Pen, q: Point, lines: seq<GLine>)
    requires PenTracks(nums, s) && Displayed(nums, q)
    requires lines == [G1(q), M3, G4(cfg.pauseStart)] || lines == [G1(q)]
    ensures PenTracks(nums, Pen(s.i + 3, q, s.out + lines))
  {
    LastG1Append(s.out, lines, Origin);
    var from := LastG1(s.out, Origin);
    assert LastG1([G1(q)], from) == q;
    if |lines| == 3 {
      assert lines[..2] == [G1(q), M3] && [G1(q), M3][..1] == [G1(q)];
      assert LastG1(lines, from) == LastG1([G1(q), M3], from) == LastG1([G1(q)], from);
    }
    AllDisplayedAppend(nums, s.out, lines);
  }

  lemma CurveKeepsPen(cfg: Config, nums: Numerics, chain: string, p: seq<Token>, s: Pen, fuel: nat)
    requires 0 <= s.i < |p| && PenTracks(nums, s)
    requires CurvePass(cfg, nums, chain, p, s, fuel).Ok?
    ensures PenTracks(nums, CurvePass(cfg, nums, chain, p, s, fuel).value)
  {
    var r := CurvePass(cfg, nums, chain, p, s, fuel).value;
    CurvePassDraws(cfg, nums, chain, p, s, fuel);
    var c := ControlsAt(nums, chain, p, s.i - 2, Second(p, s.i)).value;
    var curve := Cubic(c.p0, c.p1, c.p2, c.p3);
    var g := r.out[|s.out|..];
    DrawCursorIsLastWritten(cfg, nums, curve, s.cursor, false, fuel);
    DrawWritesDisplayedPoints(cfg, nums, curve, s.cursor, false, fuel);
    assert r.out == s.out + g;
    LastG1Append(s.out, g, Origin);
    AllDisplayedAppend(nums, s.out, g);
  }

  lemma PassKeepsPen(cfg: Config, nums: Numerics, chain: string, p: seq<Token>, s: Pen, fuel: nat)
    requires 0 <= s.i < |p| && PenTracks(nums, s)
    requires Pass(cfg, nums, chain, p, s, fuel).Ok?
    ensures PenTracks(nums, Pass(cfg, nums, chain, p, s, fuel).value)
  {
    var r := Pass(cfg, nums, chain, p, s, fuel).value;
    if IsCmd(p[s.i], 'M') {
      MoveKeepsPen(cfg, nums, s, r.cursor, [G1(r.cursor), M3, G4(cfg.pauseStart)]);
    } else if IsCmd(p[s.i], 'L') {
      MoveKeepsPen(cfg, nums, s, r.cursor, [G1(r.cursor)]);
    } else {
      CurveKeepsPen(cfg, nums, chain, p, s, fuel);
    }
  }

  lemma {:induction false} PassLoopKeepsPen(cfg: Config, nums: Numerics, chain: string, p: seq<Token>,
                                            s: Pen, fuel: nat)
    requires 0 <= s.i && PenTracks(nums, s)
    requires PassLoop(cfg, nums, chain, p, s, fuel).Ok?
    ensures PenTracks(nums, PassLoop(cfg, nums, chain, p, s, fuel).value)
    decreases |p| - s.i
  {
    if s.i < |p| {
      PassKeepsPen(cfg, nums, chain, p, s, fuel);
      PassLoopKeepsPen(cfg, nums, chain, p, Pass(cfg, nums, chain, p, s, fuel).value, fuel);
    }
  }

  /** The pen `path_to_gcode` ends with is the last point it moved to, and
      every G1 line it writes goes to a rounded (display) position. */
  lemma PathWritesDisplayedPoints(cfg: Config, nums: Numerics, chain: string, p: seq<Token>, fuel: nat)
    requires PathSpec(cfg, nums, chain, p, fuel).Ok?
    ensures var f := PassLoop(cfg, nums, chain, p, PenStart, fuel).value;
      f.cursor == LastG1(f.out, Origin)
    ensures AllDisplayed(nums, PathSpec(cfg, nums, chain, p, fuel).value)
  {
    PassLoopKeepsPen(cfg, nums, chain, p, PenStart, fuel);
    var f := PassLoop(cfg, nums, chain, p, PenStart, fuel).value;
    AllDisplayedAppend(nums, f.out, [M5, G4(cfg.pauseEnd)]);
  }
}
