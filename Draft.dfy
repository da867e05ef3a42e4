/** parser.py, the earlier draft of the converter: a fixed-step sampler
    `draw_object` and a `path_to_gcode` that reads whitespace-separated
    tokens whose first character is the command. Points are written exactly
    as sampled, never rounded. */
module Draft {
  import opened Common
  import opened Text
  import opened Curves
  import Transforms

  /** The globals of parser.py. */
  const DlMin: real := 1.0     // dl_min
  const DT: real := 0.01       // dT
  const PauseStart: int := 200 // PAUSE_start
  const PauseEnd: int := 400   // PAUSE_end

  /** ceil((end - t) / dT): the passes left before T reaches `end`. */
  function Remaining(t: real, end: real): nat {
    if t >= end then 0 else -((t - end) / DT).Floor
  }

  lemma RemainingShrinks(t: real, end: real)
    requires t < end
    ensures Remaining(t + DT, end) == Remaining(t, end) - 1
  {
    var x := (t - end) / DT;
    assert (t + DT - end) / DT == x + 1.0;
    assert (x + 1.0).Floor == x.Floor + 1;
  }

  /** The state of the while loop: T, the last written point (x, y), and the
      points written so far. */
  datatype Sample = Sample(t: real, anchor: Point, picked: seq<Point>)

  /** One pass: a point closer than dl_min to the anchor is skipped; any
      other is written and becomes the anchor. T always grows by dT. */
  function Tick(nums: Numerics, curve: Curve, s: Sample): Sample {
    var p := At(curve, s.t);
    if Distance(nums, s.anchor, p) < DlMin then Sample(s.t + DT, s.anchor, s.picked)
    else Sample(s.t + DT, p, s.picked + [p])
  }

  function SampleLoop(nums: Numerics, curve: Curve, end: real, s: Sample): (r: Sample)
    ensures r.t >= end
    ensures |s.picked| <= |r.picked| && r.picked[..|s.picked|] == s.picked
    decreases Remaining(s.t, end)
  {
    if s.t >= end then s
    else
      RemainingShrinks(s.t, end);
      SampleLoop(nums, curve, end, Tick(nums, curve, s))
  }

  /** The lines for the written points, unrounded. */
  function Written(ps: seq<Point>): (r: seq<GLine>)
    ensures |r| == |ps| && forall k :: 0 <= k < |ps| ==> r[k] == G1(ps[k])
  {
    seq(|ps|, k requires 0 <= k < |ps| => G1(ps[k]))
  }

  function Head(curve: Curve, start: real, down: bool): seq<GLine> {
    [G1(At(curve, start))] + (if down then [M3, G4(PauseStart)] else [])
  }

  function Tail(up: bool): seq<GLine> {
    if up then [M5, G4(PauseEnd)] else []
  }

  /** `draw_object(F, I, start, end, DOWN, UP)` of parser.py. The start point
      is written whether or not the pen is lowered; M3 appears exactly when
      DOWN is set and M5 exactly when UP is; the end point is always
      written, last before the pen-up suffix. */
  function DrawSpec(nums: Numerics, curve: Curve, start: real, end: real, down: bool, up: bool)
    : (r: seq<GLine>)
    ensures |r| >= |Tail(up)| + 1 && |r| >= 2 && r[0] == G1(At(curve, start))
    ensures M3 in r <==> down
    ensures M5 in r <==> up
    ensures r[|r| - |Tail(up)| - 1] == G1(At(curve, end)) && r[|r| - |Tail(up)|..] == Tail(up)
  {
    var s := SampleLoop(nums, curve, end, Sample(start + DT, At(curve, start), []));
    var r := Head(curve, start, down) + Written(s.picked) + [G1(At(curve, end))] + Tail(up);
    assert r[|r| - |Tail(up)|..] == Tail(up);
    assert up ==> r[|r| - 2] == M5;
    assert down ==> r[1] == M3;
    r
  }

  /** `draw_object` of parser.py: the start point (and the pen lowered),
      the sampling loop, the end point (and the pen lifted). */
  method DrawObject(nums: Numerics, curve: Curve, start: real, end: real, down: bool, up: bool)
    returns (gcode: seq<GLine>)
    ensures gcode == DrawSpec(nums, curve, start, end, down, up)
  {
    var lines := Sampling(nums, curve, start, end);
    DrawSpecSplits(nums, curve, start, end, down, up, lines);
    gcode := Head(curve, start, down) + lines + [G1(At(curve, end))] + Tail(up);
  }

  lemma DrawSpecSplits(nums: Numerics, curve: Curve, start: real, end: real, down: bool, up: bool,
                       lines: seq<GLine>)
    requires lines == Written(SampleLoop(nums, curve, end, Sample(start + DT, At(curve, start), [])).picked)
    ensures DrawSpec(nums, curve, start, end, down, up) == Head(curve, start, down) + lines + [G1(At(curve, end))] + Tail(up)
  {
  }

  /** The while loop of `draw_object`, with T, the anchor (x, y) and the
      G-code updated pass by pass. */
  method Sampling(nums: Numerics, curve: Curve, start: real, end: real) returns (gcode: seq<GLine>)
    ensures gcode == Written(SampleLoop(nums, curve, end, Sample(start + DT, At(curve, start), [])).picked)
  {
    var t := start + DT;
    var anchor := At(curve, start);
    gcode := [];
    ghost var picked: seq<Point> := [];
    while t < end
      invariant SampleLoop(nums, curve, end, Sample(t, anchor, picked))
             == SampleLoop(nums, curve, end, Sample(start + DT, At(curve, start), []))
      invariant gcode == Written(picked)
      decreases Remaining(t, end)
    {
      RemainingShrinks(t, end);
      var p := At(curve, t);
      if Distance(nums, anchor, p) < DlMin {
        t := t + DT;
      } else {
        assert Written(picked + [p]) == Written(picked) + [G1(p)];
        gcode := gcode + [G1(p)];
        picked := picked + [p];
        t := t + DT;
        anchor := p;
      }
    }
  }

  /** The loop stops at T = start + n dT for n = ceil((end - start) / dT),
      having made exactly n passes. */
  lemma {:induction false} SampleLoopStops(nums: Numerics, curve: Curve, end: real, s: Sample)
    ensures SampleLoop(nums, curve, end, s).t == s.t + (Remaining(s.t, end) as real) * DT
    decreases Remaining(s.t, end)
  {
    if s.t < end {
      RemainingShrinks(s.t, end);
      SampleLoopStops(nums, curve, end, Tick(nums, curve, s));
    }
  }

  /** Each pass writes at most one point, so the loop writes at most
      ceil((end - start) / dT) of them. */
  lemma {:induction false} SampleLoopWritesAtMost(nums: Numerics, curve: Curve, end: real, s: Sample)
    ensures |SampleLoop(nums, curve, end, s).picked| <= |s.picked| + Remaining(s.t, end)
    decreases Remaining(s.t, end)
  {
    if s.t < end {
      RemainingShrinks(s.t, end);
      SampleLoopWritesAtMost(nums, curve, end, Tick(nums, curve, s));
    }
  }

  /** The anchor before the k-th written point: the start point, then each
      written point in turn. */
  function Anchor(from: Point, picked: seq<Point>, k: nat): Point
    requires k <= |picked|
  {
    if k == 0 then from else picked[k - 1]
  }

  /** Every written point lies at least dl_min from the point written before
      it, and the anchor is the last written point. */
  ghost predicate Spaced(nums: Numerics, from: Point, s: Sample) {
    && s.anchor == Anchor(from, s.picked, |s.picked|)
    && forall k {:trigger Anchor(from, s.picked, k)} :: 0 <= k < |s.picked| ==>
         Distance(nums, Anchor(from, s.picked, k), s.picked[k]) >= DlMin
  }

  lemma TickKeepsSpaced(nums: Numerics, curve: Curve, from: Point, s: Sample)
    requires Spaced(nums, from, s)
    ensures Spaced(nums, from, Tick(nums, curve, s))
  {
    var p := At(curve, s.t);
    if Distance(nums, s.anchor, p) >= DlMin {
      var picked := s.picked + [p];
      forall k | 0 <= k < |picked|
        ensures Distance(nums, Anchor(from, picked, k), picked[k]) >= DlMin
      {
        if k < |s.picked| {
          assert Anchor(from, picked, k) == Anchor(from, s.picked, k);
        }
      }
    }
  }

  lemma {:induction false} SampleLoopSpaced(nums: Numerics, curve: Curve, end: real, from: Point, s: Sample)
    requires Spaced(nums, from, s)
    ensures Spaced(nums, from, SampleLoop(nums, curve, end, s))
    decreases Remaining(s.t, end)
  {
    if s.t < end {
      RemainingShrinks(s.t, end);
      TickKeepsSpaced(nums, curve, from, s);
      SampleLoopSpaced(nums, curve, end, from, Tick(nums, curve, s));
    }
  }

  /** `draw_object` of parser.py samples T = start + k dT for k = 1, 2, ...
      while T < end, and writes a sample only when it lies at least dl_min
      from the last written point (the start point at first). */
  lemma DrawSamplesSpaced(nums: Numerics, curve: Curve, start: real, end: real)
    ensures var s := SampleLoop(nums, curve, end, Sample(start + DT, At(curve, start), []));
      && Spaced(nums, At(curve, start), s)
      && |s.picked| <= Remaining(start + DT, end)
      && s.t == start + DT + (Remaining(start + DT, end) as real) * DT
  {
    var s0 := Sample(start + DT, At(curve, start), []);
    SampleLoopSpaced(nums, curve, end, At(curve, start), s0);
    SampleLoopWritesAtMost(nums, curve, end, s0);
    SampleLoopStops(nums, curve, end, s0);
  }

  /** The state of `path_to_gcode` of parser.py: the index, the pen (cx, cy)
      and the G-code written so far. */
  datatype Pen = Pen(i: int, cursor: Point, out: seq<GLine>)

  /** `float(p[j])`. */
  function NumberAt(nums: Numerics, p: seq<string>, j: int): (r: Result<real>)
    requires 0 <= j
    ensures r.Ok? <==> j < |p| && nums.parse(p[j]).Some?
    ensures r.Ok? ==> nums.parse(p[j]) == Some(r.value)
  {
    if j < |p| then Transforms.Float(nums, p[j]) else Err(IndexOutOfRange(j))
  }

  /** The pair a move reads: the number glued to the token at `j` and the
      next token. The line is formatted (indexing p[j + 1]) before either is
      read as a number. */
  function PairAt(nums: Numerics, p: seq<string>, j: int): (r: Result<Point>)
    requires 0 <= j < |p|
    ensures r.Ok? <==> j + 1 < |p| && nums.parse(Drop1(p[j])).Some? && nums.parse(p[j + 1]).Some?
    ensures r.Ok? ==> nums.parse(Drop1(p[j])) == Some(r.value.x) && nums.parse(p[j + 1]) == Some(r.value.y)
  {
    if j + 1 >= |p| then Err(IndexOutOfRange(j + 1))
    else
      var x :- Transforms.Float(nums, Drop1(p[j]));
      var y :- Transforms.Float(nums, p[j + 1]);
      Ok(Point(x, y))
  }

  /** The `C` branch: the three control pairs glued to and following the
      tag, read in order. */
  function CurveArgs(nums: Numerics, p: seq<string>, i: int): (r: Result<seq<Point>>)
    requires 0 <= i < |p|
    ensures r.Ok? <==> i + 5 < |p| && nums.parse(Drop1(p[i])).Some? &&
                       forall k :: i < k <= i + 5 ==> nums.parse(p[k]).Some?
    ensures r.Ok? ==> |r.value| == 3
    ensures r.Ok? ==> nums.parse(Drop1(p[i])) == Some(r.value[0].x) && nums.parse(p[i + 1]) == Some(r.value[0].y)
    ensures r.Ok? ==> nums.parse(p[i + 2]) == Some(r.value[1].x) && nums.parse(p[i + 3]) == Some(r.value[1].y)
    ensures r.Ok? ==> nums.parse(p[i + 4]) == Some(r.value[2].x) && nums.parse(p[i + 5]) == Some(r.value[2].y)
  {
    var x1 :- Transforms.Float(nums, Drop1(p[i]));
    var y1 :- NumberAt(nums, p, i + 1);
    var x2 :- NumberAt(nums, p, i + 2);
    var y2 :- NumberAt(nums, p, i + 3);
    var x3 :- NumberAt(nums, p, i + 4);
    var y3 :- NumberAt(nums, p, i + 5);
    Ok([Point(x1, y1), Point(x2, y2), Point(x3, y3)])
  }

  /** One pass of the while loop, by the first character of token i. M and
      L move the pen to their pair and advance 2 (M also lowers it); Z goes
      back to the first pair of the path and advances 1; C flattens a Bezier
      segment that starts at the pen, moves the pen to its end point and
      advances 6; any other first character matches no branch, so the loop
      would never advance. */
  function Pass(nums: Numerics, p: seq<string>, s: Pen): (r: Result<Pen>)
    requires 0 <= s.i < |p|
    ensures r.Ok? ==> s.i < r.value.i && |s.out| <= |r.value.out| && r.value.out[..|s.out|] == s.out
    ensures p[s.i] != [] && p[s.i][0] !in {'M', 'L', 'Z', 'C'} ==> r == Err(NoProgress(s.i))
    ensures p[s.i] != [] && p[s.i][0] in {'M', 'L'} ==> (r.Ok? <==> PairAt(nums, p, s.i).Ok?)
    ensures p[s.i] != [] && p[s.i][0] == 'Z' ==> (r.Ok? <==> PairAt(nums, p, 0).Ok?)
    ensures r.Ok? && p[s.i] != [] && p[s.i][0] == 'M' ==> (
      && PairAt(nums, p, s.i) == Ok(r.value.cursor)
      && r.value == Pen(s.i + 2, r.value.cursor, s.out + [G1(r.value.cursor), M3, G4(PauseStart)]))
    ensures r.Ok? && p[s.i] != [] && p[s.i][0] == 'L' ==> (
      && PairAt(nums, p, s.i) == Ok(r.value.cursor)
      && r.value == Pen(s.i + 2, r.value.cursor, s.out + [G1(r.value.cursor)]))
    ensures r.Ok? && p[s.i] != [] && p[s.i][0] == 'Z' ==> (
      && PairAt(nums, p, 0) == Ok(r.value.cursor)
      && r.value == Pen(s.i + 1, r.value.cursor, s.out + [G1(r.value.cursor)]))
  {
    var t := p[s.i];
    if t == [] then Err(IndexOutOfRange(0))
    else if t[0] == 'M' || t[0] == 'L' || t[0] == 'Z' then
      var q :- PairAt(nums, p, if t[0] == 'Z' then 0 else s.i);
      var lines := if t[0] == 'M' then [G1(q), M3, G4(PauseStart)] else [G1(q)];
      assert (s.out + lines)[..|s.out|] == s.out;
      Ok(Pen(s.i + (if t[0] == 'Z' then 1 else 2), q, s.out + lines))
    else if t[0] == 'C' then
      var c :- CurveArgs(nums, p, s.i);
      var g := DrawSpec(nums, Cubic(s.cursor, c[0], c[1], c[2]), 0.0, 1.0, false, false);
      assert (s.out + g)[..|s.out|] == s.out;
      Ok(Pen(s.i + 6, c[2], s.out + g))
    else Err(NoProgress(s.i))
  }

  function PassLoop(nums: Numerics, p: seq<string>, s: Pen): (r: Result<Pen>)
    requires 0 <= s.i
    ensures r.Ok? ==> r.value.i >= |p| && |s.out| <= |r.value.out| && r.value.out[..|s.out|] == s.out
    decreases |p| - s.i
  {
    if s.i >= |p| then Ok(s)
    else
      var s' :- Pass(nums, p, s);
      PassLoop(nums, p, s')
  }

  /** `path_to_gcode(d)` of parser.py: `d.split()`, the loop from the
      origin, then M5 and a pause of PAUSE_end. */
  function PathSpec(nums: Numerics, d: string): (r: Result<seq<GLine>>)
    ensures r.Ok? ==> |r.value| >= 2 && r.value[|r.value| - 2..] == [M5, G4(PauseEnd)]
  {
    var f :- PassLoop(nums, Fields(d, Whitespace), Pen(0, Origin, []));
    Ok(f.out + [M5, G4(PauseEnd)])
  }

  /** The body of the while loop, with `draw_object` run as a method. */
  method RunPass(nums: Numerics, p: seq<string>, s: Pen) returns (r: Result<Pen>)
    requires 0 <= s.i < |p|
    ensures r == Pass(nums, p, s)
  {
    var t := p[s.i];
    if t == [] {
      r := Err(IndexOutOfRange(0));
    } else if t[0] == 'M' || t[0] == 'L' || t[0] == 'Z' {
      var q :- PairAt(nums, p, if t[0] == 'Z' then 0 else s.i);
      if t[0] == 'M' {
        r := Ok(Pen(s.i + 2, q, s.out + [G1(q), M3, G4(PauseStart)]));
      } else {
        r := Ok(Pen(s.i + (if t[0] == 'Z' then 1 else 2), q, s.out + [G1(q)]));
      }
    } else if t[0] == 'C' {
      var c :- CurveArgs(nums, p, s.i);
      var g := DrawObject(nums, Cubic(s.cursor, c[0], c[1], c[2]), 0.0, 1.0, false, false);
      r := Ok(Pen(s.i + 6, c[2], s.out + g));
    } else {
      r := Err(NoProgress(s.i));
    }
  }

  /** `path_to_gcode` of parser.py, with the index, the pen and the G-code
      updated pass by pass. */
  method PathToGcode(nums: Numerics, d: string) returns (r: Result<seq<GLine>>)
    ensures r == PathSpec(nums, d)
  {
    var p := Fields(d, Whitespace);
    var i := 0;
    var cx, cy := 0.0, 0.0;
    var gcode: seq<GLine> := [];
    while i < |p|
      invariant 0 <= i
      invariant PassLoop(nums, p, Pen(i, Point(cx, cy), gcode)) == PassLoop(nums, p, Pen(0, Origin, []))
      decreases |p| - i
    {
      var s :- RunPass(nums, p, Pen(i, Point(cx, cy), gcode));
      i, cx, cy, gcode := s.i, s.cursor.x, s.cursor.y, s.out;
    }
    r := Ok(gcode + [M5, G4(PauseEnd)]);
  }

  /** The `C` branch succeeds exactly when its six numbers can be read; it
      then writes the flattened segment from the pen through the three
      pairs, without pen commands, and leaves the pen at the third pair. */
  lemma PassDrawsCurve(nums: Numerics, p: seq<string>, s: Pen)
    requires 0 <= s.i < |p| && p[s.i] != [] && p[s.i][0] == 'C'
    ensures Pass(nums, p, s).Ok? <==> CurveArgs(nums, p, s.i).Ok?
    ensures Pass(nums, p, s).Ok? ==>
      var c := CurveArgs(nums, p, s.i).value;
      Pass(nums, p, s).value
        == Pen(s.i + 6, c[2], s.out + DrawSpec(nums, Cubic(s.cursor, c[0], c[1], c[2]), 0.0, 1.0, false, false))
  {
  }

  /** After every pass the pen is where the last G1 went (the origin before
      any): for a curve, the end point the flattener always writes last is
      the end control point, which the pen is set to. */
  lemma PassMovesPenToLastLine(nums: Numerics, p: seq<string>, s: Pen)
    requires 0 <= s.i < |p| && s.cursor == LastG1(s.out, Origin)
    requires Pass(nums, p, s).Ok?
    ensures var r := Pass(nums, p, s).value; r.cursor == LastG1(r.out, Origin)
  {
    var r := Pass(nums, p, s).value;
    var g := r.out[|s.out|..];
    assert r.out == s.out + g;
    LastG1Append(s.out, g, Origin);
    var from := LastG1(s.out, Origin);
    var t := p[s.i];
    if t[0] == 'M' {
      assert g == [G1(r.cursor), M3, G4(PauseStart)];
      assert g[..2] == [G1(r.cursor), M3] && [G1(r.cursor), M3][..1] == [G1(r.cursor)];
      assert LastG1(g, from) == LastG1([G1(r.cursor), M3], from) == LastG1([G1(r.cursor)], from);
    } else if t[0] == 'L' || t[0] == 'Z' {
      assert g == [G1(r.cursor)];
    } else {
      PassDrawsCurve(nums, p, s);
      var c := CurveArgs(nums, p, s.i).value;
      assert g == DrawSpec(nums, Cubic(s.cursor, c[0], c[1], c[2]), 0.0, 1.0, false, false);
      CurveEndsOnLastLine(nums, s.cursor, c[0], c[1], c[2], from);
    }
  }

  /** A segment drawn without lifting the pen ends with a G1 to its end
      control point. */
  lemma CurveEndsOnLastLine(nums: Numerics, p0: Point, p1: Point, p2: Point, p3: Point, from: Point)
    ensures LastG1(DrawSpec(nums, Cubic(p0, p1, p2, p3), 0.0, 1.0, false, false), from) == p3
  {
    var g := DrawSpec(nums, Cubic(p0, p1, p2, p3), 0.0, 1.0, false, false);
    assert g[|g| - 1] == G1(At(Cubic(p0, p1, p2, p3), 1.0));
  }

  lemma {:induction false} PassLoopMovesPenToLastLine(nums: Numerics, p: seq<string>, s: Pen)
    requires 0 <= s.i && s.cursor == LastG1(s.out, Origin)
    requires PassLoop(nums, p, s).Ok?
    ensures var r := PassLoop(nums, p, s).value; r.cursor == LastG1(r.out, Origin)
    decreases |p| - s.i
  {
    if s.i < |p| {
      PassMovesPenToLastLine(nums, p, s);
      PassLoopMovesPenToLastLine(nums, p, Pass(nums, p, s).value);
    }
  }

  /** The pen `path_to_gcode` of parser.py ends with is the target of its
      last G1 line. */
  lemma PathPenIsLastLine(nums: Numerics, d: string)
    requires PassLoop(nums, Fields(d, Whitespace), Pen(0, Origin, [])).Ok?
    ensures var r := PassLoop(nums, Fields(d, Whitespace), Pen(0, Origin, [])).value;
      r.cursor == LastG1(r.out, Origin)
  {
    PassLoopMovesPenToLastLine(nums, Fields(d, Whitespace), Pen(0, Origin, []));
  }
}
