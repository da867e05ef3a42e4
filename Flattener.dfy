/** The adaptive flattener `draw_object` of svg_to_gcode.py. It walks a curve
    over its parameter T with a step dT that doubles after every accepted or
    skipped sample and shrinks after an overshoot. It writes the rounded
    candidate whenever its distance from the cursor lies strictly between
    dl_min and dl_max, and finally the end point at T = 1 if it is farther
    than `sensitivity` from the cursor. The loop is not known to terminate,
    so the model runs it on fuel. */
module Flattener {
  import opened Common
  import opened Curves

  /** The thresholds that svg_to_gcode.py reads from its globals. */
  datatype Config = Config(
    dlMin: real,        // dl_min
    dlMax: real,        // dl_max
    sensitivity: real,  // sensitivity
    dTMin: real,        // dT_min
    pauseStart: int,    // pause_start, milliseconds
    pauseEnd: int)      // pause_end, milliseconds

  /** The loop state: T, dT, the cursor (cx, cy), and the exact curve points
      whose rounded values were written, oldest first. */
  datatype Sweep = Sweep(t: real, dt: real, cursor: Point, picked: seq<Point>)

  /** The written lines of the loop: one G1 per picked point, rounded. */
  function Lines(nums: Numerics, ps: seq<Point>): (r: seq<GLine>)
    ensures |r| == |ps|
    ensures forall k {:trigger r[k]} :: 0 <= k < |ps| ==> r[k] == G1(RoundPoint(nums, ps[k]))
  {
    if ps == [] then []
    else Lines(nums, ps[..|ps| - 1]) + [G1(RoundPoint(nums, ps[|ps| - 1]))]
  }

  /** One pass through the body of the while loop. */
  function Step(cfg: Config, nums: Numerics, curve: Curve, s: Sweep): Sweep {
    var p := At(curve, s.t);
    if Distance(nums, s.cursor, p) > cfg.dlMin then
      if Distance(nums, s.cursor, p) < cfg.dlMax || s.dt == 0.0 then
        var dt := if s.dt == 0.0 then cfg.dTMin else s.dt;
        Sweep(s.t + dt, dt * 2.0, RoundPoint(nums, p), s.picked + [p])
      else
        var t, dt := s.t - s.dt / 2.0, s.dt / 4.0;
        Sweep(t + dt, dt * 2.0, s.cursor, s.picked)
    else
      Sweep(s.t + s.dt, s.dt * 2.0, s.cursor, s.picked)
  }

  /** The while loop, given at most `fuel` passes. */
  function SweepLoop(cfg: Config, nums: Numerics, curve: Curve, s: Sweep, fuel: nat): (r: Result<Sweep>)
    ensures r.Ok? ==> r.value.t >= 1.0
    ensures r.Err? ==> r.error == NonConvergence
    decreases fuel
  {
    if s.t >= 1.0 then Ok(s)
    else if fuel == 0 then Err(NonConvergence)
    else SweepLoop(cfg, nums, curve, Step(cfg, nums, curve, s), fuel - 1)
  }

  function Start(cfg: Config, current: Point): Sweep {
    Sweep(0.0, cfg.dTMin, current, [])
  }

  function PenDown(cfg: Config, curve: Curve, down: bool): seq<GLine> {
    if down then [G1(At(curve, 0.0)), M3, G4(cfg.pauseStart)] else []
  }

  function PenUp(cfg: Config, up: bool): seq<GLine> {
    if up then [M5, G4(cfg.pauseEnd)] else []
  }

  /** What `draw_object` returns: the G-code and the new cursor. */
  datatype Drawing = Drawing(gcode: seq<GLine>, cursor: Point)

  /** `draw_object(F, I, currentx, currenty, DOWN, UP)`; the only failure is
      running out of fuel. */
  function DrawSpec(cfg: Config, nums: Numerics, curve: Curve, current: Point,
                    down: bool, up: bool, fuel: nat): (r: Result<Drawing>)
    ensures r.Err? ==> r.error == NonConvergence
  {
    var s :- SweepLoop(cfg, nums, curve, Start(cfg, current), fuel);
    Ok(Finish(cfg, nums, curve, s, down, up))
  }

  /** The pen-down prefix and the pen-up suffix appear where asked for,
      and the drawing ends at the rounded end point of the curve, or within
      `sensitivity` of it. */
  lemma DrawShape(cfg: Config, nums: Numerics, curve: Curve, current: Point, down: bool, up: bool, fuel: nat)
    requires DrawSpec(cfg, nums, curve, current, down, up, fuel).Ok?
    ensures var d := DrawSpec(cfg, nums, curve, current, down, up, fuel).value;
      && (d.cursor == RoundPoint(nums, At(curve, 1.0)) || Distance(nums, d.cursor, At(curve, 1.0)) <= cfg.sensitivity)
      && |d.gcode| >= |PenDown(cfg, curve, down)| + |PenUp(cfg, up)|
      && d.gcode[..|PenDown(cfg, curve, down)|] == PenDown(cfg, curve, down)
      && d.gcode[|d.gcode| - |PenUp(cfg, up)|..] == PenUp(cfg, up)
  {
  }

  /** The pen is lowered (M3) exactly when `DOWN` and raised (M5) exactly
      when `UP`: the loop and the end point only write moves. */
  lemma DrawPenCommands(cfg: Config, nums: Numerics, curve: Curve, current: Point, down: bool, up: bool, fuel: nat)
    requires DrawSpec(cfg, nums, curve, current, down, up, fuel).Ok?
    ensures var d := DrawSpec(cfg, nums, curve, current, down, up, fuel).value;
      && (M3 in d.gcode <==> down)
      && (M5 in d.gcode <==> up)
  {
    var s := SweepLoop(cfg, nums, curve, Start(cfg, current), fuel).value;
    var d := DrawSpec(cfg, nums, curve, current, down, up, fuel).value;
    var lines := Lines(nums, s.picked);
    LinesOnlyMove(nums, s.picked);
    var mid := if Distance(nums, s.cursor, At(curve, 1.0)) > cfg.sensitivity then lines + [G1(d.cursor)] else lines;
    assert d.gcode == PenDown(cfg, curve, down) + mid + PenUp(cfg, up);
    PenCommandsAround(PenDown(cfg, curve, down), mid, PenUp(cfg, up));
  }

  lemma PenCommandsAround(head: seq<GLine>, mid: seq<GLine>, tail: seq<GLine>)
    requires M3 !in mid && M5 !in mid
    ensures M3 in head + mid + tail <==> M3 in head || M3 in tail
    ensures M5 in head + mid + tail <==> M5 in head || M5 in tail
  {
  }

  /** The lines written for picked points are all moves. */
  lemma LinesOnlyMove(nums: Numerics, ps: seq<Point>)
    ensures M3 !in Lines(nums, ps) && M5 !in Lines(nums, ps)
  {
  }

  /** The end point at T = 1 is written, as one extra G1 after the picked
      points, exactly when the loop stopped farther than `sensitivity` from
      it; otherwise the cursor stays where the loop left it. */
  lemma DrawEndPoint(cfg: Config, nums: Numerics, curve: Curve, current: Point, down: bool, up: bool, fuel: nat)
    requires SweepLoop(cfg, nums, curve, Start(cfg, current), fuel).Ok?
    ensures DrawSpec(cfg, nums, curve, current, down, up, fuel).Ok?
    ensures var s := SweepLoop(cfg, nums, curve, Start(cfg, current), fuel).value;
      var d := DrawSpec(cfg, nums, curve, current, down, up, fuel).value;
      var far := Distance(nums, s.cursor, At(curve, 1.0)) > cfg.sensitivity;
      var head, tail := |PenDown(cfg, curve, down)|, |PenUp(cfg, up)|;
      && |d.gcode| == head + |s.picked| + tail + (if far then 1 else 0)
      && d.gcode[head..head + |s.picked|] == Lines(nums, s.picked)
      && (far ==> d.cursor == RoundPoint(nums, At(curve, 1.0)) && d.gcode[|d.gcode| - tail - 1] == G1(d.cursor))
      && (!far ==> d.cursor == s.cursor)
  {
    var s := SweepLoop(cfg, nums, curve, Start(cfg, current), fuel).value;
    var d := DrawSpec(cfg, nums, curve, current, down, up, fuel).value;
    var head, lines, tail := PenDown(cfg, curve, down), Lines(nums, s.picked), PenUp(cfg, up);
    if Distance(nums, s.cursor, At(curve, 1.0)) > cfg.sensitivity {
      assert d.gcode == head + lines + [G1(d.cursor)] + tail;
      assert d.gcode[|head|..|head| + |lines|] == lines;
    } else {
      assert d.gcode == head + lines + tail;
      assert d.gcode[|head|..|head| + |lines|] == lines;
    }
  }

  /** What follows the loop: the end point at T = 1 if it is farther than
      `sensitivity` from the cursor, then the pen-up suffix. */
  function Finish(cfg: Config, nums: Numerics, curve: Curve, s: Sweep, down: bool, up: bool): Drawing {
    var end := At(curve, 1.0);
    if Distance(nums, s.cursor, end) > cfg.sensitivity then
      var c := RoundPoint(nums, end);
      Drawing(PenDown(cfg, curve, down) + Lines(nums, s.picked) + [G1(c)] + PenUp(cfg, up), c)
    else
      Drawing(PenDown(cfg, curve, down) + Lines(nums, s.picked) + PenUp(cfg, up), s.cursor)
  }

  /** `draw_object`: the pen-down prefix, the while loop over T, the end
      point and the pen-up suffix. */
  method DrawObject(cfg: Config, nums: Numerics, curve: Curve, current: Point,
                    down: bool, up: bool, fuel: nat) returns (r: Result<Drawing>)
    ensures r == DrawSpec(cfg, nums, curve, current, down, up, fuel)
  {
    var p := At(curve, 0.0);
    var gcode: seq<GLine> := [];
    if down {
      gcode := gcode + [G1(p), M3, G4(cfg.pauseStart)];
    }
    var swept := Sweeping(cfg, nums, curve, current, fuel);
    if swept.Err? {
      return Err(swept.error);
    }
    ghost var s := SweepLoop(cfg, nums, curve, Start(cfg, current), fuel).value;
    var cursor := swept.value.cursor;
    gcode := gcode + swept.value.gcode;
    ghost var lines := gcode;
    assert lines == PenDown(cfg, curve, down) + Lines(nums, s.picked);
    p := At(curve, 1.0);
    if Distance(nums, cursor, p) > cfg.sensitivity {
      cursor := RoundPoint(nums, p);
      gcode := gcode + [G1(cursor)];
    }
    ghost var body := gcode;
    if up {
      gcode := gcode + [M5, G4(cfg.pauseEnd)];
    }
    assert gcode == body + PenUp(cfg, up);
    assert Drawing(gcode, cursor) == Finish(cfg, nums, curve, s, down, up);
    r := Ok(Drawing(gcode, cursor));
  }

  /** The while loop of `draw_object`: the lines it writes and the cursor it
      leaves, or running out of fuel. */
  method Sweeping(cfg: Config, nums: Numerics, curve: Curve, current: Point, fuel: nat)
    returns (r: Result<Drawing>)
    ensures var s := SweepLoop(cfg, nums, curve, Start(cfg, current), fuel);
      && (r.Ok? <==> s.Ok?)
      && (r.Err? ==> r.error == NonConvergence)
      && (r.Ok? ==> r.value == Drawing(Lines(nums, s.value.picked), s.value.cursor))
  {
    var t := 0.0;
    var cursor := current;
    var p := At(curve, t);
    var dt := cfg.dTMin;
    var gcode: seq<GLine> := [];
    ghost var picked: seq<Point> := [];
    var n := fuel;
    while t < 1.0
      invariant p == At(curve, t)
      invariant gcode == Lines(nums, picked)
      invariant SweepLoop(cfg, nums, curve, Sweep(t, dt, cursor, picked), n)
             == SweepLoop(cfg, nums, curve, Start(cfg, current), fuel)
      decreases n
    {
      if n == 0 {
        return Err(NonConvergence);
      }
      ghost var s := Sweep(t, dt, cursor, picked);
      if Distance(nums, cursor, p) > cfg.dlMin {
        if Distance(nums, cursor, p) < cfg.dlMax || dt == 0.0 {
          cursor := RoundPoint(nums, p);
          gcode := gcode + [G1(cursor)];
          LinesAppend(nums, picked, p);
          picked := picked + [p];
          if dt == 0.0 {
            dt := cfg.dTMin;
          }
        } else {
          t := t - dt / 2.0;
          dt := dt / 4.0;
        }
      }
      t := t + dt;
      dt := dt * 2.0;
      p := At(curve, t);
      n := n - 1;
      assert Sweep(t, dt, cursor, picked) == Step(cfg, nums, curve, s);
      SweepLoopPasses(cfg, nums, curve, s, n + 1);
    }
    r := Ok(Drawing(gcode, cursor));
  }

  lemma LinesAppend(nums: Numerics, ps: seq<Point>, p: Point)
    ensures Lines(nums, ps + [p]) == Lines(nums, ps) + [G1(RoundPoint(nums, p))]
  {
    assert (ps + [p])[..|ps|] == ps;
  }

  lemma SweepLoopPasses(cfg: Config, nums: Numerics, curve: Curve, s: Sweep, fuel: nat)
    requires s.t < 1.0 && fuel > 0
    ensures SweepLoop(cfg, nums, curve, s, fuel) == SweepLoop(cfg, nums, curve, Step(cfg, nums, curve, s), fuel - 1)
  {
  }

  /** The net effect of one pass. A write happens exactly when the candidate
      is farther than dl_min and (closer than dl_max or dT == 0); it moves the
      cursor to the rounded candidate, and dT is reset to dT_min only when it
      was 0. A skip or a write advances T by dT and doubles dT; an overshoot
      moves T back by a quarter of dT and halves dT. Only a write moves the
      cursor. */
  lemma StepEffect(cfg: Config, nums: Numerics, curve: Curve, s: Sweep)
    ensures var p, s' := At(curve, s.t), Step(cfg, nums, curve, s);
      var writes := Distance(nums, s.cursor, p) > cfg.dlMin && (Distance(nums, s.cursor, p) < cfg.dlMax || s.dt == 0.0);
      var overshoots := Distance(nums, s.cursor, p) > cfg.dlMin && !writes;
      && (writes <==> s'.picked == s.picked + [p])
      && (!writes ==> s'.picked == s.picked && s'.cursor == s.cursor)
      && (writes ==> s'.cursor == RoundPoint(nums, p))
      && (writes && s.dt == 0.0 ==> s'.t == s.t + cfg.dTMin && s'.dt == 2.0 * cfg.dTMin)
      && (!overshoots && s.dt != 0.0 ==> s'.t == s.t + s.dt && s'.dt == 2.0 * s.dt)
      && (overshoots ==> s'.t == s.t - s.dt / 4.0 && s'.dt == s.dt / 2.0)
  {
    var p := At(curve, s.t);
    if Distance(nums, s.cursor, p) > cfg.dlMin && !(Distance(nums, s.cursor, p) < cfg.dlMax || s.dt == 0.0) {
      assert s.t - s.dt / 2.0 + s.dt / 4.0 == s.t - s.dt / 4.0;
    }
    assert |s.picked + [p]| != |s.picked|;
  }

  /** The cursor before the k-th picked point: the incoming position, then
      the rounded value of the point picked before. */
  function Before(nums: Numerics, from: Point, picked: seq<Point>, k: nat): Point
    requires k <= |picked|
  {
    if k == 0 then from else RoundPoint(nums, picked[k - 1])
  }

  /** Every picked point lay strictly between dl_min and dl_max from the
      cursor of its time. */
  ghost predicate Banded(cfg: Config, nums: Numerics, from: Point, picked: seq<Point>) {
    forall k {:trigger Before(nums, from, picked, k)} :: 0 <= k < |picked| ==>
      Distance(nums, Before(nums, from, picked, k), picked[k]) > cfg.dlMin &&
      Distance(nums, Before(nums, from, picked, k), picked[k]) < cfg.dlMax
  }

  /** One pass keeps dT positive. */
  lemma StepKeepsPositive(cfg: Config, nums: Numerics, curve: Curve, s: Sweep)
    requires s.dt > 0.0
    ensures Step(cfg, nums, curve, s).dt > 0.0
  {
  }

  /** One pass keeps the cursor at the last written point. */
  lemma StepKeepsCursor(cfg: Config, nums: Numerics, curve: Curve, from: Point, s: Sweep)
    requires s.cursor == Before(nums, from, s.picked, |s.picked|)
    ensures var s' := Step(cfg, nums, curve, s);
      s'.cursor == Before(nums, from, s'.picked, |s'.picked|)
  {
  }

  /** Appending a point that lies in the band around the current cursor. */
  lemma BandedAppend(cfg: Config, nums: Numerics, from: Point, picked: seq<Point>, p: Point)
    requires Banded(cfg, nums, from, picked)
    requires var c := Before(nums, from, picked, |picked|);
      Distance(nums, c, p) > cfg.dlMin && Distance(nums, c, p) < cfg.dlMax
    ensures Banded(cfg, nums, from, picked + [p])
  {
    var ps := picked + [p];
    forall k | 0 <= k < |ps|
      ensures Distance(nums, Before(nums, from, ps, k), ps[k]) > cfg.dlMin
      ensures Distance(nums, Before(nums, from, ps, k), ps[k]) < cfg.dlMax
    {
      assert Before(nums, from, ps, k) == Before(nums, from, picked, k);
    }
  }

  /** One pass with a positive dT and a cursor at the last written point
      keeps every write in the band. */
  lemma StepKeepsBanded(cfg: Config, nums: Numerics, curve: Curve, from: Point, s: Sweep)
    requires s.dt > 0.0 && s.cursor == Before(nums, from, s.picked, |s.picked|)
    requires Banded(cfg, nums, from, s.picked)
    ensures Banded(cfg, nums, from, Step(cfg, nums, curve, s).picked)
  {
    var p := At(curve, s.t);
    if Distance(nums, s.cursor, p) > cfg.dlMin && Distance(nums, s.cursor, p) < cfg.dlMax {
      assert Step(cfg, nums, curve, s).picked == s.picked + [p];
      BandedAppend(cfg, nums, from, s.picked, p);
    } else {
      assert Step(cfg, nums, curve, s).picked == s.picked;
    }
  }

  /** Run to completion from a positive dT, dT stays positive. */
  lemma {:induction false} SweepLoopPositive(cfg: Config, nums: Numerics, curve: Curve,
                                             s: Sweep, fuel: nat)
    requires s.dt > 0.0
    requires SweepLoop(cfg, nums, curve, s, fuel).Ok?
    ensures SweepLoop(cfg, nums, curve, s, fuel).value.dt > 0.0
    decreases fuel
  {
    if s.t < 1.0 {
      StepKeepsPositive(cfg, nums, curve, s);
      SweepLoopPositive(cfg, nums, curve, Step(cfg, nums, curve, s), fuel - 1);
    }
  }

  /** Run to completion from a positive dT and a tracked cursor, every write
      stays in the band. */
  lemma {:induction false} SweepLoopBanded(cfg: Config, nums: Numerics, curve: Curve,
                                           from: Point, s: Sweep, fuel: nat)
    requires s.dt > 0.0 && s.cursor == Before(nums, from, s.picked, |s.picked|)
    requires Banded(cfg, nums, from, s.picked)
    requires SweepLoop(cfg, nums, curve, s, fuel).Ok?
    ensures Banded(cfg, nums, from, SweepLoop(cfg, nums, curve, s, fuel).value.picked)
    decreases fuel
  {
    if s.t < 1.0 {
      var s' := Step(cfg, nums, curve, s);
      StepKeepsPositive(cfg, nums, curve, s);
      StepKeepsCursor(cfg, nums, curve, from, s);
      StepKeepsBanded(cfg, nums, curve, from, s);
      SweepLoopBanded(cfg, nums, curve, from, s', fuel - 1);
    }
  }

  /** With dT_min > 0 the `dT == 0` branch is never taken, every point the
      loop writes was strictly between dl_min and dl_max from the cursor, and
      the cursor the loop ends with is its last written point. */
  lemma LoopWritesInBand(cfg: Config, nums: Numerics, curve: Curve, current: Point, fuel: nat)
    requires cfg.dTMin > 0.0
    requires SweepLoop(cfg, nums, curve, Start(cfg, current), fuel).Ok?
    ensures var s := SweepLoop(cfg, nums, curve, Start(cfg, current), fuel).value;
      s.dt > 0.0 && Banded(cfg, nums, current, s.picked) &&
      s.cursor == LastG1(Lines(nums, s.picked), current)
  {
    SweepLoopPositive(cfg, nums, curve, Start(cfg, current), fuel);
    SweepLoopBanded(cfg, nums, curve, current, Start(cfg, current), fuel);
    SweepLoopCursor(cfg, nums, curve, current, Start(cfg, current), fuel);
    var s := SweepLoop(cfg, nums, curve, Start(cfg, current), fuel).value;
    LinesLastG1(nums, s.picked, current);
  }

  lemma LinesLastG1(nums: Numerics, ps: seq<Point>, from: Point)
    ensures LastG1(Lines(nums, ps), from) == Before(nums, from, ps, |ps|)
  {
    if ps != [] {
      var r := Lines(nums, ps);
      assert r[|r| - 1] == G1(RoundPoint(nums, ps[|ps| - 1]));
    }
  }

  /** The cursor of a drawing is its last written point, or the incoming
      position when nothing was written (with the pen-down prefix left
      aside). */
  lemma {:induction false} DrawCursorIsLastWritten(cfg: Config, nums: Numerics, curve: Curve,
                                                   current: Point, up: bool, fuel: nat)
    requires DrawSpec(cfg, nums, curve, current, false, up, fuel).Ok?
    ensures var d := DrawSpec(cfg, nums, curve, current, false, up, fuel).value;
      d.cursor == LastG1(d.gcode, current)
  {
    var s := SweepLoop(cfg, nums, curve, Start(cfg, current), fuel).value;
    SweepLoopCursor(cfg, nums, curve, current, Start(cfg, current), fuel);
    LinesLastG1(nums, s.picked, current);
    var lines := Lines(nums, s.picked);
    if Distance(nums, s.cursor, At(curve, 1.0)) > cfg.sensitivity {
      var c := RoundPoint(nums, At(curve, 1.0));
      LastG1Append(lines + [G1(c)], PenUp(cfg, up), current);
      assert PenDown(cfg, curve, false) + lines + [G1(c)] + PenUp(cfg, up) == lines + [G1(c)] + PenUp(cfg, up);
      PenUpMovesNothing(cfg, up, c);
    } else {
      LastG1Append(lines, PenUp(cfg, up), current);
      assert PenDown(cfg, curve, false) + lines + PenUp(cfg, up) == lines + PenUp(cfg, up);
      PenUpMovesNothing(cfg, up, s.cursor);
    }
  }

  lemma PenUpMovesNothing(cfg: Config, up: bool, q: Point)
    ensures LastG1(PenUp(cfg, up), q) == q
  {
    if up {
      var tail := PenUp(cfg, up);
      assert tail[..1] == [M5] && [M5][..0] == [];
      assert LastG1(tail, q) == LastG1([M5], q) == LastG1([], q);
    }
  }

  /** The cursor half of the loop invariant needs no assumption on dT_min. */
  lemma {:induction false} SweepLoopCursor(cfg: Config, nums: Numerics, curve: Curve,
                                           from: Point, s: Sweep, fuel: nat)
    requires s.cursor == Before(nums, from, s.picked, |s.picked|)
    requires SweepLoop(cfg, nums, curve, s, fuel).Ok?
    ensures var f := SweepLoop(cfg, nums, curve, s, fuel).value;
      f.cursor == Before(nums, from, f.picked, |f.picked|)
    decreases fuel
  {
    if s.t < 1.0 {
      var s' := Step(cfg, nums, curve, s);
      StepKeepsCursor(cfg, nums, curve, from, s);
      SweepLoopCursor(cfg, nums, curve, from, s', fuel - 1);
    }
  }

  /** Without the pen-down prefix every line a drawing writes goes to a
      display position: the exact points never reach the output. */
  lemma DrawWritesDisplayedPoints(cfg: Config, nums: Numerics, curve: Curve,
                                  current: Point, up: bool, fuel: nat)
    requires DrawSpec(cfg, nums, curve, current, false, up, fuel).Ok?
    ensures AllDisplayed(nums, DrawSpec(cfg, nums, curve, current, false, up, fuel).value.gcode)
  {
    var g := DrawSpec(cfg, nums, curve, current, false, up, fuel).value.gcode;
    var s := SweepLoop(cfg, nums, curve, Start(cfg, current), fuel).value;
    var lines := Lines(nums, s.picked);
    forall k | 0 <= k < |g| && g[k].G1? ensures Displayed(nums, g[k].to) {
      if k < |lines| {
        assert g[k] == G1(RoundPoint(nums, s.picked[k]));
      } else {
        assert g[k] == G1(RoundPoint(nums, At(curve, 1.0)));
      }
    }
  }

  /** Fuel only bounds the loop: more fuel never changes a finished run. */
  lemma {:induction false} FuelIsOnlyABound(cfg: Config, nums: Numerics, curve: Curve,
                                            s: Sweep, fuel: nat, more: nat)
    requires fuel <= more
    requires SweepLoop(cfg, nums, curve, s, fuel).Ok?
    ensures SweepLoop(cfg, nums, curve, s, more) == SweepLoop(cfg, nums, curve, s, fuel)
    decreases fuel
  {
    if s.t < 1.0 {
      FuelIsOnlyABound(cfg, nums, curve, Step(cfg, nums, curve, s), fuel - 1, more - 1);
    }
  }
}
