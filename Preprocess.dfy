/** The token pipeline of `clean_it` in svg_to_gcode.py: the path data is
    tokenized, a trailing close command is rewritten by `delete_Z`, and
    `relative_to_absolute` turns the commands M m L l H h V v C c of section
    8.3 of SVG 1.1 into absolute M, L and C groups. */
module Preprocess {
  import opened Common
  import opened Text

  /** A token of the path data once read: a one-letter command, a number
      (what `float` accepts, and what `str` of a float gives back), or any
      other word. */
  datatype Token = Cmd(c: char) | Num(v: real) | Word(s: string)

  predicate IsLetter(c: char) {
    'a' <= c <= 'z' || 'A' <= c <= 'Z'
  }

  /** How a token string is read: `float` never accepts a single letter. */
  function Lex(nums: Numerics, s: string): (r: Token)
    ensures r.Cmd? <==> |s| == 1 && IsLetter(s[0])
    ensures r.Num? ==> nums.parse(s) == Some(r.v)
    ensures r.Word? ==> r.s == s && nums.parse(s).None?
  {
    if |s| == 1 && IsLetter(s[0]) then Cmd(s[0])
    else match nums.parse(s)
      case Some(v) => Num(v)
      case None => Word(s)
  }

  function Lexed(nums: Numerics, ps: seq<string>): (r: seq<Token>)
    ensures |r| == |ps| && forall k :: 0 <= k < |ps| ==> r[k] == Lex(nums, ps[k])
  {
    seq(|ps|, k requires 0 <= k < |ps| => Lex(nums, ps[k]))
  }

  predicate Closes(p: seq<string>) {
    p != [] && (p[|p| - 1] == "z" || p[|p| - 1] == "Z")
  }

  /** `delete_Z(p)` as written: a trailing close command becomes the token
      `'L' + p[0][1:]` followed by `p[1]`, the x coordinate of the first
      point alone. `p[-1]` fails on an empty list. */
  function DeleteZ(p: seq<string>): (r: Result<seq<string>>)
    ensures r.Err? <==> p == [] || (Closes(p) && |p| < 2)
    ensures p != [] && !Closes(p) ==> r == Ok(p)
    ensures r.Ok? && Closes(p) ==>
      && |r.value| == |p| + 1
      && r.value[..|p| - 1] == p[..|p| - 1]
      && r.value[|p| - 1] == "L" + Drop1(p[0])
      && r.value[|p|] == p[1]
  {
    if p == [] then Err(IndexOutOfRange(-1))
    else if !Closes(p) then Ok(p)
    else if |p| < 2 then Err(IndexOutOfRange(1))
    else Ok(p[..|p| - 1] + ["L" + Drop1(p[0])] + [p[1]])
  }

  /** The rewrite `delete_Z` evidently means: a line back to the first point,
      both of its coordinates. */
  function DeleteZFixed(p: seq<string>): (r: Result<seq<string>>)
    ensures r.Err? <==> p == [] || (Closes(p) && |p| < 3)
    ensures p != [] && !Closes(p) ==> r == Ok(p)
    ensures r.Ok? && Closes(p) ==>
      && |r.value| == |p| + 2
      && r.value[..|p| - 1] == p[..|p| - 1]
      && r.value[|p| - 1..] == ["L", p[1], p[2]]
  {
    if p == [] then Err(IndexOutOfRange(-1))
    else if !Closes(p) then Ok(p)
    else if |p| < 2 then Err(IndexOutOfRange(1))
    else if |p| < 3 then Err(IndexOutOfRange(2))
    else Ok(p[..|p| - 1] + ["L", p[1], p[2]])
  }

  /** `float(t)` on a token. */
  function FloatOf(t: Token): (r: Result<real>)
    ensures r.Ok? <==> t.Num?
    ensures r.Ok? ==> r.value == t.v
    ensures r.Err? ==> r.error == NotANumber
  {
    if t.Num? then Ok(t.v) else Err(NotANumber)
  }

  /** `float(d[j])`, negative indices counting from the end. */
  function NumAt(d: seq<Token>, j: int): (r: Result<real>)
    ensures r.Ok? <==> -|d| <= j < |d| && d[if j < 0 then |d| + j else j].Num?
    ensures r.Ok? ==> r.value == d[if j < 0 then |d| + j else j].v
  {
    var t :- PyAt(d, j);
    FloatOf(t)
  }

  /** `d[lo:hi]` for 0 <= lo <= hi: the bounds are clamped to the list. */
  function Slice(d: seq<Token>, lo: nat, hi: nat): (r: seq<Token>)
    requires lo <= hi
    ensures |r| == (if hi <= |d| then hi - lo else if lo <= |d| then |d| - lo else 0)
    ensures forall k :: 0 <= k < |r| ==> r[k] == d[lo + k]
  {
    if lo >= |d| then [] else if hi >= |d| then d[lo..] else d[lo..hi]
  }

  const RelCommands: set<char> := {'M', 'm', 'L', 'l', 'H', 'h', 'V', 'v', 'C', 'c'}

  /** The state of `relative_to_absolute`: the index i, the current command
      cs ("" is None), the current point (cx, cy) and the output res. */
  datatype Rel = Rel(i: int, cs: Option<char>, cur: Point, out: seq<Token>)

  const RelStart: Rel := Rel(0, None, Origin, [])

  /** The branch the if-chain takes: the command itself, or for a number the
      current command; None when no condition holds. */
  function Branch(t: Token, cs: Option<char>): (r: Option<char>)
    ensures r.Some? && t.Cmd? ==> r.value == t.c && t.c in RelCommands
    ensures r.Some? && !t.Cmd? ==> t.Num? && cs == r && r.value in RelCommands
    ensures r.None? <==> (t.Cmd? && t.c !in RelCommands) || t.Word? ||
                         (t.Num? && (cs.None? || cs.value !in RelCommands))
  {
    if t.Cmd? then (if t.c in RelCommands then Some(t.c) else None)
    else if t.Num? && cs.Some? && cs.value in RelCommands then cs
    else None
  }

  /** The pair (cx, cy) that the last two output tokens hold. */
  function LastPair(out: seq<Token>): Option<Point> {
    if |out| >= 2 && out[|out| - 2].Num? && out[|out| - 1].Num?
    then Some(Point(out[|out| - 2].v, out[|out| - 1].v))
    else None
  }

  /** One complete output group: M or L with a pair, or C with six tokens,
      the last two numbers. */
  predicate FullGroup(g: seq<Token>) {
    || (|g| == 3 && (g[0] == Cmd('M') || g[0] == Cmd('L')) && g[1].Num? && g[2].Num?)
    || (|g| == 7 && g[0] == Cmd('C') && g[5].Num? && g[6].Num?)
  }

  /** A group, or a C group cut short by the end of the input. */
  predicate Group(g: seq<Token>) {
    FullGroup(g) || (3 <= |g| < 7 && g[0] == Cmd('C') && g[|g| - 2].Num? && g[|g| - 1].Num?)
  }

  /** What every successful pass does: it moves forward, appends exactly one
      group (a short C only when the input is used up), and leaves the
      current point at the last pair it wrote. */
  predicate Emits(d: seq<Token>, s: Rel, r: Rel) {
    && s.i < r.i
    && |s.out| < |r.out| && r.out[..|s.out|] == s.out
    && Group(r.out[|s.out|..])
    && (!FullGroup(r.out[|s.out|..]) ==> r.i > |d|)
    && LastPair(r.out) == Some(r.cur)
  }

  /** Where a branch reads its arguments from: one token back for a number. */
  predicate Base(d: seq<Token>, s: Rel, b: int) {
    0 <= s.i < |d| && b == (if d[s.i].Num? then s.i - 1 else s.i)
  }

  /** One pass of the while loop of `relative_to_absolute`, for `i < len(d)`.
      A number continues the current command, one token back (`i -= 1`).
      `mState` is the value the `m` branch gives cs: "M" as written. What a
      pass writes is stated by RelStepEmits. */
  function RelStep(d: seq<Token>, s: Rel, mState: char): (r: Result<Rel>)
    requires 0 <= s.i < |d|
    ensures r.Ok? ==> r.value.i > s.i
  {
    match Branch(d[s.i], s.cs)
    case None => Err(NoProgress(s.i))
    case Some(c) =>
      var b := if d[s.i].Num? then s.i - 1 else s.i;
      var cs := Some(if c == 'm' then mState else c);
      if c in {'M', 'm', 'L', 'l'} then PairStep(d, s, b, c, cs)
      else if c in {'H', 'h', 'V', 'v'} then AxisStep(d, s, b, c, cs)
      else if c == 'C' then CurveCopy(d, s, b, cs)
      else CurveShift(d, s, b, cs)
  }

  /** The M, m, L and l branches: a pair, absolute or added to the current
      point; m and M write M, l and L write L. */
  function PairStep(d: seq<Token>, s: Rel, b: int, c: char, cs: Option<char>): (r: Result<Rel>)
    requires Base(d, s, b) && c in {'M', 'm', 'L', 'l'}
    ensures r.Ok? ==> r.value.i > s.i
  {
    var x :- NumAt(d, b + 1);
    var y :- NumAt(d, b + 2);
    var p := if c in {'m', 'l'} then Point(s.cur.x + x, s.cur.y + y) else Point(x, y);
    var tag := if c in {'M', 'm'} then 'M' else 'L';
    Ok(Rel(b + 3, cs, p, s.out + [Cmd(tag), Num(p.x), Num(p.y)]))
  }

  /** The H, h, V and v branches: one coordinate, absolute or added; the
      other coordinate is kept; an L group is written. */
  function AxisStep(d: seq<Token>, s: Rel, b: int, c: char, cs: Option<char>): (r: Result<Rel>)
    requires Base(d, s, b) && c in {'H', 'h', 'V', 'v'}
    ensures r.Ok? ==> r.value.i > s.i
  {
    var v :- NumAt(d, b + 1);
    var p :=
      if c == 'H' then Point(v, s.cur.y)
      else if c == 'h' then Point(s.cur.x + v, s.cur.y)
      else if c == 'V' then Point(s.cur.x, v)
      else Point(s.cur.x, s.cur.y + v);
    Ok(Rel(b + 2, cs, p, s.out + [Cmd('L'), Num(p.x), Num(p.y)]))
  }

  /** The C branch: `["C"] + d[i+1:i+7]` copied verbatim, the current point
      read back from the last two tokens written. */
  function CurveCopy(d: seq<Token>, s: Rel, b: int, cs: Option<char>): (r: Result<Rel>)
    requires Base(d, s, b)
    ensures r.Ok? ==> r.value.i > s.i
  {
    var out := s.out + [Cmd('C')] + Slice(d, b + 1, b + 7);
    var x :- NumAt(out, -2);
    var y :- NumAt(out, -1);
    Ok(Rel(b + 7, cs, Point(x, y), out))
  }

  /** The c branch: the three pairs offset by the current point at the start
      of the segment, the x offsets read first. */
  function CurveShift(d: seq<Token>, s: Rel, b: int, cs: Option<char>): (r: Result<Rel>)
    requires Base(d, s, b)
    ensures r.Ok? ==> r.value.i > s.i
  {
    var x1 :- NumAt(d, b + 1);
    var x2 :- NumAt(d, b + 3);
    var x3 :- NumAt(d, b + 5);
    var y1 :- NumAt(d, b + 2);
    var y2 :- NumAt(d, b + 4);
    var y3 :- NumAt(d, b + 6);
    var cx, cy := s.cur.x, s.cur.y;
    var g := [Cmd('C'), Num(cx + x1), Num(cy + y1), Num(cx + x2), Num(cy + y2), Num(cx + x3), Num(cy + y3)];
    Ok(Rel(b + 7, cs, Point(cx + x3, cy + y3), s.out + g))
  }

  /** A pass that appends group g and ends on its last pair emits it. */
  lemma AppendEmits(d: seq<Token>, s: Rel, r: Rel, g: seq<Token>)
    requires s.i < r.i && r.out == s.out + g && Group(g)
    requires !FullGroup(g) ==> r.i > |d|
    requires LastPair(g) == Some(r.cur)
    ensures Emits(d, s, r)
  {
    assert r.out[..|s.out|] == s.out && r.out[|s.out|..] == g;
    assert r.out[|r.out| - 2] == g[|g| - 2] && r.out[|r.out| - 1] == g[|g| - 1];
  }

  /** A pair branch that succeeds found two numbers, wrote one M or L group
      with the new current point, absolute or relative to the old one. */
  lemma PairStepEmits(d: seq<Token>, s: Rel, b: int, c: char, cs: Option<char>)
    requires Base(d, s, b) && c in {'M', 'm', 'L', 'l'}
    ensures var r := PairStep(d, s, b, c, cs);
      r.Ok? ==> (
        && Emits(d, s, r.value) && r.value.cs == cs
        && r.value.out[|s.out|] == Cmd(if c in {'M', 'm'} then 'M' else 'L')
        && b + 2 < |d| && d[b + 1].Num? && d[b + 2].Num?
        && r.value.cur == (if c in {'m', 'l'} then Point(s.cur.x + d[b + 1].v, s.cur.y + d[b + 2].v)
                           else Point(d[b + 1].v, d[b + 2].v)))
  {
    var r := PairStep(d, s, b, c, cs);
    if r.Ok? {
      var out := r.value.out;
      assert out[|s.out|..] == [out[|s.out|], Num(r.value.cur.x), Num(r.value.cur.y)];
    }
  }

  /** An axis branch that succeeds found one number and moved the current
      point along one axis only. */
  lemma AxisStepEmits(d: seq<Token>, s: Rel, b: int, c: char, cs: Option<char>)
    requires Base(d, s, b) && c in {'H', 'h', 'V', 'v'}
    ensures var r := AxisStep(d, s, b, c, cs);
      r.Ok? ==> (
        && Emits(d, s, r.value) && r.value.cs == cs
        && r.value.out[|s.out|] == Cmd('L') && b + 1 < |d| && d[b + 1].Num?
        && (c in {'H', 'h'} ==> (
             && r.value.cur.y == s.cur.y
             && r.value.cur.x == (if c == 'h' then s.cur.x + d[b + 1].v else d[b + 1].v)))
        && (c in {'V', 'v'} ==> (
             && r.value.cur.x == s.cur.x
             && r.value.cur.y == (if c == 'v' then s.cur.y + d[b + 1].v else d[b + 1].v))))
  {
    var r := AxisStep(d, s, b, c, cs);
    if r.Ok? {
      var out := r.value.out;
      assert out[|s.out|..] == [Cmd('L'), Num(r.value.cur.x), Num(r.value.cur.y)];
    }
  }

  /** A C command followed by at most six tokens, the last two numbers,
      is a group. */
  lemma CopiedGroup(pre: seq<Token>, copied: seq<Token>)
    requires |copied| <= 6
    requires var out := pre + [Cmd('C')] + copied; |out| >= 2 && out[|out| - 2].Num? && out[|out| - 1].Num?
    ensures var g := [Cmd('C')] + copied; var out := pre + g;
      Group(g) && (|copied| == 6 ==> FullGroup(g)) && LastPair(g) == LastPair(out)
  {
    var g := [Cmd('C')] + copied;
    var out := pre + g;
    assert pre + [Cmd('C')] + copied == out;
    assert out[|out| - 1] == g[|g| - 1];
    assert out[|out| - 2] == g[|g| - 2];
  }

  /** The C branch copies up to six tokens after the command verbatim. */
  lemma CurveCopyEmits(d: seq<Token>, s: Rel, b: int, cs: Option<char>)
    requires Base(d, s, b)
    ensures var r := CurveCopy(d, s, b, cs);
      r.Ok? ==> (
        && Emits(d, s, r.value) && r.value.cs == cs
        && r.value.out == s.out + [Cmd('C')] + Slice(d, b + 1, b + 7))
  {
    var r := CurveCopy(d, s, b, cs);
    if r.Ok? {
      var copied := Slice(d, b + 1, b + 7);
      CopiedGroup(s.out, copied);
      AppendEmits(d, s, r.value, [Cmd('C')] + copied);
    }
  }

  /** The group the c branch writes: each number after the command offset
      by the x or y coordinate of the current point. */
  function ShiftedGroup(d: seq<Token>, b: int, cur: Point): (g: seq<Token>)
    requires -1 <= b && b + 6 < |d| && forall j :: b + 1 <= j <= b + 6 ==> d[j].Num?
    ensures |g| == 7 && g[0] == Cmd('C')
    ensures forall k :: 1 <= k <= 6 ==> g[k] == Num((if k % 2 == 1 then cur.x else cur.y) + d[b + k].v)
  {
    [Cmd('C'),
     Num(cur.x + d[b + 1].v), Num(cur.y + d[b + 2].v),
     Num(cur.x + d[b + 3].v), Num(cur.y + d[b + 4].v),
     Num(cur.x + d[b + 5].v), Num(cur.y + d[b + 6].v)]
  }

  lemma CurveShiftValue(d: seq<Token>, s: Rel, b: int, cs: Option<char>)
    requires Base(d, s, b)
    ensures var r := CurveShift(d, s, b, cs);
      r.Ok? ==> (
        && b + 6 < |d| && (forall j :: b + 1 <= j <= b + 6 ==> d[j].Num?)
        && r.value == Rel(b + 7, cs, Point(s.cur.x + d[b + 5].v, s.cur.y + d[b + 6].v),
                          s.out + ShiftedGroup(d, b, s.cur)))
  {
    var r := CurveShift(d, s, b, cs);
    if r.Ok? {
      assert b + 6 < |d| && d[b + 1].Num? && d[b + 2].Num? && d[b + 3].Num?;
      assert d[b + 4].Num? && d[b + 5].Num? && d[b + 6].Num?;
      var g := ShiftedGroup(d, b, s.cur);
      assert r.value.out == s.out + g;
    }
  }

  /** The c branch writes the six numbers after it, each offset by the x or
      y coordinate of the current point (ShiftedGroup). */
  lemma CurveShiftEmits(d: seq<Token>, s: Rel, b: int, cs: Option<char>)
    requires Base(d, s, b)
    ensures var r := CurveShift(d, s, b, cs);
      r.Ok? ==> (
        && Emits(d, s, r.value) && r.value.cs == cs
        && b + 6 < |d| && (forall j :: b + 1 <= j <= b + 6 ==> d[j].Num?)
        && r.value.out == s.out + ShiftedGroup(d, b, s.cur))
  {
    CurveShiftValue(d, s, b, cs);
    var r := CurveShift(d, s, b, cs);
    if r.Ok? {
      var g := ShiftedGroup(d, b, s.cur);
      assert LastPair(g) == Some(r.value.cur);
      AppendEmits(d, s, r.value, g);
    }
  }

  /** What every pass does: a token that no branch takes is an error
      (the source loops forever there), and a pass that succeeds writes one
      group and sets cs to its command ("M" for m, as written). */
  lemma RelStepEmits(d: seq<Token>, s: Rel, mState: char)
    requires 0 <= s.i < |d|
    ensures Branch(d[s.i], s.cs).None? ==> RelStep(d, s, mState) == Err(NoProgress(s.i))
    ensures var r := RelStep(d, s, mState);
      r.Ok? ==> (
        && Emits(d, s, r.value)
        && r.value.cs == Some(var c := Branch(d[s.i], s.cs).value; if c == 'm' then mState else c))
  {
    match Branch(d[s.i], s.cs)
    case None =>
    case Some(c) =>
      var b := if d[s.i].Num? then s.i - 1 else s.i;
      var cs := Some(if c == 'm' then mState else c);
      if c in {'M', 'm', 'L', 'l'} {
        assert RelStep(d, s, mState) == PairStep(d, s, b, c, cs);
        PairStepEmits(d, s, b, c, cs);
      } else if c in {'H', 'h', 'V', 'v'} {
        assert RelStep(d, s, mState) == AxisStep(d, s, b, c, cs);
        AxisStepEmits(d, s, b, c, cs);
      } else if c == 'C' {
        assert RelStep(d, s, mState) == CurveCopy(d, s, b, cs);
        CurveCopyEmits(d, s, b, cs);
      } else {
        assert RelStep(d, s, mState) == CurveShift(d, s, b, cs);
        CurveShiftEmits(d, s, b, cs);
      }
  }

  /** The while loop from state `s` on. */
  function RelLoop(d: seq<Token>, s: Rel, mState: char): (r: Result<Rel>)
    requires 0 <= s.i
    ensures r.Ok? ==> r.value.i >= |d|
    decreases |d| - s.i
  {
    if s.i >= |d| then Ok(s)
    else
      var s' :- RelStep(d, s, mState);
      RelLoop(d, s', mState)
  }

  /** The loop only appends to the output list. */
  lemma {:induction false} RelLoopExtends(d: seq<Token>, s: Rel, mState: char)
    requires 0 <= s.i
    ensures var r := RelLoop(d, s, mState);
      r.Ok? ==> |s.out| <= |r.value.out| && r.value.out[..|s.out|] == s.out
    decreases |d| - s.i
  {
    if s.i < |d| {
      RelStepEmits(d, s, mState);
      var r := RelStep(d, s, mState);
      if r.Ok? {
        RelLoopExtends(d, r.value, mState);
        var f := RelLoop(d, r.value, mState);
        if f.Ok? {
          assert f.value.out[..|s.out|] == f.value.out[..|r.value.out|][..|s.out|];
        }
      }
    }
  }

  /** `relative_to_absolute(d)`. */
  function RelativeSpec(d: seq<Token>): Result<seq<Token>> {
    var f :- RelLoop(d, RelStart, 'M');
    Ok(f.out)
  }

  /** `relative_to_absolute`, with its index, current command, current point
      and output list updated pass by pass. */
  method RelativeToAbsolute(d: seq<Token>) returns (r: Result<seq<Token>>)
    ensures r == RelativeSpec(d)
  {
    var i, cs, cx, cy := 0, None, 0.0, 0.0;
    var res: seq<Token> := [];
    while i < |d|
      invariant 0 <= i
      invariant RelLoop(d, Rel(i, cs, Point(cx, cy), res), 'M') == RelLoop(d, RelStart, 'M')
      decreases |d| - i
    {
      var s :- RelStep(d, Rel(i, cs, Point(cx, cy), res), 'M');
      i, cs, cx, cy, res := s.i, s.cs, s.cur.x, s.cur.y, s.out;
    }
    r := Ok(res);
  }


  /** Every group is complete. */
  ghost predicate Tiles(out: seq<Token>)
    decreases |out|
  {
    || out == []
    || (|out| >= 3 && FullGroup(out[..3]) && Tiles(out[3..]))
    || (|out| >= 7 && FullGroup(out[..7]) && Tiles(out[7..]))
  }

  /** The output splits into groups, of which only the last may be a
      C group cut short. */
  ghost predicate Tiled(out: seq<Token>) {
    Tiles(out) || exists k :: 0 <= k < |out| && Tiles(out[..k]) && Group(out[k..])
  }

  lemma {:induction false} TilesAppend(a: seq<Token>, g: seq<Token>)
    requires Tiles(a) && FullGroup(g)
    ensures Tiles(a + g)
    decreases |a|
  {
    if a == [] {
      assert a + g == g && g[..|g|] == g && g[|g|..] == [];
    } else if |a| >= 3 && FullGroup(a[..3]) && Tiles(a[3..]) {
      TilesAppend(a[3..], g);
      assert (a + g)[..3] == a[..3] && (a + g)[3..] == a[3..] + g;
    } else {
      TilesAppend(a[7..], g);
      assert (a + g)[..7] == a[..7] && (a + g)[7..] == a[7..] + g;
    }
  }

  lemma ShortGroupTiled(a: seq<Token>, g: seq<Token>)
    requires Tiles(a) && Group(g)
    ensures Tiled(a + g)
  {
    assert (a + g)[..|a|] == a && (a + g)[|a|..] == g;
  }

  /** The output of the loop is made of whole groups, the last possibly a
      short C, and ends with the current point. */
  lemma {:induction false} RelLoopGroups(d: seq<Token>, s: Rel, mState: char)
    requires 0 <= s.i && Tiles(s.out)
    requires s.out != [] ==> LastPair(s.out) == Some(s.cur)
    requires RelLoop(d, s, mState).Ok?
    ensures var f := RelLoop(d, s, mState).value;
      Tiled(f.out) && (f.out != [] ==> LastPair(f.out) == Some(f.cur))
    decreases |d| - s.i
  {
    if s.i < |d| {
      RelStepEmits(d, s, mState);
      var s' := RelStep(d, s, mState).value;
      var g := s'.out[|s.out|..];
      assert s'.out == s.out + g;
      if FullGroup(g) {
        TilesAppend(s.out, g);
        RelLoopGroups(d, s', mState);
      } else {
        assert RelLoop(d, s', mState) == Ok(s');
        ShortGroupTiled(s.out, g);
      }
    }
  }

  /** `relative_to_absolute` emits M, L and C groups only (3 tokens for M
      and L, 7 for C, a shorter C only at the very end), and its current
      point is always the last pair it emitted. */
  lemma RelativeGroups(d: seq<Token>)
    requires RelativeSpec(d).Ok?
    ensures Tiled(RelativeSpec(d).value)
  {
    RelLoopGroups(d, RelStart, 'M');
  }

  /** `relative_to_absolute` with the `m` branch setting cs to "m", as the
      condition `ISF and cs == "m"` of that branch evidently expects. */
  function RelativeFixedSpec(d: seq<Token>): Result<seq<Token>> {
    var f :- RelLoop(d, RelStart, 'm');
    Ok(f.out)
  }

  /** `clean_it` on one path: tokenize, rewrite the close command, read the
      tokens, make every command absolute; with the corrected close rewrite
      and the corrected `m` branch. */
  function CleanPath(nums: Numerics, d: string): Result<seq<Token>> {
    var p :- DeleteZFixed(Tokenize(d));
    RelativeFixedSpec(Lexed(nums, p))
  }

  /** `clean_it` on one path as written: the close rewrite that keeps one
      coordinate and the `m` branch that never fires. */
  function CleanPathAsWritten(nums: Numerics, d: string): Result<seq<Token>> {
    var p :- DeleteZ(Tokenize(d));
    RelativeSpec(Lexed(nums, p))
  }

  /** A cleaned path is a list of absolute M, L and C groups, of which only
      the last may be a C group cut short by the end of the input. */
  lemma CleanPathGroups(nums: Numerics, d: string)
    requires CleanPath(nums, d).Ok?
    ensures Tiled(CleanPath(nums, d).value)
  {
    var p := DeleteZFixed(Tokenize(d)).value;
    RelLoopGroups(Lexed(nums, p), RelStart, 'm');
  }

  /** As written, cs never becomes "m": a number is never read as a relative
      move, so the second half of the condition of the `m` branch is dead. */
  lemma {:induction false} RelLoopNeverRelativeMove(d: seq<Token>, s: Rel)
    requires 0 <= s.i && s.cs != Some('m')
    ensures RelLoop(d, s, 'M').Ok? ==> RelLoop(d, s, 'M').value.cs != Some('m')
    ensures forall k :: s.i <= k < |d| && d[k].Num? ==> Branch(d[k], s.cs) != Some('m')
    decreases |d| - s.i
  {
    if s.i < |d| {
      RelStepEmits(d, s, 'M');
      var r := RelStep(d, s, 'M');
      if r.Ok? {
        RelLoopNeverRelativeMove(d, r.value);
      }
    }
  }

  /** One pass of an M, m, L or l branch that finds its two numbers. */
  lemma PairStepValue(d: seq<Token>, s: Rel, mState: char, b: int, c: char)
    requires Base(d, s, b) && Branch(d[s.i], s.cs) == Some(c) && c in {'M', 'm', 'L', 'l'}
    requires b + 2 < |d| && d[b + 1].Num? && d[b + 2].Num?
    ensures var p := if c in {'m', 'l'} then Point(s.cur.x + d[b + 1].v, s.cur.y + d[b + 2].v)
                     else Point(d[b + 1].v, d[b + 2].v);
      RelStep(d, s, mState) ==
        Ok(Rel(b + 3, Some(if c == 'm' then mState else c), p,
               s.out + [Cmd(if c in {'M', 'm'} then 'M' else 'L'), Num(p.x), Num(p.y)]))
  {
  }

  /** The loop goes on from the state a successful pass leaves. */
  lemma LoopPasses(d: seq<Token>, s: Rel, mState: char, s': Rel)
    requires 0 <= s.i < |d| && RelStep(d, s, mState) == Ok(s')
    ensures RelLoop(d, s, mState) == RelLoop(d, s', mState)
  {
  }

  /** The two lemmas above together. */
  lemma PairPasses(d: seq<Token>, s: Rel, mState: char, b: int, c: char)
    requires Base(d, s, b) && Branch(d[s.i], s.cs) == Some(c) && c in {'M', 'm', 'L', 'l'}
    requires b + 2 < |d| && d[b + 1].Num? && d[b + 2].Num?
    ensures var p := if c in {'m', 'l'} then Point(s.cur.x + d[b + 1].v, s.cur.y + d[b + 2].v)
                     else Point(d[b + 1].v, d[b + 2].v);
      RelLoop(d, s, mState) ==
        RelLoop(d, Rel(b + 3, Some(if c == 'm' then mState else c), p,
                       s.out + [Cmd(if c in {'M', 'm'} then 'M' else 'L'), Num(p.x), Num(p.y)]), mState)
  {
    PairStepValue(d, s, mState, b, c);
    LoopPasses(d, s, mState, RelStep(d, s, mState).value);
  }

  /** `m 1 2 3 4`: the second pair is read with the state the `m` branch
      leaves, absolute under "M", relative under "m". */
  lemma RelativeMoveThenPair(d: seq<Token>, mState: char)
    requires |d| == 5 && d[0] == Cmd('m') && d[1] == Num(1.0) && d[2] == Num(2.0)
    requires d[3] == Num(3.0) && d[4] == Num(4.0) && mState in {'M', 'm'}
    ensures var q := if mState == 'm' then Point(4.0, 6.0) else Point(3.0, 4.0);
      RelLoop(d, RelStart, mState) ==
        Ok(Rel(5, Some(mState), q, [Cmd('M'), Num(1.0), Num(2.0)] + [Cmd('M'), Num(q.x), Num(q.y)]))
  {
    PairPasses(d, RelStart, mState, 0, 'm');
    var s1 := Rel(3, Some(mState), Point(1.0, 2.0), [Cmd('M'), Num(1.0), Num(2.0)]);
    assert RelStart.out + [Cmd('M'), Num(1.0), Num(2.0)] == s1.out;
    PairPasses(d, s1, mState, 2, mState);
  }

  /** As written, the pairs after `m 1 2` are taken as absolute moves:
      `m 1 2 3 4` goes to (1, 2) and then to (3, 4). Section 8.3.2 of SVG 1.1
      reads them relative to the current point. */
  lemma ImplicitPairsAfterRelativeMove(d: seq<Token>)
    requires d == [Cmd('m'), Num(1.0), Num(2.0), Num(3.0), Num(4.0)]
    ensures RelativeSpec(d) == Ok([Cmd('M'), Num(1.0), Num(2.0), Cmd('M'), Num(3.0), Num(4.0)])
  {
    RelativeMoveThenPair(d, 'M');
    assert [Cmd('M'), Num(1.0), Num(2.0)] + [Cmd('M'), Num(3.0), Num(4.0)]
        == [Cmd('M'), Num(1.0), Num(2.0), Cmd('M'), Num(3.0), Num(4.0)];
  }

  /** With cs left at "m", the same path goes to (1, 2) and then to
      (1 + 3, 2 + 4). */
  lemma ImplicitPairsFixed(d: seq<Token>)
    requires d == [Cmd('m'), Num(1.0), Num(2.0), Num(3.0), Num(4.0)]
    ensures RelativeFixedSpec(d) == Ok([Cmd('M'), Num(1.0), Num(2.0), Cmd('M'), Num(4.0), Num(6.0)])
  {
    RelativeMoveThenPair(d, 'm');
    assert [Cmd('M'), Num(1.0), Num(2.0)] + [Cmd('M'), Num(4.0), Num(6.0)]
        == [Cmd('M'), Num(1.0), Num(2.0), Cmd('M'), Num(4.0), Num(6.0)];
  }

  /** The path `M 1 2 L 3 4 Z` as tokens. */
  const ClosedPath: seq<string> := ["M", "1", "2", "L", "3", "4", "Z"]

  /** What `float` gives for the four numbers of ClosedPath. */
  predicate ReadsDigits(nums: Numerics) {
    && nums.parse("1") == Some(1.0) && nums.parse("2") == Some(2.0)
    && nums.parse("3") == Some(3.0) && nums.parse("4") == Some(4.0)
  }

  /** Token list d starts with `M 1 2 L 3 4`. */
  predicate OpensPath(d: seq<Token>) {
    && |d| >= 6 && d[0] == Cmd('M') && d[1] == Num(1.0) && d[2] == Num(2.0)
    && d[3] == Cmd('L') && d[4] == Num(3.0) && d[5] == Num(4.0)
  }

  /** The first six tokens of ClosedPath, read. */
  lemma LexedOpensPath(nums: Numerics, p: seq<string>)
    requires ReadsDigits(nums) && |p| >= 6
    requires p[0] == "M" && p[1] == "1" && p[2] == "2" && p[3] == "L" && p[4] == "3" && p[5] == "4"
    ensures OpensPath(Lexed(nums, p))
  {
  }

  /** The conversion of `M 1 2 L 3 4` followed by more tokens reaches the
      state after the L group. */
  lemma OpenPathStates(d: seq<Token>, mState: char)
    requires OpensPath(d)
    ensures RelLoop(d, RelStart, mState) ==
      RelLoop(d, Rel(6, Some('L'), Point(3.0, 4.0),
                     [Cmd('M'), Num(1.0), Num(2.0)] + [Cmd('L'), Num(3.0), Num(4.0)]), mState)
  {
    PairPasses(d, RelStart, mState, 0, 'M');
    var s1 := Rel(3, Some('M'), Point(1.0, 2.0), [Cmd('M'), Num(1.0), Num(2.0)]);
    assert RelStart.out + [Cmd('M'), Num(1.0), Num(2.0)] == s1.out;
    PairPasses(d, s1, mState, 3, 'L');
  }

  /** After `M 1 2 L 3 4`, an L with one number runs off the end. */
  lemma LineWithOneNumberFails(d: seq<Token>)
    requires OpensPath(d) && |d| == 8 && d[6] == Cmd('L') && d[7].Num?
    ensures RelativeSpec(d) == Err(IndexOutOfRange(8))
  {
    OpenPathStates(d, 'M');
    var s2 := Rel(6, Some('L'), Point(3.0, 4.0), [Cmd('M'), Num(1.0), Num(2.0)] + [Cmd('L'), Num(3.0), Num(4.0)]);
    assert NumAt(d, 8) == Err(IndexOutOfRange(8));
    assert RelStep(d, s2, 'M') == Err(IndexOutOfRange(8));
  }

  /** As written, closing a path breaks the conversion: the line back to the
      start gets one coordinate, and `relative_to_absolute` indexes past the
      end of the token list. */
  lemma ClosingFailsAsWritten(nums: Numerics)
    requires ReadsDigits(nums)
    ensures DeleteZ(ClosedPath) == Ok(["M", "1", "2", "L", "3", "4", "L", "1"])
    ensures RelativeSpec(Lexed(nums, DeleteZ(ClosedPath).value)) == Err(IndexOutOfRange(8))
  {
    var p := ["M", "1", "2", "L", "3", "4", "L", "1"];
    assert Drop1("M") == [] && "L" + Drop1("M") == "L";
    assert ClosedPath[..6] == ["M", "1", "2", "L", "3", "4"];
    assert ClosedPath[..6] + ["L"] + ["1"] == p;
    LexedOpensPath(nums, p);
    LineWithOneNumberFails(Lexed(nums, p));
  }

  /** The states the conversion of `M 1 2 L 3 4 L 1 2` goes through. */
  lemma LineBackStates(d: seq<Token>, mState: char)
    requires OpensPath(d) && |d| == 9 && d[6] == Cmd('L') && d[7] == Num(1.0) && d[8] == Num(2.0)
    ensures RelLoop(d, RelStart, mState) ==
      Ok(Rel(9, Some('L'), Point(1.0, 2.0),
             [Cmd('M'), Num(1.0), Num(2.0)] + [Cmd('L'), Num(3.0), Num(4.0)] + [Cmd('L'), Num(1.0), Num(2.0)]))
  {
    OpenPathStates(d, mState);
    var s2 := Rel(6, Some('L'), Point(3.0, 4.0), [Cmd('M'), Num(1.0), Num(2.0)] + [Cmd('L'), Num(3.0), Num(4.0)]);
    assert Base(d, s2, 6) && Branch(d[6], s2.cs) == Some('L');
    PairPasses(d, s2, mState, 6, 'L');
  }

  /** After `M 1 2 L 3 4`, an L with both numbers closes the path. */
  lemma LineBackCompletes(d: seq<Token>)
    requires OpensPath(d) && |d| == 9 && d[6] == Cmd('L') && d[7] == Num(1.0) && d[8] == Num(2.0)
    ensures RelativeSpec(d) == Ok([Cmd('M'), Num(1.0), Num(2.0), Cmd('L'), Num(3.0), Num(4.0), Cmd('L'), Num(1.0), Num(2.0)])
  {
    LineBackStates(d, 'M');
    assert [Cmd('M'), Num(1.0), Num(2.0)] + [Cmd('L'), Num(3.0), Num(4.0)] + [Cmd('L'), Num(1.0), Num(2.0)]
        == [Cmd('M'), Num(1.0), Num(2.0), Cmd('L'), Num(3.0), Num(4.0), Cmd('L'), Num(1.0), Num(2.0)];
  }

  lemma DeleteZFixedClosedPath()
    ensures DeleteZFixed(ClosedPath) == Ok(["M", "1", "2", "L", "3", "4", "L", "1", "2"])
  {
    assert ClosedPath[..6] == ["M", "1", "2", "L", "3", "4"];
    assert ClosedPath[1] == "1" && ClosedPath[2] == "2";
    assert Closes(ClosedPath) && |ClosedPath| == 7;
    assert ClosedPath[..6] + ["L", "1", "2"] == ["M", "1", "2", "L", "3", "4", "L", "1", "2"];
  }

  /** With the rewrite fixed, the same path closes with a line back to its
      first point. */
  lemma ClosingWorksFixed(nums: Numerics)
    requires ReadsDigits(nums)
    ensures DeleteZFixed(ClosedPath) == Ok(["M", "1", "2", "L", "3", "4", "L", "1", "2"])
    ensures RelativeSpec(Lexed(nums, DeleteZFixed(ClosedPath).value))
         == Ok([Cmd('M'), Num(1.0), Num(2.0), Cmd('L'), Num(3.0), Num(4.0), Cmd('L'), Num(1.0), Num(2.0)])
  {
    DeleteZFixedClosedPath();
    var p := ["M", "1", "2", "L", "3", "4", "L", "1", "2"];
    var d := Lexed(nums, p);
    LexedOpensPath(nums, p);
    assert d[6] == Cmd('L') && d[7] == Num(1.0) && d[8] == Num(2.0);
    LineBackCompletes(d);
  }

  /** Any path whose tokens are those of `M 1 2 L 3 4 Z` fails to clean as
      written, and cleans to the closed outline once both halves of the
      close rewrite are corrected. */
  lemma CleanClosedPath(nums: Numerics, d: string)
    requires ReadsDigits(nums) && Tokenize(d) == ClosedPath
    ensures CleanPathAsWritten(nums, d) == Err(IndexOutOfRange(8))
    ensures CleanPath(nums, d)
         == Ok([Cmd('M'), Num(1.0), Num(2.0), Cmd('L'), Num(3.0), Num(4.0), Cmd('L'), Num(1.0), Num(2.0)])
  {
    ClosingFailsAsWritten(nums);
    ClosingWorksFixed(nums);
    var t := Lexed(nums, DeleteZFixed(ClosedPath).value);
    LexedOpensPath(nums, DeleteZFixed(ClosedPath).value);
    LineBackStates(t, 'm');
    assert [Cmd('M'), Num(1.0), Num(2.0)] + [Cmd('L'), Num(3.0), Num(4.0)] + [Cmd('L'), Num(1.0), Num(2.0)]
        == [Cmd('M'), Num(1.0), Num(2.0), Cmd('L'), Num(3.0), Num(4.0), Cmd('L'), Num(1.0), Num(2.0)];
  }
}
