/** Values shared by every part of the converter: points, the G-code lines it
    emits, the outcome of a conversion step, and the numeric primitives that
    the model leaves abstract (number parsing, rounding, trigonometry). */
module Common {

  datatype Option<+T> = None | Some(value: T)

  /** Why a conversion stops. Each case stands for the Python exception, or the
      endless loop, that the original code runs into on such an input. */
  datatype Error =
    | IndexOutOfRange(index: int)  // IndexError
    | NotANumber                   // ValueError raised by float()
    | WrongArity                   // ValueError raised by tuple unpacking
    | UndefinedName                // NameError
    | NoProgress(at: int)          // the loop would spin forever at this index
    | NonConvergence               // the adaptive flattening ran out of fuel

  datatype Result<+T> = Ok(value: T) | Err(error: Error) {
    predicate IsFailure() { Err? }

    function PropagateFailure<U>(): Result<U>
      requires Err?
    {
      Err(error)
    }

    function Extract(): T
      requires Ok?
    {
      value
    }
  }

  datatype Point = Point(x: real, y: real)

  const Origin: Point := Point(0.0, 0.0)

  /** The numeric primitives of the Python runtime that the model does not
      define: `float(s)` (None where it raises ValueError), the Euclidean
      `distance` (a square root), the rounding `round(v, accuracy)` behind
      `approx`, and `math.cos`/`math.sin`. */
  datatype Numerics = Numerics(
    parse: string -> Option<real>,
    distance: (Point, Point) -> real,
    approx: real -> real,
    cos: real -> real,
    sin: real -> real)

  function Distance(nums: Numerics, p: Point, q: Point): real {
    nums.distance(p, q)
  }

  function Cos(nums: Numerics, a: real): real {
    nums.cos(a)
  }

  function Sin(nums: Numerics, a: real): real {
    nums.sin(a)
  }

  function RoundPoint(nums: Numerics, p: Point): Point {
    Point(nums.approx(p.x), nums.approx(p.y))
  }

  /** A display position: a point that the rounding produced. */
  ghost predicate Displayed(nums: Numerics, q: Point) {
    exists w :: RoundPoint(nums, w) == q
  }

  /** One line of the motion stream. */
  datatype GLine =
    | G1(to: Point)   // G1 X.. Y..  linear move
    | M3              // M3 S1000    tool down
    | M5              // M5          tool up
    | G4(pause: int)  // G4 P0.<ms> dwell

  /** The target of the last G1 line of `out`, or `default` if there is none. */
  function LastG1(out: seq<GLine>, default: Point): Point {
    if out == [] then default
    else if out[|out| - 1].G1? then out[|out| - 1].to
    else LastG1(out[..|out| - 1], default)
  }

  lemma {:induction false} LastG1Append(a: seq<GLine>, b: seq<GLine>, default: Point)
    ensures LastG1(a + b, default) == LastG1(b, LastG1(a, default))
    decreases |b|
  {
    if b == [] {
      assert a + b == a;
    } else {
      assert (a + b)[..|a + b| - 1] == a + b[..|b| - 1];
      LastG1Append(a, b[..|b| - 1], default);
    }
  }

  /** Every G1 line of `out` goes to a display position. */
  ghost predicate AllDisplayed(nums: Numerics, out: seq<GLine>) {
    forall k :: 0 <= k < |out| && out[k].G1? ==> Displayed(nums, out[k].to)
  }

  /** Python's `s[j]`: a negative index counts from the end. */
  function PyAt<T>(s: seq<T>, j: int): (r: Result<T>)
    ensures r.Ok? <==> -|s| <= j < |s|
    ensures r.Ok? ==> r.value == s[if j < 0 then |s| + j else j]
  {
    if 0 <= j < |s| then Ok(s[j])
    else if -|s| <= j < 0 then Ok(s[|s| + j])
    else Err(IndexOutOfRange(j))
  }
}
