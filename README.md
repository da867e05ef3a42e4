# svg-to-gcode, modelled in Dafny

svg-to-gcode turns the `<path>` elements of an SVG drawing into G-code for a
pen plotter. The model covers how a path gets from path data to motion lines.

- **Tokenize.** The `d` attribute is split into command letters and numbers
  (`clean_it`).
- **Rewrite the close command.** A trailing close command is rewritten
  (`delete_Z`).
- **Make commands absolute.** Relative commands `m l h v c` become absolute
  `M L C` groups (`relative_to_absolute`).
- **Walk the tokens.** `path_to_gcode` walks the absolute token list:
  - every point goes through the SVG `transform` chain (matrix, translate,
    rotate, scale, applied left to right, rounded at the end);
  - `M` lowers the pen, `L` moves it;
  - every cubic Bézier segment is flattened by the adaptive sampler
    `draw_object`. The sampler walks the parameter T with a step dT that
    doubles after each pass and shrinks after an overshoot.
  - the pen is lifted at the end.

The earlier draft `parser.py` is modelled too:
- its fixed-step `draw_object` (dT = 0.01, dl_min = 1);
- its `path_to_gcode`, which reads whitespace-separated tokens whose first
  character is the command.

The `bezier` and `line` evaluators are identical in both files
(code/parser.py:112-123 repeats code/svg_to_gcode.py:64-75). They are
modelled once, in `Curves`.

Modules, one per file:
- `Common`: points, G-code lines, results and errors, and Python's negative
  indexing. It also holds the numeric primitives the model leaves abstract:
  `float`, `math.sqrt` distance, `round`, `cos` and `sin`.
- `Text`: the `re.split`/`filter` tokenizers.
- `Curves`: `bezier` and `line`.
- `Transforms`: `transform`.
- `Flattener`: the adaptive `draw_object`.
- `Preprocess`: `delete_Z` and `relative_to_absolute`.
- `Interpreter`: `path_to_gcode` of svg_to_gcode.py.
- `Draft`: parser.py.

How the Python maps onto Dafny:
- A Python exception becomes an `Err` of the matching `Error` kind:
  - `IndexError` becomes `IndexOutOfRange`;
  - `ValueError` from `float` becomes `NotANumber`;
  - a bad unpacking becomes `WrongArity`;
  - the `NameError` of the `Z` branch becomes `UndefinedName`.
- A token that no branch of a `while` loop accepts makes the Python loop spin
  forever. It becomes `NoProgress`.
- The adaptive loop is not known to terminate. It runs on a fuel bound and
  reports `NonConvergence` when the fuel runs out. `FuelIsOnlyABound` shows
  that fuel never changes a run that finishes.
- Every `while` loop that updates variables is a `method` with a loop
  invariant. The method is proved equal to a recursive specification
  function, and the properties are proved about that function.

## Model

| member | source | states |
|---|---|---|
| Common.PyAt | code/svg_to_gcode.py:200 | `p[j]` succeeds exactly when -len <= j < len, and a negative j reads from the end (as `p[i-2]` does at i = 0 or 1) |
| Text.Tokenize | code/svg_to_gcode.py:356 | the tokens, joined, give back the path data without its commas and spaces; every token is non-empty and is either one command character or a run with no command or separator in it |
| Text.Fields | code/svg_to_gcode.py:125 | splitting on separators and dropping empty pieces loses nothing but the separators; no piece is empty or holds a separator |
| Text.SplitFromJoins | code/svg_to_gcode.py:356 | re-joining the tokens of the splitter gives the input with the separators removed (the command characters are kept) |
| Text.SplitFromTokens | code/svg_to_gcode.py:356 | every token the splitter produces is well formed: a lone kept character, or a run of ordinary characters |
| Text.TokenizeAtSeparator | code/svg_to_gcode.py:356 | a comma or space splits the path data there and is lost: the tokens of a + sep + b are those of a followed by those of b |
| Text.TokenizeAtCommand | code/svg_to_gcode.py:356 | a command character splits there and becomes a token of its own: a + k + b gives the tokens of a, then [k], then those of b |
| Text.TokenizeRun | code/svg_to_gcode.py:356 | a run with no command or separator is never split: it is one token, and empty data gives none |
| Text.FieldsAtSeparator | code/svg_to_gcode.py:125 | every separator splits and is lost: the pieces of a + sep + b are those of a followed by those of b |
| Text.FieldsRun | code/svg_to_gcode.py:125 | a run without separators is one piece, and the empty string gives none |
| Curves.Bezier | code/svg_to_gcode.py:64-68 | the cubic blend starts at the first control point (T = 0) and ends at the last (T = 1) |
| Curves.BezierOfOnePoint | code/svg_to_gcode.py:66-67 | the four Bernstein weights sum to one: a curve whose control points coincide stays at that point |
| Curves.BezierTranslates | code/svg_to_gcode.py:66-67 | moving all four control points by (dx, dy) moves every point of the curve by (dx, dy) |
| Curves.Line | code/svg_to_gcode.py:70-75 | as written: y is always y2; x is x1 before T = 1, and the end point is returned from T = 1 on |
| Curves.LineMissesItsStart | code/svg_to_gcode.py:70-75 | as written, the segment (0,0)-(10,10) evaluated at T = 0 gives (0,10), not its start point |
| Curves.LineFixed | code/svg_to_gcode.py:70-75 | corrected: the start point before T = 1, the end point from T = 1 on |
| Curves.LineFixedEndpoints | code/svg_to_gcode.py:70-75 | the corrected line starts at its first point and ends at its last |
| Transforms.Float | code/svg_to_gcode.py:136 | `float(s)` succeeds exactly when the string parses, with that value; otherwise ValueError |
| Transforms.Floats | code/svg_to_gcode.py:130 | the list comprehension succeeds exactly when every piece parses, and keeps length and order |
| Transforms.ParseXform | code/svg_to_gcode.py:127-167 | an empty item raises IndexError; unknown names (skewX, skewY, others) are passed over and only they are; matrix needs six numbers; translate with one argument has ty = 0, scale with one argument has sy = sx, rotate with one argument turns about the origin |
| Transforms.ParseMatrix | code/svg_to_gcode.py:129-130 | matrix succeeds exactly with six parsable arguments, which are a..f in order; an unparsable argument raises ValueError before a wrong count fails the unpacking |
| Transforms.ParseTranslate | code/svg_to_gcode.py:136-142 | translate succeeds exactly when its first argument and any second one parse; tx is the first, ty the second or 0; a missing first argument raises IndexError |
| Transforms.ParseRotate | code/svg_to_gcode.py:145-148 | the angle is the first argument; with a second piece the centre is (second, third), and a missing third raises IndexError; with none the centre is the origin |
| Transforms.ParseScale | code/svg_to_gcode.py:155-159 | scale succeeds exactly when its first argument and any second one parse; sx is the first, sy the second or sx; a missing first argument raises IndexError |
| Transforms.TransformSpec | code/svg_to_gcode.py:122-169 | an empty chain only rounds the point; every result is a rounded (display) position |
| Transforms.Transform | code/svg_to_gcode.py:122-169 | the loop over the items, updating (rx, ry), computes TransformSpec |
| Transforms.ApplyItemsAppend | code/svg_to_gcode.py:126-167 | the chain is applied strictly left to right: applying a + b is applying a, then b to its result |
| Transforms.ThenApplies | code/svg_to_gcode.py:131-132 | the product matrix applies the first map, then the second |
| Transforms.XformIsAffine | code/svg_to_gcode.py:129-161 | every item, the rotation about (cx, cy) included, is the affine map of its matrix |
| Transforms.ApplyItemsIsOneMatrix | code/svg_to_gcode.py:126-167 | applying the items one by one gives exactly the point the single pre-multiplied matrix gives, and fails on the same chains |
| Flattener.SweepLoop | code/svg_to_gcode.py:95-107 | a finished loop has T >= 1; the only failure is running out of fuel |
| Flattener.StepEffect | code/svg_to_gcode.py:96-107 | one pass writes exactly when the candidate is farther than dl_min and (closer than dl_max or dT = 0); a write moves the cursor to the rounded candidate; a skip or write advances T by dT and doubles it; an overshoot moves T back by dT/4 and halves dT |
| Flattener.SweepLoopBanded | code/svg_to_gcode.py:96-101 | with a positive dT, every point the loop writes lies strictly between dl_min and dl_max from the cursor of its time |
| Flattener.LoopWritesInBand | code/svg_to_gcode.py:95-107 | with dT_min > 0, dT stays positive (the `dT == 0` branch is dead), every write lies in the band, and the loop ends with the cursor at its last written point |
| Flattener.DrawSpec | code/svg_to_gcode.py:84-116 | `draw_object` fails only by running out of fuel |
| Flattener.DrawShape | code/svg_to_gcode.py:84-116 | the output starts with the pen-down prefix (G1 to the start point, M3, the start pause) when DOWN is set and ends with M5 and the end pause when UP is set; the new cursor is the rounded end point of the curve or within `sensitivity` of it |
| Flattener.DrawPenCommands | code/svg_to_gcode.py:86-116 | M3 is written exactly when DOWN is set and M5 exactly when UP is set |
| Flattener.DrawEndPoint | code/svg_to_gcode.py:108-116 | the end point at T = 1 is written, as one G1 after the loop's lines and before the pen-up suffix, exactly when the loop's cursor is farther than `sensitivity` from it; the cursor is then that rounded end point, and otherwise the loop's cursor |
| Flattener.DrawObject | code/svg_to_gcode.py:84-116 | the imperative `draw_object` computes DrawSpec |
| Flattener.Sweeping | code/svg_to_gcode.py:95-107 | the while loop, updating T, dT, the cursor and the G-code, writes the lines of SweepLoop and leaves its cursor, or fails exactly when it does |
| Flattener.DrawCursorIsLastWritten | code/svg_to_gcode.py:98-112 | without pen-down, the returned cursor is the target of the last G1 written, or the incoming position if none |
| Flattener.DrawWritesDisplayedPoints | code/svg_to_gcode.py:98-112 | without pen-down, every G1 line goes to a rounded position: exact curve points never reach the output |
| Flattener.FuelIsOnlyABound | code/svg_to_gcode.py:95 | giving the loop more fuel never changes a run that finished |
| Interpreter.PointAt | code/svg_to_gcode.py:180 | a point read from two tokens and sent through `transform` is a display position |
| Interpreter.ControlsAt | code/svg_to_gcode.py:200-203 | the four control points are read from the first pair and from the three pairs at the second index |
| Interpreter.Pass | code/svg_to_gcode.py:177-215 | each pass moves forward and only appends; M and L succeed exactly when their point can be read and transformed; M writes G1, M3 and the start pause and advances 3; L writes G1 and advances 3; Z always fails (NameError on x, y) |
| Interpreter.CurvePassSucceeds | code/svg_to_gcode.py:198-215 | a curve pass fails exactly when a control point cannot be read or transformed, or `draw_object` fails |
| Interpreter.CurvePassDraws | code/svg_to_gcode.py:198-215 | a curve pass reads the start control point from the two tokens before i, whatever the pen; it flattens from the pen without lifting or lowering it, appends exactly what `draw_object` wrote, moves the pen to its cursor, and advances 7 after C and 6 otherwise |
| Interpreter.PassLoop | code/svg_to_gcode.py:177-216 | the loop ends at the end of the tokens and only appends to the G-code |
| Interpreter.PathSpec | code/svg_to_gcode.py:171-220 | the result ends with M5 and the end pause |
| Interpreter.RunPass | code/svg_to_gcode.py:177-215 | the loop body, with `transform` and `draw_object` run as methods, computes Pass |
| Interpreter.PathToGcode | code/svg_to_gcode.py:171-220 | the imperative loop, updating i, (cx, cy) and the G-code, computes PathSpec |
| Interpreter.PassKeepsPen | code/svg_to_gcode.py:177-215 | every pass keeps the pen at the target of the last G1 written and keeps every G1 at a display position |
| Interpreter.PathWritesDisplayedPoints | code/svg_to_gcode.py:171-220 | the pen `path_to_gcode` ends with is the last point it moved to, and every G1 line it writes goes to a rounded (display) position |
| Preprocess.Lex | code/svg_to_gcode.py:235 | a single letter is a command; a number token is what `float` gives; any other word fails `float` |
| Preprocess.DeleteZ | code/svg_to_gcode.py:324-328 | as written: an empty list fails (`p[-1]`); a list not ending in z/Z is unchanged; otherwise the close command becomes `'L' + p[0][1:]` followed by `p[1]` alone |
| Preprocess.DeleteZFixed | code/svg_to_gcode.py:324-328 | corrected: the close command becomes L followed by both coordinates of the first point |
| Preprocess.NumAt | code/svg_to_gcode.py:308 | `float(d[j])` succeeds exactly when the index is in range (negative counting from the end) and the token is a number |
| Preprocess.Slice | code/svg_to_gcode.py:306 | `d[lo:hi]` is clamped to the list and keeps the order of its elements |
| Preprocess.Branch | code/svg_to_gcode.py:236-311 | the if-chain takes the command itself, or for a number the current command; no branch is taken for any other token |
| Preprocess.RelStep | code/svg_to_gcode.py:234-321 | every successful pass advances the index |
| Preprocess.PairStepEmits | code/svg_to_gcode.py:236-267 | M, m, L, l read two numbers and write one M or L group; m and l add them to the current point |
| Preprocess.AxisStepEmits | code/svg_to_gcode.py:269-299 | H, h, V, v read one number, write an L group and move the current point along one axis only |
| Preprocess.CurveCopyEmits | code/svg_to_gcode.py:301-309 | C copies up to six tokens verbatim and takes the current point from the last two written |
| Preprocess.ShiftedGroup | code/svg_to_gcode.py:316-318 | the group of c: every x offset by cx and every y by cy |
| Preprocess.CurveShiftEmits | code/svg_to_gcode.py:311-321 | c reads six numbers and writes the shifted group, ending on its last pair |
| Preprocess.RelStepEmits | code/svg_to_gcode.py:234-321 | a token no branch takes is an error (the source loops forever); a successful pass writes exactly one group and sets cs to its command ("M" for m, as written) |
| Preprocess.RelLoop | code/svg_to_gcode.py:234 | a finished loop has consumed the whole token list |
| Preprocess.RelLoopExtends | code/svg_to_gcode.py:234-322 | the loop only appends to `res` |
| Preprocess.RelativeToAbsolute | code/svg_to_gcode.py:229-322 | the imperative loop, updating i, cs, (cx, cy) and res, computes RelativeSpec |
| Preprocess.RelLoopGroups | code/svg_to_gcode.py:234-322 | the output is made of whole M/L/C groups, the last possibly a C cut short, and the current point is the last pair written |
| Preprocess.RelativeGroups | code/svg_to_gcode.py:229-322 | `relative_to_absolute` emits only M, L and C groups, a shorter C only at the very end |
| Preprocess.RelLoopNeverRelativeMove | code/svg_to_gcode.py:243-244 | as written, cs never becomes "m", so a number is never read as a relative move |
| Preprocess.ImplicitPairsAfterRelativeMove | code/svg_to_gcode.py:243-250 | as written, `m 1 2 3 4` moves to (1, 2) and then to (3, 4) |
| Preprocess.ImplicitPairsFixed | code/svg_to_gcode.py:243-250 | with cs set to "m", `m 1 2 3 4` moves to (1, 2) and then to (4, 6) |
| Preprocess.LineWithOneNumberFails | code/svg_to_gcode.py:252-258 | an L followed by a single number at the end raises IndexError |
| Preprocess.ClosingFailsAsWritten | code/svg_to_gcode.py:324-328 | as written, `M 1 2 L 3 4 Z` becomes `M 1 2 L 3 4 L 1`, and `relative_to_absolute` then raises IndexError |
| Preprocess.ClosingWorksFixed | code/svg_to_gcode.py:324-328 | with the corrected rewrite, the same path closes with a line back to (1, 2) |
| Preprocess.CleanPathGroups | code/svg_to_gcode.py:356 | a cleaned path (with both corrections) is a list of absolute M, L and C groups |
| Preprocess.CleanClosedPath | code/svg_to_gcode.py:355-356 | any `d` tokenized as `M 1 2 L 3 4 Z`: cleaning as written raises IndexError; with both corrections it closes with a line back to (1, 2) |
| Draft.SampleLoop | code/parser.py:44-51 | a finished loop has T >= end and only appends written points |
| Draft.SampleLoopStops | code/parser.py:43-51 | the loop stops at T = start + dT + n dT with n = ceil((end - start - dT) / dT) |
| Draft.SampleLoopWritesAtMost | code/parser.py:44-51 | each pass writes at most one point, so at most n points are written |
| Draft.DrawSamplesSpaced | code/parser.py:36-51 | every written sample lies at least dl_min from the one written before it (the start point first) |
| Draft.DrawSpec | code/parser.py:36-57 | the start point is written first; M3 appears exactly when DOWN and M5 exactly when UP; the end point is written last before the pen-up suffix |
| Draft.DrawObject | code/parser.py:36-57 | the imperative `draw_object` computes DrawSpec |
| Draft.Sampling | code/parser.py:43-51 | the while loop, updating T, the anchor and the G-code, writes the points SampleLoop picks |
| Draft.NumberAt | code/parser.py:147 | `float(p[j])` succeeds exactly when j is in range and the token parses |
| Draft.PairAt | code/parser.py:143-147 | a move reads the number glued to its token and the next token; both must parse |
| Draft.CurveArgs | code/parser.py:160 | C succeeds exactly when its six numbers are present and parse; the pairs are (`p[i][1:]`, `p[i+1]`), (`p[i+2]`, `p[i+3]`) and (`p[i+4]`, `p[i+5]`) in order |
| Draft.Pass | code/parser.py:140-162 | each pass moves forward and only appends; M and L succeed exactly when their pair can be read, Z exactly when the first pair of the path can; they write that pair and advance 2, 2 and 1; any other first character makes no progress |
| Draft.PassDrawsCurve | code/parser.py:158-162 | C succeeds exactly when its numbers are read; it appends the flattened segment from the pen through the three pairs with neither pen command, moves the pen to the third pair and advances 6 |
| Draft.PathSpec | code/parser.py:134-166 | the result ends with M5 and the end pause |
| Draft.RunPass | code/parser.py:140-162 | the loop body, with `draw_object` run as a method, computes Pass |
| Draft.PathToGcode | code/parser.py:134-166 | the imperative loop computes PathSpec |
| Draft.PassMovesPenToLastLine | code/parser.py:140-162 | after every pass the pen is where the last G1 went: for a curve, the end point the sampler writes last is the end control point, which the pen is set to |
| Draft.PathPenIsLastLine | code/parser.py:134-166 | the pen `path_to_gcode` ends with is the target of its last G1 line |

## Left out

- Reading the SVG file: `minidom`, `get_transform`, `SVG_info` and the file
  written by `gcode()` are I/O.
  - The model starts from the `d` and `transform` strings.
  - Its output is a list of G-code lines, not formatted text.
- Command-line parameters and the script's default thresholds are not
  modelled. The thresholds are the fields of `Flattener.Config`, any values.
- Number parsing (`float`), `str` of a float, `math.sqrt`, `round(v,
  accuracy)`, `math.cos` and `math.sin` are abstract functions passed in as
  `Numerics`. Floating-point rounding of the arithmetic is not modelled;
  arithmetic is on reals.
- A number written back as text by `str` and read again by `float` is
  modelled as the same number (`Preprocess.Token` holds the value).
- parser.py writes the M and L coordinates into the G-code as the token text.
  The model writes the parsed numbers.
- parser.py sets the pen after a curve to the strings `p[i+4]`, `p[i+5]`. The
  model sets it to their values, which the next `bezier` call would read with
  `float`.
- `print` calls (the progress messages) are left out.
- skewX and skewY items are passed over with a printed message
  (code/svg_to_gcode.py:163-167). The model passes over them without the
  message.
- `circle` and `ellipse` are not modelled, nor `draw_object` called with
  them or with `line`. In svg_to_gcode.py those calls are commented out
  (code/svg_to_gcode.py:366-373). In parser.py they are reachable only from
  `gcode()` (code/parser.py:178-193), which nothing calls.
- `Curves.Curve` is a Bézier segment rather than an arbitrary Python
  function `F`: `bezier` is the only evaluator any reachable call passes.
- Flattener.DrawSpec: the loop is not known to terminate. It runs on fuel,
  and a run that needs more passes than the fuel is reported as
  `NonConvergence` instead of looping forever.
- The exact position (rx, ry) that `path_to_gcode` of svg_to_gcode.py
  declares is never read, so it is not modelled.

## Findings

| source | as written | input that shows it | evidently intended | confidence | as-written member | corrected member |
|---|---|---|---|---|---|---|
| code/svg_to_gcode.py:70-75 (also code/parser.py:118-123) | `line` returns (x1, y2) for T < 1 | `line([0, 0, 10, 10], 0)` gives (0, 10) | (x1, y1) for T < 1 | not executed | Curves.LineMissesItsStart | Curves.LineFixedEndpoints |
| code/svg_to_gcode.py:324-328 | the close command becomes `'L' + p[0][1:]` and `p[1]`: one coordinate, and with the tokenizer of line 356 `p[0]` is just "M" | `M 1 2 L 3 4 Z` becomes `M 1 2 L 3 4 L 1`, and `relative_to_absolute` raises IndexError | L followed by `p[1]` and `p[2]` | not executed | Preprocess.ClosingFailsAsWritten | Preprocess.ClosingWorksFixed |
| code/svg_to_gcode.py:243-250 | the `m` branch sets cs to "M", so its condition `cs == "m"` never holds | `m 1 2 3 4` moves to (1, 2) and then to (3, 4) | cs = "m": the implicit pairs are relative, (1, 2) then (4, 6) | not executed | Preprocess.ImplicitPairsAfterRelativeMove | Preprocess.ImplicitPairsFixed |
