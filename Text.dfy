/** String splitting as the converter does it with `re.split`, `filter` and
    `str.split`: separators disappear, some characters become tokens of their
    own, and empty pieces are dropped. */
module Text {

  /** The character class `[M|C|L|H|V|m|c|l|h|v]` of the path-data tokenizer
      (svg_to_gcode.py, clean_it); the class also holds '|'. */
  const PathCommands: set<char> := {'M', 'C', 'L', 'H', 'V', 'm', 'c', 'l', 'h', 'v', '|'}

  /** The other two alternatives of that regular expression. */
  const PathSeparators: set<char> := {',', ' '}

  /** What Python 3's `str.split()` without arguments splits on: the
      characters `str.isspace` accepts, ASCII and Unicode. */
  const Whitespace: set<char> := {
    '\t', '\n', '\U{B}', '\U{C}', '\r', '\U{1C}', '\U{1D}', '\U{1E}', '\U{1F}', ' ',
    '\U{85}', '\U{A0}', '\U{1680}',
    '\U{2000}', '\U{2001}', '\U{2002}', '\U{2003}', '\U{2004}', '\U{2005}',
    '\U{2006}', '\U{2007}', '\U{2008}', '\U{2009}', '\U{200A}',
    '\U{2028}', '\U{2029}', '\U{202F}', '\U{205F}', '\U{3000}'}

  /** Splits `s` at every character of `drop`, which disappears, and at every
      character of `keep`, which becomes a token of its own; empty pieces are
      dropped. `cur` is the piece read so far. */
  function SplitFrom(s: string, keep: set<char>, drop: set<char>, cur: string): seq<string>
    decreases |s|
  {
    if s == [] then Piece(cur)
    else if s[0] in keep then Piece(cur) + [[s[0]]] + SplitFrom(s[1..], keep, drop, [])
    else if s[0] in drop then Piece(cur) + SplitFrom(s[1..], keep, drop, [])
    else SplitFrom(s[1..], keep, drop, cur + [s[0]])
  }

  /** `s[1:]`. */
  function Drop1(s: string): string {
    if s == [] then [] else s[1..]
  }

  function Piece(cur: string): seq<string> {
    if cur == [] then [] else [cur]
  }

  function Concat(ss: seq<string>): string {
    if ss == [] then [] else ss[0] + Concat(ss[1..])
  }

  /** `s` with every character of `drop` removed. */
  function Without(s: string, drop: set<char>): string {
    if s == [] then [] else (if s[0] in drop then [] else [s[0]]) + Without(s[1..], drop)
  }

  /** A token is never empty; it is either one kept character or a run of
      characters that are neither kept nor separators. */
  ghost predicate WellFormed(t: string, keep: set<char>, drop: set<char>) {
    t != [] &&
    ((|t| == 1 && t[0] in keep) || forall c :: c in t ==> c !in keep && c !in drop)
  }

  ghost predicate AllWellFormed(ts: seq<string>, keep: set<char>, drop: set<char>) {
    forall t :: t in ts ==> WellFormed(t, keep, drop)
  }

  lemma {:induction false} ConcatAppend(a: seq<string>, b: seq<string>)
    ensures Concat(a + b) == Concat(a) + Concat(b)
    decreases |a|
  {
    if a == [] {
      assert a + b == b;
    } else {
      assert (a + b)[1..] == a[1..] + b;
      ConcatAppend(a[1..], b);
    }
  }

  lemma ConcatPiece(cur: string)
    ensures Concat(Piece(cur)) == cur
  {
    if cur != [] { assert Concat([cur]) == cur + Concat([]); }
  }

  /** Splitting loses nothing but the separators: the tokens, joined again,
      give back the input without its separators. */
  lemma {:induction false} SplitFromJoins(s: string, keep: set<char>, drop: set<char>, cur: string)
    requires keep !! drop
    ensures Concat(SplitFrom(s, keep, drop, cur)) == cur + Without(s, drop)
    decreases |s|
  {
    ConcatPiece(cur);
    if s == [] {
    } else if s[0] in keep {
      SplitFromJoins(s[1..], keep, drop, []);
      JoinsAtKept(s, keep, drop, cur);
    } else if s[0] in drop {
      SplitFromJoins(s[1..], keep, drop, []);
      JoinsAtDropped(s, keep, drop, cur);
    } else {
      SplitFromJoins(s[1..], keep, drop, cur + [s[0]]);
      assert (cur + [s[0]]) + Without(s[1..], drop) == cur + ([s[0]] + Without(s[1..], drop));
    }
  }

  lemma JoinsAtKept(s: string, keep: set<char>, drop: set<char>, cur: string)
    requires keep !! drop && s != [] && s[0] in keep
    requires Concat(SplitFrom(s[1..], keep, drop, [])) == Without(s[1..], drop)
    ensures Concat(SplitFrom(s, keep, drop, cur)) == cur + Without(s, drop)
  {
    var rest := SplitFrom(s[1..], keep, drop, []);
    ConcatPiece(cur);
    ConcatAppend(Piece(cur) + [[s[0]]], rest);
    ConcatAppend(Piece(cur), [[s[0]]]);
    assert Concat([[s[0]]]) == [s[0]] + Concat([]);
    assert s[0] !in drop;
    assert Without(s, drop) == [s[0]] + Without(s[1..], drop);
  }

  lemma JoinsAtDropped(s: string, keep: set<char>, drop: set<char>, cur: string)
    requires s != [] && s[0] !in keep && s[0] in drop
    requires Concat(SplitFrom(s[1..], keep, drop, [])) == Without(s[1..], drop)
    ensures Concat(SplitFrom(s, keep, drop, cur)) == cur + Without(s, drop)
  {
    var rest := SplitFrom(s[1..], keep, drop, []);
    assert SplitFrom(s, keep, drop, cur) == Piece(cur) + rest;
    ConcatPiece(cur);
    ConcatAppend(Piece(cur), rest);
    assert Without(s, drop) == Without(s[1..], drop);
  }

  lemma AllWellFormedAppend(a: seq<string>, b: seq<string>, keep: set<char>, drop: set<char>)
    requires AllWellFormed(a, keep, drop) && AllWellFormed(b, keep, drop)
    ensures AllWellFormed(a + b, keep, drop)
  {
    forall t | t in a + b ensures WellFormed(t, keep, drop) {
      assert t in a || t in b;
    }
  }

  /** Every token the splitter produces is well formed. */
  lemma {:induction false} SplitFromTokens(s: string, keep: set<char>, drop: set<char>, cur: string)
    requires forall c :: c in cur ==> c !in keep && c !in drop
    ensures AllWellFormed(SplitFrom(s, keep, drop, cur), keep, drop)
    decreases |s|
  {
    assert AllWellFormed(Piece(cur), keep, drop);
    if s == [] {
    } else if s[0] in keep {
      SplitFromTokens(s[1..], keep, drop, []);
      assert WellFormed([s[0]], keep, drop);
      AllWellFormedAppend(Piece(cur), [[s[0]]], keep, drop);
      AllWellFormedAppend(Piece(cur) + [[s[0]]], SplitFrom(s[1..], keep, drop, []), keep, drop);
    } else if s[0] in drop {
      SplitFromTokens(s[1..], keep, drop, []);
      AllWellFormedAppend(Piece(cur), SplitFrom(s[1..], keep, drop, []), keep, drop);
    } else {
      forall c | c in cur + [s[0]] ensures c !in keep && c !in drop {
        assert c in cur || c == s[0];
      }
      SplitFromTokens(s[1..], keep, drop, cur + [s[0]]);
    }
  }

  lemma SplitFromSound(s: string, keep: set<char>, drop: set<char>)
    requires keep !! drop
    ensures Concat(SplitFrom(s, keep, drop, [])) == Without(s, drop)
    ensures AllWellFormed(SplitFrom(s, keep, drop, []), keep, drop)
  {
    SplitFromJoins(s, keep, drop, []);
    SplitFromTokens(s, keep, drop, []);
  }

  /** The path-data tokenizer of clean_it:
      `filter(None, re.split('([M|C|L|H|V|m|c|l|h|v])|,| ', d))`. */
  function Tokenize(d: string): (r: seq<string>)
    ensures Concat(r) == Without(d, PathSeparators)
    ensures AllWellFormed(r, PathCommands, PathSeparators)
  {
    SplitFromSound(d, PathCommands, PathSeparators);
    SplitFrom(d, PathCommands, PathSeparators, [])
  }

  /** Splitting on separators only, dropping empty pieces: the
      `filter(lambda x: x != '', re.split(...))` of transform and the
      `str.split()` of the draft converter. */
  function Fields(s: string, drop: set<char>): (r: seq<string>)
    ensures Concat(r) == Without(s, drop)
    ensures forall t :: t in r ==> t != [] && forall c :: c in t ==> c !in drop
  {
    SplitFromSound(s, {}, drop);
    SplitFrom(s, {}, drop, [])
  }

  /** A dropped character ends the piece read so far and is lost: the
      splitter treats what lies on either side of it independently. */
  lemma {:induction false} SplitAtDropped(a: string, c: char, b: string, keep: set<char>, drop: set<char>, cur: string)
    requires c in drop && c !in keep
    ensures SplitFrom(a + [c] + b, keep, drop, cur) == SplitFrom(a, keep, drop, cur) + SplitFrom(b, keep, drop, [])
    decreases |a|
  {
    if a == [] {
      assert a + [c] + b == [c] + b;
      assert ([c] + b)[1..] == b;
    } else {
      var s := a + [c] + b;
      assert s[0] == a[0] && s[1..] == a[1..] + [c] + b;
      if a[0] in keep {
        SplitAtDropped(a[1..], c, b, keep, drop, []);
      } else if a[0] in drop {
        SplitAtDropped(a[1..], c, b, keep, drop, []);
      } else {
        SplitAtDropped(a[1..], c, b, keep, drop, cur + [a[0]]);
      }
    }
  }

  /** A kept character ends the piece read so far and becomes a token of
      its own. */
  lemma {:induction false} SplitAtKept(a: string, c: char, b: string, keep: set<char>, drop: set<char>, cur: string)
    requires c in keep
    ensures SplitFrom(a + [c] + b, keep, drop, cur) == SplitFrom(a, keep, drop, cur) + [[c]] + SplitFrom(b, keep, drop, [])
    decreases |a|
  {
    if a == [] {
      assert a + [c] + b == [c] + b;
      assert ([c] + b)[1..] == b;
    } else {
      var s := a + [c] + b;
      assert s[0] == a[0] && s[1..] == a[1..] + [c] + b;
      if a[0] in keep {
        SplitAtKept(a[1..], c, b, keep, drop, []);
      } else if a[0] in drop {
        SplitAtKept(a[1..], c, b, keep, drop, []);
      } else {
        SplitAtKept(a[1..], c, b, keep, drop, cur + [a[0]]);
      }
    }
  }

  /** A run of ordinary characters is never split: it extends the piece
      read so far. */
  lemma {:induction false} SplitOfRun(r: string, keep: set<char>, drop: set<char>, cur: string)
    requires forall k :: 0 <= k < |r| ==> r[k] !in keep && r[k] !in drop
    ensures SplitFrom(r, keep, drop, cur) == Piece(cur + r)
    decreases |r|
  {
    if r == [] {
      assert cur + r == cur;
    } else {
      SplitOfRun(r[1..], keep, drop, cur + [r[0]]);
      assert cur + [r[0]] + r[1..] == cur + r;
    }
  }

  /** The tokenizer of clean_it splits at every comma or space, which is
      lost, ... */
  lemma TokenizeAtSeparator(a: string, c: char, b: string)
    requires c in PathSeparators
    ensures Tokenize(a + [c] + b) == Tokenize(a) + Tokenize(b)
  {
    SplitAtDropped(a, c, b, PathCommands, PathSeparators, []);
  }

  /** ... at every command character, which becomes a token of its own, ... */
  lemma TokenizeAtCommand(a: string, c: char, b: string)
    requires c in PathCommands
    ensures Tokenize(a + [c] + b) == Tokenize(a) + [[c]] + Tokenize(b)
  {
    SplitAtKept(a, c, b, PathCommands, PathSeparators, []);
  }

  /** ... and nowhere else: a run of other characters is one token, and
      an empty input gives no token. */
  lemma TokenizeRun(r: string)
    requires forall k :: 0 <= k < |r| ==> r[k] !in PathCommands && r[k] !in PathSeparators
    ensures Tokenize(r) == if r == [] then [] else [r]
  {
    SplitOfRun(r, PathCommands, PathSeparators, []);
    assert [] + r == r;
  }

  /** Splitting on separators only: every separator splits and is lost ... */
  lemma FieldsAtSeparator(a: string, c: char, b: string, drop: set<char>)
    requires c in drop
    ensures Fields(a + [c] + b, drop) == Fields(a, drop) + Fields(b, drop)
  {
    SplitAtDropped(a, c, b, {}, drop, []);
  }

  /** ... and a run without separators is one piece. */
  lemma FieldsRun(r: string, drop: set<char>)
    requires forall k :: 0 <= k < |r| ==> r[k] !in drop
    ensures Fields(r, drop) == if r == [] then [] else [r]
  {
    SplitOfRun(r, {}, drop, []);
    assert [] + r == r;
  }
}
