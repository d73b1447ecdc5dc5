/** `useSvgPath`: the point list of the move/line subset of SVG path data
    (SVG 1.1, sections 8.3.2 to 8.3.4). The text between the first two
    double quotes is cut into chunks, a new chunk at every letter; each
    chunk's arguments are read as numbers; `M`, `L`, `H` and `V` chunks add
    points while a current position, starting at the origin, follows them;
    every other letter adds nothing. */
module SvgPath {
  import opened Results
  import opened Chars
  import opened Geometry

  // ---------------------------------------------------------------- path data

  /** `path.split('"')[1]`: the attribute text after the first double quote. */
  function PathData(path: string): Result<string> {
    var parts := Split(path, '"');
    if |parts| < 2 then Err(IndexError) else Ok(parts[1])
  }

  /** `data` starts right after the quote at `k` and runs to the next quote or the end. */
  predicate QuotedAt(path: string, k: nat, data: string) {
    k < |path| && path[k] == '"' && k + 1 + |data| <= |path|
    && path[k + 1..k + 1 + |data|] == data && '"' !in data
    && (k + 1 + |data| == |path| || path[k + 1 + |data|] == '"')
  }

  /** Without a double quote there is no second part and the split raises. */
  lemma {:induction false} PathDataRaises(path: string)
    ensures PathData(path).Err? <==> '"' !in path
    ensures PathData(path).Err? ==> PathData(path).error == IndexError
  {
    var k := IndexOf(path, '"');
    if k == |path| {
      assert '"' !in path by {
        forall j | 0 <= j < |path| ensures path[j] != '"' { }
      }
    }
  }

  /** With a double quote, the data is the quote-free run after the first one. */
  lemma {:induction false} PathDataBetweenQuotes(path: string, k: nat)
    requires '"' in path && k == IndexOf(path, '"')
    ensures PathData(path).Ok? && QuotedAt(path, k, PathData(path).value)
  {
    PathDataRaises(path);
    var rest := path[k + 1..];
    SplitHead(rest, '"');
    var d := Split(rest, '"')[0];
    assert PathData(path).value == d;
    assert path[k + 1..k + 1 + |d|] == rest[..|d|];
  }

  /** The first part of a split is the text before the first separator. */
  lemma {:induction false} SplitHead(s: string, sep: char)
    ensures Split(s, sep)[0] == s[..IndexOf(s, sep)]
    ensures sep !in Split(s, sep)[0]
  {
    var k := IndexOf(s, sep);
    assert sep !in s[..k] by {
      forall j | 0 <= j < k ensures s[..k][j] != sep { }
    }
  }

  // ---------------------------------------------------------------- chunks

  /** The state of the tokenising loop: the finished chunks and the chunk being built. */
  datatype Scan = Scan(commands: seq<string>, arg: string)

  /** One step of the tokenising loop: a letter closes a non-empty chunk
      and starts a new one with itself; any other character extends the
      chunk. */
  function Step(sc: Scan, c: char): Scan {
    if IsAlpha(c) then
      Scan(if sc.arg != [] then sc.commands + [sc.arg] else sc.commands, [c])
    else Scan(sc.commands, sc.arg + [c])
  }

  /** The loop state after reading `s`. */
  function Scanned(s: string): Scan
    decreases |s|
  {
    if s == [] then Scan([], "") else Step(Scanned(s[..|s| - 1]), s[|s| - 1])
  }

  lemma {:induction false} ScannedSnoc(s: string, c: char)
    ensures Scanned(s + [c]) == Step(Scanned(s), c)
  {
    assert (s + [c])[..|s|] == s;
  }

  /** The chunks of the path data: the finished ones and the last one. */
  function Chunks(data: string): (chunks: seq<string>)
    ensures |chunks| >= 1
  {
    Scanned(data).commands + [Scanned(data).arg]
  }

  /** The strings of `ss` joined end to end. */
  function Concat(ss: seq<string>): string
    decreases |ss|
  {
    if ss == [] then [] else Concat(ss[..|ss| - 1]) + ss[|ss| - 1]
  }

  /** Only the first character of `w` may be a letter. */
  predicate LetterOnlyFirst(w: string) {
    forall j :: 1 <= j < |w| ==> !IsAlpha(w[j])
  }

  /** The tokenising loop loses nothing: its chunks and the open chunk join
      back to what it has read. */
  lemma {:induction false} ScannedConcat(s: string)
    ensures Concat(Scanned(s).commands) + Scanned(s).arg == s
    ensures Scanned(s).arg == [] <==> s == []
    decreases |s|
  {
    if s != [] {
      var init := s[..|s| - 1];
      var c := s[|s| - 1];
      ScannedConcat(init);
      var prev := Scanned(init);
      var cur := Scanned(s);
      assert init + [c] == s;
      if IsAlpha(c) && prev.arg != [] {
        assert cur.commands[..|cur.commands| - 1] == prev.commands;
      } else if !IsAlpha(c) {
        assert Concat(cur.commands) + cur.arg == (Concat(prev.commands) + prev.arg) + [c];
      }
    }
  }

  /** Every chunk the loop builds is one letter and the non-letters after it;
      only the first chunk can lack the letter. */
  lemma {:induction false} ScannedChunks(s: string)
    ensures LetterOnlyFirst(Scanned(s).arg)
    ensures Scanned(s).commands != [] ==> Scanned(s).arg != [] && IsAlpha(Scanned(s).arg[0])
    ensures forall k :: 0 <= k < |Scanned(s).commands| ==>
      Scanned(s).commands[k] != [] && LetterOnlyFirst(Scanned(s).commands[k])
    ensures forall k :: 0 < k < |Scanned(s).commands| ==> IsAlpha(Scanned(s).commands[k][0])
    decreases |s|
  {
    if s != [] {
      var init := s[..|s| - 1];
      ScannedChunks(init);
      ScannedConcat(init);
    }
  }

  /** Joining the chunks gives back the path data exactly; every chunk after
      the first starts with a letter and holds no other letter; for
      non-empty data no chunk is empty. */
  lemma {:induction false} ChunksShape(data: string)
    ensures Concat(Chunks(data)) == data
    ensures forall k :: 0 <= k < |Chunks(data)| ==> LetterOnlyFirst(Chunks(data)[k])
    ensures forall k :: 0 < k < |Chunks(data)| ==> Chunks(data)[k] != [] && IsAlpha(Chunks(data)[k][0])
    ensures data != [] ==> forall k :: 0 <= k < |Chunks(data)| ==> Chunks(data)[k] != []
  {
    var sc := Scanned(data);
    ScannedConcat(data);
    ScannedChunks(data);
    var cs := Chunks(data);
    assert cs[..|cs| - 1] == sc.commands;
  }

  /** A letter followed only by non-letters is a single chunk. */
  lemma {:induction false} SingleChunk(w: string)
    requires w != [] && IsAlpha(w[0]) && LetterOnlyFirst(w)
    ensures Chunks(w) == [w]
  {
    SingleChunkPrefix(w, |w|);
    assert w[..|w|] == w;
  }

  lemma {:induction false} SingleChunkPrefix(w: string, m: nat)
    requires w != [] && IsAlpha(w[0]) && LetterOnlyFirst(w) && 1 <= m <= |w|
    ensures Scanned(w[..m]) == Scan([], w[..m])
    decreases m
  {
    if m > 1 {
      SingleChunkPrefix(w, m - 1);
      assert w[..m][..m - 1] == w[..m - 1];
      assert w[..m - 1] + [w[m - 1]] == w[..m];
    } else {
      assert w[..1][..0] == [];
    }
  }

  /** Data that continues with a letter keeps the chunks read so far and
      chunks the rest on its own. */
  lemma {:induction false} ChunksAppend(u: string, v: string)
    requires u != [] && v != [] && IsAlpha(v[0])
    ensures Chunks(u + v) == Chunks(u) + Chunks(v)
  {
    ScannedAppend(u, v);
  }

  lemma {:induction false} ScannedAppend(u: string, v: string)
    requires u != [] && v != [] && IsAlpha(v[0])
    ensures Scanned(u + v) == Scan(Chunks(u) + Scanned(v).commands, Scanned(v).arg)
    decreases |v|
  {
    var init, c := v[..|v| - 1], v[|v| - 1];
    assert init + [c] == v;
    if init == [] {
      ScannedLetterAfter(u + v, u, c);
      ScannedSnoc([], c);
    } else {
      ScannedAppend(u, init);
      ScannedAppendStep(u, init, c);
    }
  }

  /** A letter after non-empty data closes its last chunk. */
  lemma {:induction false} ScannedLetterAfter(w: string, u: string, c: char)
    requires u != [] && IsAlpha(c) && w == u + [c]
    ensures Scanned(w) == Scan(Chunks(u), [c])
  {
    ScannedSnoc(u, c);
    ScannedConcat(u);
  }

  lemma {:induction false} ScannedAppendStep(u: string, init: string, c: char)
    requires init != [] && IsAlpha(init[0])
    requires Scanned(u + init) == Scan(Chunks(u) + Scanned(init).commands, Scanned(init).arg)
    ensures Scanned(u + (init + [c])) == Scan(Chunks(u) + Scanned(init + [c]).commands, Scanned(init + [c]).arg)
  {
    assert (u + init) + [c] == u + (init + [c]);
    ScannedSnoc(u + init, c);
    ScannedSnoc(init, c);
    ScannedConcat(init);
    StepAfter(Chunks(u), Scanned(init), c);
  }

  /** A step past a state with an open chunk does not touch the chunks before it. */
  lemma {:induction false} StepAfter(before: seq<string>, sc: Scan, c: char)
    requires sc.arg != []
    ensures Step(Scan(before + sc.commands, sc.arg), c) == Scan(before + Step(sc, c).commands, Step(sc, c).arg)
  {
    assert (before + sc.commands) + [sc.arg] == before + (sc.commands + [sc.arg]);
  }

  /** Empty path data is one empty chunk. */
  lemma {:induction false} ChunksOfEmpty()
    ensures Chunks("") == [""]
  {
  }

  /** The tokenising loop of `useSvgPath`. */
  method SplitCommands(data: string) returns (commands: seq<string>)
    ensures commands == Chunks(data)
  {
    commands := [];
    var arg := "";
    for i := 0 to |data|
      invariant Scanned(data[..i]) == Scan(commands, arg)
    {
      var c := data[i];
      assert data[..i + 1][..i] == data[..i];
      if IsAlpha(c) {
        if arg != [] {
          commands := commands + [arg];
        }
        arg := [c];
      } else {
        arg := arg + [c];
      }
    }
    assert data[..|data|] == data;
    commands := commands + [arg];
  }

  // ---------------------------------------------------------------- numbers

  predicate DigitsOrUnderscores(s: string) {
    forall j :: 0 <= j < |s| ==> IsDigit(s[j]) || s[j] == '_'
  }

  /** Python's `digitpart`: digits, with single underscores allowed between two digits. */
  predicate DigitPart(s: string) {
    s != [] && DigitsOrUnderscores(s) && IsDigit(s[0]) && IsDigit(s[|s| - 1])
    && forall j :: 0 <= j < |s| - 1 ==> s[j] == '_' ==> s[j + 1] != '_'
  }

  /** The number the digits of `s` spell, underscores skipped. */
  function DigitsValue(s: string): nat
    requires DigitsOrUnderscores(s)
    decreases |s|
  {
    if s == [] then 0
    else if s[|s| - 1] == '_' then DigitsValue(s[..|s| - 1])
    else 10 * DigitsValue(s[..|s| - 1]) + DigitValue(s[|s| - 1])
  }

  /** How many digits `s` holds, underscores skipped. */
  function DigitCount(s: string): nat
    requires DigitsOrUnderscores(s)
    decreases |s|
  {
    if s == [] then 0
    else if s[|s| - 1] == '_' then DigitCount(s[..|s| - 1])
    else DigitCount(s[..|s| - 1]) + 1
  }

  function Pow10(n: nat): (p: nat)
    ensures p >= 1
  {
    if n == 0 then 1 else 10 * Pow10(n - 1)
  }

  /** `float(token)` without a sign: `digitpart`, `digitpart.`,
      `digitpart.digitpart` or `.digitpart`. */
  function ParseUnsigned(t: string): (r: Result<real>)
    ensures r.Ok? ==> r.value >= 0.0
    ensures r.Err? ==> r.error == ValueError
  {
    var k := IndexOf(t, '.');
    var whole := t[..k];
    var frac := if k < |t| then t[k + 1..] else "";
    if (whole == [] || DigitPart(whole)) && (frac == [] || DigitPart(frac)) && (whole != [] || frac != []) then
      Ok(DigitsValue(whole) as real + DigitsValue(frac) as real / Pow10(DigitCount(frac)) as real)
    else Err(ValueError)
  }

  /** `float(token)` for the tokens the parser meets, which hold neither
      letters nor whitespace: an optional sign, then an unsigned number. */
  function ParseNumber(tok: string): (r: Result<real>)
    ensures r.Err? ==> r.error == ValueError
  {
    if tok != [] && (tok[0] == '+' || tok[0] == '-') then
      var v :- ParseUnsigned(tok[1..]);
      Ok(if tok[0] == '-' then -v else v)
    else ParseUnsigned(tok)
  }

  /** The decimal numeral of `n`, as `str(n)` writes it. */
  function NatText(n: nat): (s: string)
    ensures s != [] && AllDigitChars(s)
    decreases n
  {
    if n < 10 then [('0' as int + n) as char] else NatText(n / 10) + [('0' as int + n % 10) as char]
  }

  predicate AllDigitChars(s: string) {
    forall j :: 0 <= j < |s| ==> IsDigit(s[j])
  }

  /** Reading back a written natural number gives the number. */
  lemma {:induction false} NatTextValue(n: nat)
    ensures DigitsOrUnderscores(NatText(n)) && DigitPart(NatText(n))
    ensures DigitsValue(NatText(n)) == n
    decreases n
  {
    var s := NatText(n);
    if n >= 10 {
      NatTextValue(n / 10);
      assert s[..|s| - 1] == NatText(n / 10);
    }
  }

  /** `float(str(n)) == n`, and a leading minus negates it. */
  lemma {:induction false} ParseNatText(n: nat)
    ensures ParseNumber(NatText(n)) == Ok(n as real)
    ensures ParseNumber("-" + NatText(n)) == Ok(-(n as real))
  {
    var s := NatText(n);
    NatTextValue(n);
    UnsignedDigits(s);
    assert ("-" + s)[1..] == s;
  }

  /** A plain run of digits reads as the number it spells. */
  lemma {:induction false} UnsignedDigits(s: string)
    requires s != [] && AllDigitChars(s) && DigitPart(s)
    ensures ParseUnsigned(s) == Ok(DigitsValue(s) as real)
  {
    NoDotIn(s);
    assert s[..|s|] == s;
  }

  lemma {:induction false} NoDotIn(s: string)
    requires AllDigitChars(s)
    ensures IndexOf(s, '.') == |s|
  {
    var k := IndexOf(s, '.');
    assert k < |s| ==> IsDigit(s[k]);
  }

  /** A token with a character that is no digit, point, underscore or sign never parses. */
  lemma {:induction false} ParseNumberRejects(tok: string, j: nat)
    requires j < |tok| && !IsDigit(tok[j]) && tok[j] !in "._+-"
    ensures ParseNumber(tok) == Err(ValueError)
  {
    if tok != [] && (tok[0] == '+' || tok[0] == '-') {
      UnsignedRejects(tok[1..], j - 1);
    } else {
      UnsignedRejects(tok, j);
    }
  }

  lemma {:induction false} UnsignedRejects(t: string, j: nat)
    requires j < |t| && !IsDigit(t[j]) && t[j] != '.' && t[j] != '_'
    ensures ParseUnsigned(t) == Err(ValueError)
  {
    var k := IndexOf(t, '.');
    if j < k {
      assert t[..k][j] == t[j];
    } else {
      assert j != k;
      assert t[k + 1..][j - k - 1] == t[j];
    }
  }

  /** `list(map(float, tokens))`: the first malformed token raises. */
  function ParseNumbers(tokens: seq<string>): (r: Result<seq<real>>)
    ensures r.Ok? <==> forall k :: 0 <= k < |tokens| ==> ParseNumber(tokens[k]).Ok?
    ensures r.Ok? ==> |r.value| == |tokens| && forall k :: 0 <= k < |tokens| ==> ParseNumber(tokens[k]) == Ok(r.value[k])
    ensures r.Err? ==> r.error == ValueError
  {
    if tokens == [] then Ok([])
    else
      var first :- ParseNumber(tokens[0]);
      var rest :- ParseNumbers(tokens[1..]);
      Ok([first] + rest)
  }

  // ---------------------------------------------------------------- commands

  /** The points a command adds and the current position after it. */
  datatype Trace = Trace(points: seq<Point>, pos: Point)

  /** `ps` followed by the points of `r`, or the error of `r`. */
  function Extend(ps: seq<Point>, r: Result<Trace>): Result<Trace> {
    match r
    case Ok(t) => Ok(Trace(ps + t.points, t.pos))
    case Err(e) => Err(e)
  }

  /** `M` and `L`: each pair of arguments is a point that becomes the
      current position; an unpaired last argument raises. */
  function Pairs(args: seq<real>, pos: Point): Result<Trace>
    decreases |args|
  {
    if args == [] then Ok(Trace([], pos))
    else if |args| == 1 then Err(IndexError)
    else
      var p := Point(args[0], args[1]);
      Extend([p], Pairs(args[2..], p))
  }

  /** `H`: each argument is the x of a new point at the current y. */
  function Horizontal(xs: seq<real>, pos: Point): Trace
    decreases |xs|
  {
    if xs == [] then Trace([], pos)
    else
      var p := Point(xs[0], pos.y);
      var t := Horizontal(xs[1..], p);
      Trace([p] + t.points, t.pos)
  }

  /** `V`: each argument is the y of a new point at the current x. */
  function Vertical(ys: seq<real>, pos: Point): Trace
    decreases |ys|
  {
    if ys == [] then Trace([], pos)
    else
      var p := Point(pos.x, ys[0]);
      var t := Vertical(ys[1..], p);
      Trace([p] + t.points, t.pos)
  }

  /** The arguments of a chunk: the numbers after its first character. */
  function Args(chunk: string): Result<seq<real>>
    requires chunk != []
  {
    ParseNumbers(Words(chunk[1..]))
  }

  /** One chunk: `command[0]` raises on the empty chunk; the arguments are
      read for every letter, so a malformed number raises even in a chunk
      whose letter adds no points. */
  function RunCommand(chunk: string, pos: Point): Result<Trace> {
    if chunk == [] then Err(IndexError)
    else
      var args :- Args(chunk);
      if chunk[0] == 'M' || chunk[0] == 'L' then Pairs(args, pos)
      else if chunk[0] == 'H' then Ok(Horizontal(args, pos))
      else if chunk[0] == 'V' then Ok(Vertical(args, pos))
      else Ok(Trace([], pos))
  }

  /** The chunks in order, each starting from the position the previous one left. */
  function Interpret(chunks: seq<string>, pos: Point): Result<Trace>
    decreases |chunks|
  {
    if chunks == [] then Ok(Trace([], pos))
    else
      var t :- RunCommand(chunks[0], pos);
      Extend(t.points, Interpret(chunks[1..], t.pos))
  }

  /** `useSvgPath(path)`: the points of the path data, from the origin. */
  function SvgPoints(path: string): Result<seq<Point>> {
    var data :- PathData(path);
    var t :- Interpret(Chunks(data), Origin);
    Ok(t.points)
  }

  // ---------------------------------------------------------------- properties

  /** A pair command succeeds exactly for an even argument count; it then
      adds one point per pair, in order, and ends at the last of them. */
  lemma {:induction false} PairsOutcome(args: seq<real>, pos: Point)
    ensures Pairs(args, pos).Ok? <==> |args| % 2 == 0
    ensures Pairs(args, pos).Err? ==> Pairs(args, pos).error == IndexError
    ensures Pairs(args, pos).Ok? ==> 2 * |Pairs(args, pos).value.points| == |args|
    ensures Pairs(args, pos).Ok? ==> forall k :: 0 <= k < |Pairs(args, pos).value.points| ==>
      Pairs(args, pos).value.points[k] == Point(args[2 * k], args[2 * k + 1])
    ensures Pairs(args, pos).Ok? ==>
      Pairs(args, pos).value.pos == if args == [] then pos else Point(args[|args| - 2], args[|args| - 1])
    decreases |args|
  {
    if |args| >= 2 {
      var p := Point(args[0], args[1]);
      PairsOutcome(args[2..], p);
      var r := Pairs(args[2..], p);
      if r.Ok? {
        var ps := [p] + r.value.points;
        forall k | 1 <= k < |ps|
          ensures ps[k] == Point(args[2 * k], args[2 * k + 1])
        {
          assert ps[k] == r.value.points[k - 1];
        }
      }
    }
  }

  /** `H` adds one point per argument, keeping the current y, and ends at the last. */
  lemma {:induction false} HorizontalPoints(xs: seq<real>, pos: Point)
    ensures |Horizontal(xs, pos).points| == |xs|
    ensures forall k :: 0 <= k < |xs| ==> Horizontal(xs, pos).points[k] == Point(xs[k], pos.y)
    ensures Horizontal(xs, pos).pos == if xs == [] then pos else Point(xs[|xs| - 1], pos.y)
    decreases |xs|
  {
    if xs != [] {
      var p := Point(xs[0], pos.y);
      HorizontalPoints(xs[1..], p);
      var ps := Horizontal(xs, pos).points;
      forall k | 1 <= k < |xs|
        ensures ps[k] == Point(xs[k], pos.y)
      {
        assert ps[k] == Horizontal(xs[1..], p).points[k - 1];
      }
    }
  }

  /** `V` adds one point per argument, keeping the current x, and ends at the last. */
  lemma {:induction false} VerticalPoints(ys: seq<real>, pos: Point)
    ensures |Vertical(ys, pos).points| == |ys|
    ensures forall k :: 0 <= k < |ys| ==> Vertical(ys, pos).points[k] == Point(pos.x, ys[k])
    ensures Vertical(ys, pos).pos == if ys == [] then pos else Point(pos.x, ys[|ys| - 1])
    decreases |ys|
  {
    if ys != [] {
      var p := Point(pos.x, ys[0]);
      VerticalPoints(ys[1..], p);
      var ps := Vertical(ys, pos).points;
      forall k | 1 <= k < |ys|
        ensures ps[k] == Point(pos.x, ys[k])
      {
        assert ps[k] == Vertical(ys[1..], p).points[k - 1];
      }
    }
  }

  /** A chunk whose letter is not M, L, H or V adds no point and keeps the
      position, but still raises when one of its arguments is no number. */
  lemma {:induction false} OtherCommandInert(chunk: string, pos: Point)
    requires chunk != [] && chunk[0] !in "MLHV"
    ensures RunCommand(chunk, pos).Ok? <==> Args(chunk).Ok?
    ensures RunCommand(chunk, pos).Ok? ==> RunCommand(chunk, pos).value == Trace([], pos)
    ensures RunCommand(chunk, pos).Err? ==> RunCommand(chunk, pos).error == ValueError
  {
  }

  /** What the chunks that follow see: the rest of the interpretation after `r`. */
  function Then(r: Result<Trace>, rest: seq<string>): Result<Trace> {
    match r
    case Ok(t) => Extend(t.points, Interpret(rest, t.pos))
    case Err(e) => Err(e)
  }

  lemma {:induction false} ExtendNothing(r: Result<Trace>)
    ensures Extend([], r) == r
  {
    if r.Ok? {
      assert [] + r.value.points == r.value.points;
    }
  }

  lemma {:induction false} ExtendExtend(a: seq<Point>, b: seq<Point>, r: Result<Trace>)
    ensures Extend(a, Extend(b, r)) == Extend(a + b, r)
  {
    if r.Ok? {
      assert a + (b + r.value.points) == (a + b) + r.value.points;
    }
  }

  /** The output follows chunk order: interpreting `a + b` is interpreting
      `a`, then `b` from where `a` left the position. */
  lemma {:induction false} InterpretAppend(a: seq<string>, b: seq<string>, pos: Point)
    ensures Interpret(a + b, pos) == Then(Interpret(a, pos), b)
    decreases |a|
  {
    if a == [] {
      assert a + b == b;
      var r := Interpret(b, pos);
      if r.Ok? {
        assert [] + r.value.points == r.value.points;
      }
    } else {
      assert (a + b)[1..] == a[1..] + b;
      var s := RunCommand(a[0], pos);
      if s.Ok? {
        InterpretAppend(a[1..], b, s.value.pos);
        var r := Interpret(a[1..], s.value.pos);
        if r.Ok? {
          ExtendExtend(s.value.points, r.value.points, Interpret(b, r.value.pos));
        }
      }
    }
  }

  /** With the empty attribute (`d=""`) the only chunk is empty and
      `command[0]` raises. */
  lemma {:induction false} EmptyPathRaises(path: string)
    requires PathData(path) == Ok("")
    ensures SvgPoints(path) == Err(IndexError)
  {
    ChunksOfEmpty();
  }

  /** A word runs up to the first whitespace character. */
  lemma {:induction false} WordLengthOf(a: string, t: string)
    requires forall j :: 0 <= j < |a| ==> !IsSpace(a[j])
    requires t == [] || IsSpace(t[0])
    ensures WordLength(a + t) == |a|
    decreases |a|
  {
    if a != [] {
      assert (a + t)[1..] == a[1..] + t;
      WordLengthOf(a[1..], t);
    }
  }

  /** Text without whitespace is one word. */
  lemma {:induction false} WordsOfOne(a: string)
    requires a != [] && forall j :: 0 <= j < |a| ==> !IsSpace(a[j])
    ensures Words(a) == [a]
  {
    WordLengthOf(a, []);
    assert a + [] == a;
    assert a[..|a|] == a && a[|a|..] == [];
  }

  /** Two words separated by a space. */
  lemma {:induction false} WordsOfTwo(a: string, b: string)
    requires a != [] && forall j :: 0 <= j < |a| ==> !IsSpace(a[j])
    requires b != [] && forall j :: 0 <= j < |b| ==> !IsSpace(b[j])
    ensures Words(a + " " + b) == [a, b]
  {
    var s := a + " " + b;
    WordLengthOf(a, " " + b);
    assert s == a + (" " + b);
    assert s[..|a|] == a && s[|a|..] == " " + b;
    assert (" " + b)[1..] == b;
    WordsOfOne(b);
  }

  /** Numerals hold neither letters nor whitespace. */
  lemma {:induction false} NumeralPlain(n: nat)
    ensures forall j :: 0 <= j < |NatText(n)| ==> !IsSpace(NatText(n)[j]) && !IsAlpha(NatText(n)[j])
  {
  }

  /** A chunk with one numeral argument. */
  lemma {:induction false} ArgsOfOne(chunk: string, n: nat)
    requires chunk != [] && chunk[1..] == NatText(n)
    ensures Args(chunk) == Ok([n as real])
  {
    NumeralPlain(n);
    WordsOfOne(NatText(n));
    ParseNatText(n);
    var r := ParseNumbers([NatText(n)]);
    assert ParseNumber([NatText(n)][0]) == Ok(n as real);
    assert r.value == [r.value[0]];
  }

  /** A chunk with two numeral arguments separated by a space. */
  lemma {:induction false} ArgsOfTwo(chunk: string, a: nat, b: nat)
    requires chunk != [] && chunk[1..] == NatText(a) + " " + NatText(b)
    ensures Args(chunk) == Ok([a as real, b as real])
  {
    NumeralPlain(a);
    NumeralPlain(b);
    WordsOfTwo(NatText(a), NatText(b));
    ParseNatText(a);
    ParseNatText(b);
    var ts := [NatText(a), NatText(b)];
    var r := ParseNumbers(ts);
    assert ParseNumber(ts[0]) == Ok(a as real) && ParseNumber(ts[1]) == Ok(b as real);
    assert r.value == [r.value[0], r.value[1]];
  }

  /** `M a b H c V d` is three chunks. */
  lemma {:induction false} ThreeChunks(data: string, a: nat, b: nat, c: nat, d: nat, m: string, h: string, v: string)
    requires m == "M" + NatText(a) + " " + NatText(b) && h == "H" + NatText(c) && v == "V" + NatText(d)
    requires data == m + h + v
    ensures Chunks(data) == [m, h, v]
  {
    NumeralPlain(a);
    NumeralPlain(b);
    NumeralPlain(c);
    NumeralPlain(d);
    assert LetterOnlyFirst(m) by {
      forall j | 1 <= j < |m| ensures !IsAlpha(m[j]) {
        if j <= |NatText(a)| {
          assert m[j] == NatText(a)[j - 1];
        } else if j > |NatText(a)| + 1 {
          assert m[j] == NatText(b)[j - |NatText(a)| - 2];
        }
      }
    }
    assert LetterOnlyFirst(h) by {
      forall j | 1 <= j < |h| ensures !IsAlpha(h[j]) {
        assert h[j] == NatText(c)[j - 1];
      }
    }
    assert LetterOnlyFirst(v) by {
      forall j | 1 <= j < |v| ensures !IsAlpha(v[j]) {
        assert v[j] == NatText(d)[j - 1];
      }
    }
    SingleChunk(m);
    SingleChunk(h);
    SingleChunk(v);
    ChunksAppend(h, v);
    assert data == m + (h + v);
    ChunksAppend(m, h + v);
  }

  /** Three commands in a row, each adding one point. */
  lemma {:induction false} ThreeSteps(x: string, y: string, z: string, p: Point, q: Point, r: Point)
    requires RunCommand(x, Origin) == Ok(Trace([p], p))
    requires RunCommand(y, p) == Ok(Trace([q], q))
    requires RunCommand(z, q) == Ok(Trace([r], r))
    ensures Interpret([x, y, z], Origin) == Ok(Trace([p, q, r], r))
  {
    InterpretCons(z, [], q, Trace([r], r));
    assert [z] + [] == [z];
    InterpretCons(y, [z], p, Trace([q], q));
    assert [y] + [z] == [y, z];
    InterpretCons(x, [y, z], Origin, Trace([p], p));
    assert [x] + [y, z] == [x, y, z];
    assert [p] + ([q] + ([r] + [])) == [p, q, r];
  }

  /** A move with one pair of arguments goes to that point. */
  lemma {:induction false} MoveStep(chunk: string, x: real, y: real, pos: Point)
    requires chunk != [] && chunk[0] == 'M' && Args(chunk) == Ok([x, y])
    ensures RunCommand(chunk, pos) == Ok(Trace([Point(x, y)], Point(x, y)))
  {
    var p := Point(x, y);
    assert [x, y][2..] == [];
    assert Pairs([x, y], pos) == Extend([p], Pairs([], p));
    assert [p] + [] == [p];
  }

  /** A horizontal line with one argument keeps the y of the position. */
  lemma {:induction false} HorizontalStep(chunk: string, x: real, pos: Point)
    requires chunk != [] && chunk[0] == 'H' && Args(chunk) == Ok([x])
    ensures RunCommand(chunk, pos) == Ok(Trace([Point(x, pos.y)], Point(x, pos.y)))
  {
    var p := Point(x, pos.y);
    assert [x][1..] == [];
    assert Horizontal([x], pos) == Trace([p] + Horizontal([], p).points, p);
    assert [p] + [] == [p];
  }

  /** A vertical line with one argument keeps the x of the position. */
  lemma {:induction false} VerticalStep(chunk: string, y: real, pos: Point)
    requires chunk != [] && chunk[0] == 'V' && Args(chunk) == Ok([y])
    ensures RunCommand(chunk, pos) == Ok(Trace([Point(pos.x, y)], Point(pos.x, y)))
  {
    var p := Point(pos.x, y);
    assert [y][1..] == [];
    assert Vertical([y], pos) == Trace([p] + Vertical([], p).points, p);
    assert [p] + [] == [p];
  }

  /** One command, then the rest from where it left the position. */
  lemma {:induction false} InterpretCons(c: string, rest: seq<string>, pos: Point, t: Trace)
    requires RunCommand(c, pos) == Ok(t)
    ensures Interpret([c] + rest, pos) == Extend(t.points, Interpret(rest, t.pos))
  {
    assert ([c] + rest)[1..] == rest;
  }

  /** `M a b H c V d` traces (a, b), then (c, b), then (c, d): `H` keeps the
      y of the move and `V` the x of the horizontal line. With a = b = 5
      and c = d = 15 this is the path `M5 5H15V15`. */
  lemma {:induction false} MoveThenAxes(data: string, a: nat, b: nat, c: nat, d: nat)
    requires data == "M" + NatText(a) + " " + NatText(b) + "H" + NatText(c) + "V" + NatText(d)
    ensures Interpret(Chunks(data), Origin)
      == Ok(Trace([Point(a as real, b as real), Point(c as real, b as real), Point(c as real, d as real)],
                  Point(c as real, d as real)))
  {
    var m := "M" + NatText(a) + " " + NatText(b);
    var h := "H" + NatText(c);
    var v := "V" + NatText(d);
    ThreeChunks(data, a, b, c, d, m, h, v);
    assert m[1..] == NatText(a) + " " + NatText(b);
    ArgsOfTwo(m, a, b);
    ArgsOfOne(h, c);
    ArgsOfOne(v, d);
    var p := Point(a as real, b as real);
    var q := Point(c as real, b as real);
    var r := Point(c as real, d as real);
    MoveStep(m, a as real, b as real, Origin);
    HorizontalStep(h, c as real, p);
    VerticalStep(v, d as real, q);
    ThreeSteps(m, h, v, p, q, r);
  }

  /** The path `M5 5H15V15` traces (5,5), (15,5), (15,15). */
  lemma {:induction false} SquareCornerPath()
    ensures Interpret(Chunks("M5 5H15V15"), Origin)
      == Ok(Trace([Point(5.0, 5.0), Point(15.0, 5.0), Point(15.0, 15.0)], Point(15.0, 15.0)))
  {
    assert NatText(5) == "5" && NatText(15) == "15";
    MoveThenAxes("M5 5H15V15", 5, 5, 15, 15);
  }

  // ---------------------------------------------------------------- the parser

  /** `useSvgPath`, as the source runs it: split the path data into chunks,
      then walk the chunks, appending points and moving the current
      position. */
  method ParseSvgPath(path: string) returns (r: Result<seq<Point>>)
    ensures r == SvgPoints(path)
  {
    var data := PathData(path);
    if data.Err? {
      return Err(data.error);
    }
    var commands := SplitCommands(data.value);
    var points: seq<Point> := [];
    var pos := Origin;
    assert commands[0..] == commands;
    ExtendNothing(Interpret(commands, Origin));
    for i := 0 to |commands|
      invariant Interpret(commands, Origin) == Extend(points, Interpret(commands[i..], pos))
    {
      var step := RunChunk(commands[i], pos);
      assert commands[i..][1..] == commands[i + 1..];
      if step.Err? {
        return Err(step.error);
      }
      ExtendExtend(points, step.value.points, Interpret(commands[i + 1..], step.value.pos));
      points := points + step.value.points;
      pos := step.value.pos;
    }
    assert commands[|commands|..] == [];
    assert points + [] == points;
    return Ok(points);
  }

  /** One pass of the command loop: read the arguments, then dispatch on the letter. */
  method RunChunk(chunk: string, pos: Point) returns (r: Result<Trace>)
    ensures r == RunCommand(chunk, pos)
  {
    if chunk == [] {
      return Err(IndexError);
    }
    var args := Args(chunk);
    if args.Err? {
      return Err(args.error);
    }
    if chunk[0] == 'M' || chunk[0] == 'L' {
      r := RunPairs(args.value, pos);
    } else if chunk[0] == 'H' {
      var t := RunHorizontal(args.value, pos);
      r := Ok(t);
    } else if chunk[0] == 'V' {
      var t := RunVertical(args.value, pos);
      r := Ok(t);
    } else {
      r := Ok(Trace([], pos));
    }
  }

  /** The `for i in range(0, len(args), 2)` loop of `M` and `L`. */
  method RunPairs(args: seq<real>, pos: Point) returns (r: Result<Trace>)
    ensures r == Pairs(args, pos)
  {
    var points: seq<Point> := [];
    var current := pos;
    var i := 0;
    assert args[0..] == args;
    ExtendNothing(Pairs(args, pos));
    while i < |args|
      invariant 0 <= i <= |args|
      invariant Pairs(args, pos) == Extend(points, Pairs(args[i..], current))
      decreases |args| - i
    {
      if i + 1 >= |args| {
        return Err(IndexError);
      }
      var p := Point(args[i], args[i + 1]);
      assert args[i..][2..] == args[i + 2..];
      ExtendExtend(points, [p], Pairs(args[i + 2..], p));
      current := p;
      points := points + [current];
      i := i + 2;
    }
    assert points + [] == points;
    return Ok(Trace(points, current));
  }

  /** The `for x in args` loop of `H`. */
  method RunHorizontal(xs: seq<real>, pos: Point) returns (t: Trace)
    ensures t == Horizontal(xs, pos)
  {
    var points: seq<Point> := [];
    var current := pos;
    for i := 0 to |xs|
      invariant Horizontal(xs, pos) == Trace(points + Horizontal(xs[i..], current).points, Horizontal(xs[i..], current).pos)
    {
      assert xs[i..][1..] == xs[i + 1..];
      current := Point(xs[i], current.y);
      assert points + ([current] + Horizontal(xs[i + 1..], current).points)
          == (points + [current]) + Horizontal(xs[i + 1..], current).points;
      points := points + [current];
    }
    assert points + [] == points;
    t := Trace(points, current);
  }

  /** The `for y in args` loop of `V`. */
  method RunVertical(ys: seq<real>, pos: Point) returns (t: Trace)
    ensures t == Vertical(ys, pos)
  {
    var points: seq<Point> := [];
    var current := pos;
    for i := 0 to |ys|
      invariant Vertical(ys, pos) == Trace(points + Vertical(ys[i..], current).points, Vertical(ys[i..], current).pos)
    {
      assert ys[i..][1..] == ys[i + 1..];
      current := Point(current.x, ys[i]);
      assert points + ([current] + Vertical(ys[i + 1..], current).points)
          == (points + [current]) + Vertical(ys[i + 1..], current).points;
      points := points + [current];
    }
    assert points + [] == points;
    t := Trace(points, current);
  }
}
