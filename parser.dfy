/**
  The command language: a script is split into lines, blank lines are
  skipped, and each remaining line is split into whitespace-separated fields
  whose first field names the command. The first bad line rejects the whole
  script.

  Turning a numeral into a float (strconv.ParseFloat) is not modelled: the
  parser is given it as a partial function `parseFloat`.
 */
module Lang {
  import opened Wrappers
  import opened Surface
  import opened Painter

  /** The errors the parser reports, one per fmt.Errorf in the Go code. */
  datatype ParseError =
    | ArgCount(expected: int, got: int)         // "expected %d arguments, got %d"
    | BadFloat(arg: string)                     // "invalid float argument '%s'"
    | UnknownCommand(cmd: string)               // "unknown command: %s"
    | AtLine(line: string, cause: ParseError)   // "error parsing line '%s': %w"

  // ---------------------------------------------------------------------------
  // Characters, lines and fields.

  /** unicode.IsSpace: the white space strings.Fields and strings.TrimSpace split and trim on. */
  predicate IsSpace(c: char)
  {
    c == ' ' || 9 <= c as int <= 13 || c == '\U{85}' || c == '\U{A0}' || c == '\U{1680}' ||
    0x2000 <= c as int <= 0x200A || c == '\U{2028}' || c == '\U{2029}' || c == '\U{202F}' ||
    c == '\U{205F}' || c == '\U{3000}'
  }

  /** A non-empty run of non-space characters: what strings.Fields returns. */
  predicate IsWord(w: string)
  {
    w != [] && forall i :: 0 <= i < |w| ==> !IsSpace(w[i])
  }

  /** Drop leading white space. */
  function TrimLeft(s: string): (r: string)
    ensures |r| <= |s| && r == s[|s| - |r|..]
    ensures forall i :: 0 <= i < |s| - |r| ==> IsSpace(s[i])
    ensures r == [] || !IsSpace(r[0])
    decreases |s|
  {
    if s != [] && IsSpace(s[0]) then TrimLeft(s[1..]) else s
  }

  /** Drop trailing white space. */
  function TrimRight(s: string): (r: string)
    ensures |r| <= |s| && r == s[..|r|]
    ensures forall i :: |r| <= i < |s| ==> IsSpace(s[i])
    ensures r == [] || !IsSpace(r[|r| - 1])
    decreases |s|
  {
    if s != [] && IsSpace(s[|s| - 1]) then TrimRight(s[..|s| - 1]) else s
  }

  /** `r` occurs in `s` at position `i`. */
  predicate SliceAt(r: string, s: string, i: int)
  {
    0 <= i <= |s| - |r| && r == s[i..i + |r|]
  }

  /** `r` occurs in `s` at position `i` with only white space before and after it. */
  predicate TrimmedAt(r: string, s: string, i: int)
  {
    SliceAt(r, s, i) &&
    (forall j :: 0 <= j < i ==> IsSpace(s[j])) &&
    (forall j :: i + |r| <= j < |s| ==> IsSpace(s[j]))
  }

  /**
    strings.TrimSpace: the slice of `s` between its leading and trailing white
    space; empty exactly when `s` is all white space.
   */
  function TrimSpace(s: string): (r: string)
    ensures exists i :: SliceAt(r, s, i)
    ensures r == [] || (!IsSpace(r[0]) && !IsSpace(r[|r| - 1]))
    ensures r == [] <==> forall i :: 0 <= i < |s| ==> IsSpace(s[i])
  {
    var l := TrimLeft(s);
    var r := TrimRight(l);
    assert r == s[|s| - |l|..][..|r|];
    assert SliceAt(r, s, |s| - |l|);
    r
  }

  /** TrimSpace leaves out only the white space before and after the slice it returns. */
  lemma TrimSpaceTrims(s: string)
    ensures exists i :: TrimmedAt(TrimSpace(s), s, i)
  {
    var l := TrimLeft(s);
    var r := TrimRight(l);
    assert TrimSpace(s) == r;
    assert r == s[|s| - |l|..][..|r|];
    assert TrimmedAt(r, s, |s| - |l|);
  }

  /** White space in front of a text is what TrimLeft drops. */
  lemma {:induction false} TrimLeftSkips(pre: string, x: string)
    requires forall j :: 0 <= j < |pre| ==> IsSpace(pre[j])
    ensures TrimLeft(pre + x) == TrimLeft(x)
    decreases |pre|
  {
    if pre == [] {
      assert pre + x == x;
    } else {
      assert (pre + x)[0] == pre[0];
      assert (pre + x)[1..] == pre[1..] + x;
      TrimLeftSkips(pre[1..], x);
    }
  }

  /** White space after a text is what TrimRight drops. */
  lemma {:induction false} TrimRightSkips(x: string, post: string)
    requires forall j :: 0 <= j < |post| ==> IsSpace(post[j])
    requires x == [] || !IsSpace(x[|x| - 1])
    ensures TrimRight(x + post) == x
    decreases |post|
  {
    if post == [] {
      assert x + post == x;
    } else {
      var n := |post| - 1;
      assert (x + post)[|x + post| - 1] == post[n];
      assert (x + post)[..|x + post| - 1] == x + post[..n];
      TrimRightSkips(x, post[..n]);
    }
  }

  /**
    TrimSpace takes off exactly the white space around the text: text with no
    white space at either end, padded on both sides with white space, trims
    back to itself.
   */
  lemma TrimSpaceOfPadded(pre: string, r: string, post: string)
    requires forall j :: 0 <= j < |pre| ==> IsSpace(pre[j])
    requires forall j :: 0 <= j < |post| ==> IsSpace(post[j])
    requires r == [] || (!IsSpace(r[0]) && !IsSpace(r[|r| - 1]))
    ensures TrimSpace(pre + r + post) == r
  {
    assert pre + r + post == pre + (r + post);
    TrimLeftSkips(pre, r + post);
    if r == [] {
      assert r + post == post + [];
      TrimLeftSkips(post, []);
      assert TrimLeft(pre + r + post) == [];
    } else {
      assert (r + post)[0] == r[0];
      assert TrimLeft(pre + r + post) == r + post;
      TrimRightSkips(r, post);
    }
  }

  /** The longest prefix of `s` without white space. */
  function Token(s: string): (w: string)
    ensures |w| <= |s| && w == s[..|w|]
    ensures forall i :: 0 <= i < |w| ==> !IsSpace(w[i])
    ensures |w| < |s| ==> IsSpace(s[|w|])
    decreases |s|
  {
    if s == [] || IsSpace(s[0]) then [] else [s[0]] + Token(s[1..])
  }

  /** strings.Fields: the maximal runs of non-space characters, in order. */
  function Fields(s: string): seq<string>
    decreases |s|
  {
    if s == [] then []
    else if IsSpace(s[0]) then Fields(s[1..])
    else
      var w := Token(s);
      [w] + Fields(s[|w|..])
  }

  /** Every field is a word. */
  lemma {:induction false} FieldsAreWords(s: string)
    ensures forall k :: 0 <= k < |Fields(s)| ==> IsWord(Fields(s)[k])
    decreases |s|
  {
    if s != [] {
      if IsSpace(s[0]) {
        FieldsAreWords(s[1..]);
      } else {
        FieldsAreWords(s[|Token(s)|..]);
      }
    }
  }

  /** White space in front of a text adds no field. */
  lemma {:induction false} FieldsSkipsSpace(sp: string, s: string)
    requires forall j :: 0 <= j < |sp| ==> IsSpace(sp[j])
    ensures Fields(sp + s) == Fields(s)
    decreases |sp|
  {
    if sp != [] {
      assert (sp + s)[0] == sp[0];
      assert (sp + s)[1..] == sp[1..] + s;
      FieldsSkipsSpace(sp[1..], s);
    } else {
      assert sp + s == s;
    }
  }

  /** A word followed by white space or the end is the first field, and the fields of the rest follow. */
  lemma FieldsOfWordThen(w: string, rest: string)
    requires IsWord(w) && (rest == [] || IsSpace(rest[0]))
    ensures Fields(w + rest) == [w] + Fields(rest)
  {
    TokenOfWord(w, rest);
    assert (w + rest)[0] == w[0];
    assert (w + rest)[|w|..] == rest;
  }

  /** Words joined by single spaces. */
  function Unwords(ws: seq<string>): string
    decreases |ws|
  {
    if ws == [] then []
    else if |ws| == 1 then ws[0]
    else ws[0] + " " + Unwords(ws[1..])
  }

  /** A word is its own first token, whatever white space follows it. */
  lemma {:induction false} TokenOfWord(w: string, rest: string)
    requires IsWord(w) && (rest == [] || IsSpace(rest[0]))
    ensures Token(w + rest) == w
    decreases |w|
  {
    if |w| > 1 {
      assert (w + rest)[1..] == w[1..] + rest;
      TokenOfWord(w[1..], rest);
    } else {
      assert (w + rest)[1..] == rest;
    }
  }

  /** Splitting words joined by spaces gives the words back. */
  lemma {:induction false} FieldsOfUnwords(ws: seq<string>)
    requires forall k :: 0 <= k < |ws| ==> IsWord(ws[k])
    ensures Fields(Unwords(ws)) == ws
    decreases |ws|
  {
    if |ws| == 1 {
      TokenOfWord(ws[0], []);
      assert ws[0] + [] == ws[0];
      assert ws[0][|ws[0]|..] == [];
    } else if |ws| > 1 {
      var w, rest := ws[0], Unwords(ws[1..]);
      var s := w + " " + rest;
      assert s == w + (" " + rest);
      TokenOfWord(w, " " + rest);
      assert s[|w|..] == " " + rest;
      assert (" " + rest)[1..] == rest;
      FieldsOfUnwords(ws[1..]);
    }
  }

  /** A trimmed line that is not blank has at least one field. */
  lemma NonBlankHasFields(line: string)
    requires TrimSpace(line) != []
    ensures Fields(TrimSpace(line)) != []
  {
  }

  /** The index of the first newline in `s`, or |s| when there is none. */
  function LineEnd(s: string): (i: nat)
    ensures i <= |s| && (i < |s| ==> s[i] == '\n')
    ensures forall j :: 0 <= j < i ==> s[j] != '\n'
    decreases |s|
  {
    if s == [] || s[0] == '\n' then 0 else 1 + LineEnd(s[1..])
  }

  /**
    bufio.ScanLines drops one carriage return at the end of a line: the result
    is the line itself, or the line less its one final '\r'; only that one
    carriage return is removed.
   */
  function DropCR(line: string): (r: string)
    ensures line == r || line == r + ['\r']
    ensures r == line <==> line == [] || line[|line| - 1] != '\r'
  {
    if line != [] && line[|line| - 1] == '\r' then line[..|line| - 1] else line
  }

  /**
    The lines bufio.Scanner yields with ScanLines: the text split at each
    newline, a final unterminated line included when it is not empty, one
    trailing carriage return removed from each.
   */
  function ScanLines(s: string): (lines: seq<string>)
    ensures forall k :: 0 <= k < |lines| ==> '\n' !in lines[k]
    decreases |s|
  {
    if s == [] then []
    else
      var i := LineEnd(s);
      if i == |s| then [DropCR(s)]
      else [DropCR(s[..i])] + ScanLines(s[i + 1..])
  }

  /** Every line followed by a newline. */
  function Terminated(lines: seq<string>): string
    decreases |lines|
  {
    if lines == [] then [] else lines[0] + "\n" + Terminated(lines[1..])
  }

  /** DropCR applied to every line. */
  function DropCRs(lines: seq<string>): (r: seq<string>)
    ensures |r| == |lines| && forall k :: 0 <= k < |lines| ==> r[k] == DropCR(lines[k])
    decreases |lines|
  {
    if lines == [] then [] else [DropCR(lines[0])] + DropCRs(lines[1..])
  }

  /**
    Scanning lines that each end in a newline, followed by an unterminated
    last line (possibly empty), gives the lines back with one trailing
    carriage return dropped from each, the last one included when it is not
    empty: CRLF text scans as its lines without the '\r'.
   */
  lemma {:induction false} ScanJoined(lines: seq<string>, last: string)
    requires forall k :: 0 <= k < |lines| ==> '\n' !in lines[k]
    requires '\n' !in last
    ensures ScanLines(Terminated(lines) + last) == DropCRs(lines) + (if last == [] then [] else [DropCR(last)])
    decreases |lines|
  {
    if lines == [] {
      assert Terminated(lines) + last == last;
      ScanLast(last);
    } else {
      var rest := Terminated(lines[1..]) + last;
      assert Terminated(lines) + last == lines[0] + "\n" + rest;
      ScanFirstLine(lines[0], rest);
      assert forall k :: 0 <= k < |lines| - 1 ==> lines[1..][k] == lines[k + 1];
      ScanJoined(lines[1..], last);
    }
  }

  /** A text without newline is one line less its final carriage return, or no line when empty. */
  lemma ScanLast(last: string)
    requires '\n' !in last
    ensures ScanLines(last) == if last == [] then [] else [DropCR(last)]
  {
    if last != [] {
      assert LineEnd(last) == |last|;
    }
  }

  /** The text up to the first newline, less a final carriage return, is the first line scanned. */
  lemma ScanFirstLine(l: string, rest: string)
    requires '\n' !in l
    ensures ScanLines(l + "\n" + rest) == [DropCR(l)] + ScanLines(rest)
  {
    var s := l + "\n" + rest;
    assert LineEnd(s) == |l| by {
      assert forall j :: 0 <= j < |l| ==> s[j] == l[j];
      LineEndAt(s, |l|);
    }
    assert s[..|l|] == l;
    assert s[|l| + 1..] == rest;
  }

  lemma LineEndAt(s: string, i: nat)
    requires i < |s| && s[i] == '\n' && forall j :: 0 <= j < i ==> s[j] != '\n'
    ensures LineEnd(s) == i
  {
  }

  // ---------------------------------------------------------------------------
  // Arguments, lines and scripts.

  /** The partial number parser the command language relies on (strconv.ParseFloat). */
  type FloatParser = string -> Option<real>

  /** Put `vals` in front of a successful result; an error stays as it is. */
  function Prepend<T>(vals: seq<T>, r: Result<seq<T>, ParseError>): Result<seq<T>, ParseError>
  {
    match r
    case Ok(rest) => Ok(vals + rest)
    case Err(e) => Err(e)
  }

  lemma PrependNothing<T>(r: Result<seq<T>, ParseError>)
    ensures Prepend([], r) == r
  {
    if r.Ok? { assert [] + r.value == r.value; }
  }

  lemma PrependTwice<T>(a: seq<T>, b: seq<T>, r: Result<seq<T>, ParseError>)
    ensures Prepend(a, Prepend(b, r)) == Prepend(a + b, r)
  {
    if r.Ok? { assert a + (b + r.value) == (a + b) + r.value; }
  }

  /** Parse every argument in order, stopping at the first that does not parse. */
  function FloatsFrom(args: seq<string>, parseFloat: FloatParser): (r: Result<seq<real>, ParseError>)
    ensures r.Ok? ==> |r.value| == |args|
    ensures r.Err? ==> r.error.BadFloat? && r.error.arg in args
    decreases |args|
  {
    if args == [] then Ok([])
    else match parseFloat(args[0])
      case None => Err(BadFloat(args[0]))
      case Some(v) => Prepend([v], FloatsFrom(args[1..], parseFloat))
  }

  /**
    The arguments parse exactly when each of them does; then there is one
    value per argument, in order; otherwise the error names the first argument
    that does not parse.
   */
  lemma {:induction false} FloatsFromMeaning(args: seq<string>, parseFloat: FloatParser)
    ensures var r := FloatsFrom(args, parseFloat);
      (r.Ok? <==> forall i :: 0 <= i < |args| ==> parseFloat(args[i]).Some?) &&
      (r.Ok? ==> forall i :: 0 <= i < |args| ==> parseFloat(args[i]) == Some(r.value[i])) &&
      (r.Err? ==> exists i :: FirstBad(args, parseFloat, i) && r.error == BadFloat(args[i]))
    decreases |args|
  {
    if args != [] {
      FloatsFromMeaning(args[1..], parseFloat);
      assert forall i :: 1 <= i < |args| ==> args[1..][i - 1] == args[i];
      var r := FloatsFrom(args, parseFloat);
      if parseFloat(args[0]).None? {
        assert FirstBad(args, parseFloat, 0);
      } else if r.Err? {
        var i :| FirstBad(args[1..], parseFloat, i) && r.error == BadFloat(args[1..][i]);
        assert FirstBad(args, parseFloat, i + 1);
      }
    }
  }

  /** args[i] is the first argument that does not parse. */
  predicate FirstBad(args: seq<string>, parseFloat: FloatParser, i: int)
  {
    0 <= i < |args| && parseFloat(args[i]).None? &&
    forall j :: 0 <= j < i ==> parseFloat(args[j]).Some?
  }

  /**
    parseFloats: the argument count is checked first, before any argument is
    parsed; then the arguments are parsed in order.
   */
  function Floats(args: seq<string>, count: int, parseFloat: FloatParser): (r: Result<seq<real>, ParseError>)
    ensures |args| != count ==> r == Err(ArgCount(count, |args|))
    ensures |args| == count ==> r == FloatsFrom(args, parseFloat)
    ensures r.Ok? ==> |r.value| == count
  {
    if |args| != count then Err(ArgCount(count, |args|)) else FloatsFrom(args, parseFloat)
  }

  /** parseFloats, as the Go code runs it: fill a slice of `count` values in a loop. */
  method ParseFloats(args: seq<string>, count: int, parseFloat: FloatParser)
    returns (r: Result<seq<real>, ParseError>)
    ensures r == Floats(args, count, parseFloat)
  {
    if |args| != count {
      return Err(ArgCount(count, |args|));
    }
    var result := new real[count];
    var i := 0;
    PrependNothing(FloatsFrom(args, parseFloat));
    while i < |args|
      invariant 0 <= i <= |args| == result.Length
      invariant FloatsFrom(args, parseFloat) == Prepend(result[..i], FloatsFrom(args[i..], parseFloat))
    {
      var value := parseFloat(args[i]);
      if value.None? {
        return Err(BadFloat(args[i]));
      }
      assert args[i..][1..] == args[i + 1..];
      PrependTwice(result[..i], [value.value], FloatsFrom(args[i + 1..], parseFloat));
      result[i] := value.value;
      assert result[..i + 1] == result[..i] + [value.value];
      i := i + 1;
    }
    assert args[i..] == [];
    assert result[..i] == result[..];
    assert result[..] + [] == result[..];
    return Ok(result[..]);
  }

  /**
    Parser.ParseLine: dispatch on the first field. white, green, update and
    reset ignore any further fields; bgrect needs exactly four numbers, figure
    and move exactly two; anything else is an unknown command. The Go code
    indexes fields[0], so the line must have a field.
   */
  function ParseLine(line: string, parseFloat: FloatParser): (r: Result<Op, ParseError>)
    requires Fields(line) != []
    ensures r.Ok? ==> !r.value.List?
    ensures r.Err? ==> r.error.ArgCount? || r.error.BadFloat? || r.error.UnknownCommand?
  {
    var fields := Fields(line);
    var cmd, args := fields[0], fields[1..];
    if cmd == "white" then Ok(SetBgColor(White))
    else if cmd == "green" then Ok(SetBgColor(Green))
    else if cmd == "update" then Ok(Update)
    else if cmd == "bgrect" then
      match Floats(args, 4, parseFloat)
      case Err(e) => Err(e)
      case Ok(v) => Ok(BgRect(v[0], v[1], v[2], v[3]))
    else if cmd == "figure" then
      match Floats(args, 2, parseFloat)
      case Err(e) => Err(e)
      case Ok(v) => Ok(AddShape(v[0], v[1]))
    else if cmd == "move" then
      match Floats(args, 2, parseFloat)
      case Err(e) => Err(e)
      case Ok(v) => Ok(MoveShapes(v[0], v[1]))
    else if cmd == "reset" then Ok(Reset)
    else Err(UnknownCommand(cmd))
  }

  /**
    The whole script, line by line: blank lines (after trimming) are skipped,
    each other trimmed line becomes one operation, and the first line that
    fails makes the whole script fail, naming that line.
   */
  function ParseLines(lines: seq<string>, parseFloat: FloatParser): (r: Result<seq<Op>, ParseError>)
    ensures r.Ok? ==> |r.value| <= |lines|
    ensures r.Err? ==> r.error.AtLine? && !r.error.cause.AtLine?
    decreases |lines|
  {
    if lines == [] then Ok([])
    else
      var line := TrimSpace(lines[0]);
      if line == [] then ParseLines(lines[1..], parseFloat)
      else
        NonBlankHasFields(lines[0]);
        match ParseLine(line, parseFloat)
        case Err(e) => Err(AtLine(line, e))
        case Ok(op) => Prepend([op], ParseLines(lines[1..], parseFloat))
  }

  /** ParseLines at position i of `lines`, one line unfolded. */
  lemma ParseLinesStep(lines: seq<string>, i: int, parseFloat: FloatParser)
    requires 0 <= i < |lines|
    ensures var line := TrimSpace(lines[i]);
      ParseLines(lines[i..], parseFloat) ==
        if line == [] then ParseLines(lines[i + 1..], parseFloat)
        else match ParseLine(line, parseFloat)
          case Err(e) => Err(AtLine(line, e))
          case Ok(op) => Prepend([op], ParseLines(lines[i + 1..], parseFloat))
  {
    assert lines[i..][1..] == lines[i + 1..];
    if TrimSpace(lines[i]) != [] {
      NonBlankHasFields(lines[i]);
    }
  }

  /** Parser.Parse: scan the lines, skip blank ones, stop at the first error. */
  method Parse(script: string, parseFloat: FloatParser) returns (r: Result<seq<Op>, ParseError>)
    ensures r == ParseLines(ScanLines(script), parseFloat)
  {
    var lines := ScanLines(script);
    var ops: seq<Op> := [];
    var i := 0;
    PrependNothing(ParseLines(lines, parseFloat));
    while i < |lines|
      invariant 0 <= i <= |lines|
      invariant ParseLines(lines, parseFloat) == Prepend(ops, ParseLines(lines[i..], parseFloat))
    {
      ParseLinesStep(lines, i, parseFloat);
      var line := TrimSpace(lines[i]);
      if line == [] {
        i := i + 1;
        continue;
      }
      NonBlankHasFields(lines[i]);
      var op := ParseLine(line, parseFloat);
      if op.Err? {
        return Err(AtLine(line, op.error));
      }
      PrependTwice(ops, [op.value], ParseLines(lines[i + 1..], parseFloat));
      ops := ops + [op.value];
      i := i + 1;
    }
    assert lines[i..] == [];
    assert ops + [] == ops;
    return Ok(ops);
  }

  // ---------------------------------------------------------------------------
  // What the parser promises.

  /** Every line has a field, so ParseLine may be asked about each. */
  predicate Parsable(nb: seq<string>)
  {
    forall k :: 0 <= k < |nb| ==> Fields(nb[k]) != []
  }

  /** The trimmed non-blank lines of a script, in order. */
  function NonBlank(lines: seq<string>): (nb: seq<string>)
    ensures Parsable(nb)
    ensures |nb| <= |lines|
    decreases |lines|
  {
    if lines == [] then []
    else
      var line := TrimSpace(lines[0]);
      var rest := NonBlank(lines[1..]);
      if line == [] then rest
      else
        NonBlankHasFields(lines[0]);
        ParsableCons(line, rest);
        [line] + rest
  }

  /** A line with a field in front of parsable lines leaves them parsable. */
  lemma ParsableCons(line: string, nb: seq<string>)
    requires Fields(line) != [] && Parsable(nb)
    ensures Parsable([line] + nb)
  {
  }

  /**
    An independent reading of a script: parse each of the given non-blank
    lines in turn, stopping at the first one that fails.
   */
  function ParseEach(nb: seq<string>, parseFloat: FloatParser): Result<seq<Op>, ParseError>
    requires Parsable(nb)
    decreases |nb|
  {
    if nb == [] then Ok([])
    else match ParseLine(nb[0], parseFloat)
      case Err(e) => Err(AtLine(nb[0], e))
      case Ok(op) => Prepend([op], ParseEach(nb[1..], parseFloat))
  }

  /** Skipping blank lines as the script is read is parsing its non-blank lines. */
  lemma {:induction false} SkipsBlankLines(lines: seq<string>, parseFloat: FloatParser)
    ensures ParseLines(lines, parseFloat) == ParseEach(NonBlank(lines), parseFloat)
    decreases |lines|
  {
    if lines != [] {
      SkipsBlankLines(lines[1..], parseFloat);
      var line := TrimSpace(lines[0]);
      if line != [] {
        assert NonBlank(lines)[1..] == NonBlank(lines[1..]);
      }
    }
  }

  /**
    Lines are accepted exactly when every one of them parses; then the
    operations are those lines' operations, one each and in order.
   */
  lemma {:induction false} ParseEachOk(nb: seq<string>, parseFloat: FloatParser)
    requires Parsable(nb)
    ensures ParseEach(nb, parseFloat).Ok? <==> forall k :: 0 <= k < |nb| ==> ParseLine(nb[k], parseFloat).Ok?
    ensures ParseEach(nb, parseFloat).Ok? ==>
      (|ParseEach(nb, parseFloat).value| == |nb| &&
       forall k :: 0 <= k < |nb| ==> ParseLine(nb[k], parseFloat) == Ok(ParseEach(nb, parseFloat).value[k]))
    decreases |nb|
  {
    if nb != [] {
      ParseEachOk(nb[1..], parseFloat);
      assert forall k :: 1 <= k < |nb| ==> nb[k] == nb[1..][k - 1];
    }
  }

  /** nb[k] is the first line that does not parse. */
  predicate FirstFailing(nb: seq<string>, parseFloat: FloatParser, k: int)
    requires Parsable(nb)
  {
    0 <= k < |nb| && ParseLine(nb[k], parseFloat).Err? &&
    forall j :: 0 <= j < k ==> ParseLine(nb[j], parseFloat).Ok?
  }

  /**
    Lines are rejected at the first bad one: the error names the first line
    that does not parse, wrapping that line's own error.
   */
  lemma {:induction false} ParseEachFirstError(nb: seq<string>, parseFloat: FloatParser)
    requires Parsable(nb)
    ensures ParseEach(nb, parseFloat).Err? ==>
      exists k :: FirstFailing(nb, parseFloat, k) &&
        ParseEach(nb, parseFloat).error == AtLine(nb[k], ParseLine(nb[k], parseFloat).error)
    decreases |nb|
  {
    if nb != [] && ParseEach(nb, parseFloat).Err? {
      if ParseLine(nb[0], parseFloat).Err? {
        assert FirstFailing(nb, parseFloat, 0);
      } else {
        var tail := nb[1..];
        ParseEachFirstError(tail, parseFloat);
        var k :| FirstFailing(tail, parseFloat, k) &&
          ParseEach(tail, parseFloat).error == AtLine(tail[k], ParseLine(tail[k], parseFloat).error);
        assert nb[k + 1] == tail[k];
        assert forall j :: 1 <= j < k + 1 ==> nb[j] == tail[j - 1];
        assert FirstFailing(nb, parseFloat, k + 1);
      }
    }
  }

  /**
    A script is accepted exactly when each of its non-blank lines parses, and
    then yields their operations in order; otherwise it is rejected naming the
    first non-blank line that does not parse.
   */
  lemma ScriptMeaning(script: string, parseFloat: FloatParser)
    ensures var nb, r := NonBlank(ScanLines(script)), ParseLines(ScanLines(script), parseFloat);
      (r.Ok? <==> forall k :: 0 <= k < |nb| ==> ParseLine(nb[k], parseFloat).Ok?) &&
      (r.Ok? ==>
        |r.value| == |nb| &&
        forall k :: 0 <= k < |nb| ==> ParseLine(nb[k], parseFloat) == Ok(r.value[k])) &&
      (r.Err? ==>
        exists k :: FirstFailing(nb, parseFloat, k) && r.error == AtLine(nb[k], ParseLine(nb[k], parseFloat).error))
  {
    var lines := ScanLines(script);
    SkipsBlankLines(lines, parseFloat);
    ParseEachOk(NonBlank(lines), parseFloat);
    ParseEachFirstError(NonBlank(lines), parseFloat);
  }

  /** The line "cmd arg1 arg2 ..." has exactly those fields, so every such line reaches the dispatch. */
  lemma LineOfWords(cmd: string, args: seq<string>)
    requires IsWord(cmd) && forall k :: 0 <= k < |args| ==> IsWord(args[k])
    ensures Fields(Unwords([cmd] + args)) == [cmd] + args
  {
    FieldsOfUnwords([cmd] + args);
  }

  /** white, green, update and reset parse whatever arguments follow them. */
  lemma ExtraArgumentsIgnored(line: string, cmd: string, args: seq<string>, parseFloat: FloatParser)
    requires Fields(line) == [cmd] + args
    requires cmd in {"white", "green", "update", "reset"}
    ensures ParseLine(line, parseFloat) ==
      Ok(if cmd == "white" then SetBgColor(White)
         else if cmd == "green" then SetBgColor(Green)
         else if cmd == "update" then Update
         else Reset)
  {
  }

  /** How many numbers a command takes: 4 for bgrect, 2 for figure and move. */
  function Arity(cmd: string): int
  {
    if cmd == "bgrect" then 4 else 2
  }

  /**
    bgrect, figure and move parse exactly when they have their exact number of
    arguments and each argument parses; a wrong count is reported as such,
    before any argument is looked at; a bad argument is reported by the first
    one that does not parse.
   */
  lemma NumericCommands(line: string, cmd: string, args: seq<string>, parseFloat: FloatParser)
    requires Fields(line) == [cmd] + args
    requires cmd in {"bgrect", "figure", "move"}
    ensures ParseLine(line, parseFloat).Ok? <==>
      |args| == Arity(cmd) && forall k :: 0 <= k < |args| ==> parseFloat(args[k]).Some?
    ensures |args| != Arity(cmd) ==> ParseLine(line, parseFloat) == Err(ArgCount(Arity(cmd), |args|))
    ensures |args| == Arity(cmd) && ParseLine(line, parseFloat).Err? ==>
      exists i :: FirstBad(args, parseFloat, i) && ParseLine(line, parseFloat) == Err(BadFloat(args[i]))
  {
    assert ([cmd] + args)[1..] == args;
    FloatsFromMeaning(args, parseFloat);
  }

  /** On success a numeric command carries the parsed arguments, in order. */
  lemma NumericValues(line: string, cmd: string, args: seq<string>, parseFloat: FloatParser)
    requires Fields(line) == [cmd] + args
    requires cmd in {"bgrect", "figure", "move"}
    requires ParseLine(line, parseFloat).Ok?
    ensures |args| == Arity(cmd) && forall k :: 0 <= k < |args| ==> parseFloat(args[k]).Some?
    ensures var v := seq(|args|, k requires 0 <= k < |args| => parseFloat(args[k]).value);
      ParseLine(line, parseFloat).value ==
        if cmd == "bgrect" then BgRect(v[0], v[1], v[2], v[3])
        else if cmd == "figure" then AddShape(v[0], v[1])
        else MoveShapes(v[0], v[1])
  {
    assert ([cmd] + args)[1..] == args;
    FloatsFromMeaning(args, parseFloat);
  }

  /** Any other first field is an unknown command, whatever follows it. */
  lemma UnknownCommands(line: string, cmd: string, args: seq<string>, parseFloat: FloatParser)
    requires Fields(line) == [cmd] + args
    requires cmd !in {"white", "green", "update", "bgrect", "figure", "move", "reset"}
    ensures ParseLine(line, parseFloat) == Err(UnknownCommand(cmd))
  {
  }
}
