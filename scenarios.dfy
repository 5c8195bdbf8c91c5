/**
  The painter's loop tests as properties of the model. Each test parses a
  script, posts the operations as one OperationList to a loop over a zero
  State, drains the loop and looks at the State. Here a script is described
  by the fields of its non-blank lines, and the number parser by what it
  answers on the numerals the script uses.
 */
module Scenarios {
  import opened Wrappers
  import opened Surface
  import opened Painter
  import opened PainterLoop
  import opened Lang

  /**
    What a script leaves in a zero State once it has been parsed, posted as
    one OperationList and the loop has drained; a script that does not parse
    is its parse error.
   */
  function Painted(script: string, parseFloat: FloatParser): Result<Canvas, ParseError>
  {
    match ParseLines(ScanLines(script), parseFloat)
    case Err(e) => Err(e)
    case Ok(ops) => Ok(Apply(List(ops), Zero, CanvasSize).canvas)
  }

  /** What the tests do with the objects: Parse, Start, Post the list, StopAndWait. */
  method RunScript(script: string, parseFloat: FloatParser) returns (r: Result<Canvas, ParseError>)
    ensures r == Painted(script, parseFloat)
  {
    var parsed := Parse(script, parseFloat);
    if parsed.Err? {
      return Err(parsed.error);
    }
    var canvas := RunOps(parsed.value);
    return Ok(canvas);
  }

  /** Start a loop over a zero State, post the operations as one list and drain it. */
  method RunOps(ops: seq<Op>) returns (c: Canvas)
    ensures c == Apply(List(ops), Zero, CanvasSize).canvas
  {
    var state := new State();
    var loop := new Loop.Start(state);
    loop.Post(List(ops));
    loop.StopAndWait();
    ApplyAllOne(List(ops), Zero, CanvasSize);
    return state.Value();
  }

  // ---------------------------------------------------------------------------
  // From lines to operations, and from operations to the final canvas.

  /** Lines that each parse give exactly their operations, in order. */
  lemma {:induction false} ParseEachIs(nb: seq<string>, ops: seq<Op>, parseFloat: FloatParser)
    requires Parsable(nb)
    requires |nb| == |ops| && forall k :: 0 <= k < |nb| ==> ParseLine(nb[k], parseFloat) == Ok(ops[k])
    ensures ParseEach(nb, parseFloat) == Ok(ops)
    decreases |nb|
  {
    if nb != [] {
      assert ParseLine(nb[0], parseFloat) == Ok(ops[0]);
      assert forall k :: 0 <= k < |nb| - 1 ==> nb[1..][k] == nb[k + 1] && ops[1..][k] == ops[k + 1];
      ParseEachIs(nb[1..], ops[1..], parseFloat);
      assert [ops[0]] + ops[1..] == ops;
    }
  }

  /** A script whose non-blank lines parse to `ops` paints what `ops` paint. */
  lemma PaintedFrom(script: string, ops: seq<Op>, parseFloat: FloatParser)
    requires var nb := NonBlank(ScanLines(script));
      |nb| == |ops| && forall k :: 0 <= k < |nb| ==> ParseLine(nb[k], parseFloat) == Ok(ops[k])
    ensures Painted(script, parseFloat) == Ok(Apply(List(ops), Zero, CanvasSize).canvas)
  {
    var lines := ScanLines(script);
    SkipsBlankLines(lines, parseFloat);
    ParseEachIs(NonBlank(lines), ops, parseFloat);
  }

  /** A script whose only non-blank line fails is rejected naming that line. */
  lemma RejectedAt(script: string, e: ParseError, parseFloat: FloatParser)
    requires var nb := NonBlank(ScanLines(script)); |nb| == 1 && ParseLine(nb[0], parseFloat) == Err(e)
    ensures Painted(script, parseFloat) == Err(AtLine(NonBlank(ScanLines(script))[0], e))
  {
    SkipsBlankLines(ScanLines(script), parseFloat);
  }

  /** The canvas after a list with one more member is that member applied to the canvas before. */
  lemma CanvasAfter(ops: seq<Op>, op: Op, c: Canvas)
    ensures ApplyAll(ops + [op], c, CanvasSize).canvas == Apply(op, ApplyAll(ops, c, CanvasSize).canvas, CanvasSize).canvas
  {
    assert (ops + [op])[..|ops|] == ops;
  }

  // ---------------------------------------------------------------------------
  // TestBgColorCommands: green, white, update leaves a white background.

  lemma BgColorOps()
    ensures var o := Apply(List([SetBgColor(Green), SetBgColor(White), Update]), Zero, CanvasSize);
      o.canvas == Canvas(White, None, []) && o.ready
  {
    ApplyAllTwo(SetBgColor(Green), SetBgColor(White), Zero, CanvasSize);
    CanvasAfter([SetBgColor(Green), SetBgColor(White)], Update, Zero);
  }

  lemma BgColorLines(nb: seq<string>, parseFloat: FloatParser)
    requires |nb| == 3 && Fields(nb[0]) == ["green"] && Fields(nb[1]) == ["white"] && Fields(nb[2]) == ["update"]
    ensures var ops := [SetBgColor(Green), SetBgColor(White), Update];
      forall k :: 0 <= k < |nb| ==> Fields(nb[k]) != [] && ParseLine(nb[k], parseFloat) == Ok(ops[k])
  {
    ExtraArgumentsIgnored(nb[0], "green", [], parseFloat);
    ExtraArgumentsIgnored(nb[1], "white", [], parseFloat);
    ExtraArgumentsIgnored(nb[2], "update", [], parseFloat);
  }

  lemma BgColorCommands(script: string, parseFloat: FloatParser)
    requires var nb := NonBlank(ScanLines(script));
      |nb| == 3 && Fields(nb[0]) == ["green"] && Fields(nb[1]) == ["white"] && Fields(nb[2]) == ["update"]
    ensures Painted(script, parseFloat) == Ok(Canvas(White, None, []))
  {
    BgColorLines(NonBlank(ScanLines(script)), parseFloat);
    PaintedFrom(script, [SetBgColor(Green), SetBgColor(White), Update], parseFloat);
    BgColorOps();
  }

  // ---------------------------------------------------------------------------
  // TestBgRectCommand: bgrect 0.25 0.25 0.75 0.75 puts the rectangle at (100, 100)-(300, 300).

  lemma BgRectOps()
    ensures Apply(List([BgRect(0.25, 0.25, 0.75, 0.75), Update]), Zero, CanvasSize).canvas ==
      Canvas(Nil, Some(Rect(Point(100, 100), Point(300, 300))), [])
  {
    ApplyAllTwo(BgRect(0.25, 0.25, 0.75, 0.75), Update, Zero, CanvasSize);
  }

  lemma BgRectLines(nb: seq<string>, parseFloat: FloatParser)
    requires |nb| == 2 && Fields(nb[0]) == ["bgrect", "0.25", "0.25", "0.75", "0.75"] && Fields(nb[1]) == ["update"]
    requires parseFloat("0.25") == Some(0.25) && parseFloat("0.75") == Some(0.75)
    ensures var ops := [BgRect(0.25, 0.25, 0.75, 0.75), Update];
      forall k :: 0 <= k < |nb| ==> Fields(nb[k]) != [] && ParseLine(nb[k], parseFloat) == Ok(ops[k])
  {
    var args := ["0.25", "0.25", "0.75", "0.75"];
    assert Fields(nb[0]) == ["bgrect"] + args;
    NumericCommands(nb[0], "bgrect", args, parseFloat);
    NumericValues(nb[0], "bgrect", args, parseFloat);
    ExtraArgumentsIgnored(nb[1], "update", [], parseFloat);
  }

  lemma BgRectCommand(script: string, parseFloat: FloatParser)
    requires var nb := NonBlank(ScanLines(script));
      |nb| == 2 && Fields(nb[0]) == ["bgrect", "0.25", "0.25", "0.75", "0.75"] && Fields(nb[1]) == ["update"]
    requires parseFloat("0.25") == Some(0.25) && parseFloat("0.75") == Some(0.75)
    ensures Painted(script, parseFloat) == Ok(Canvas(Nil, Some(Rect(Point(100, 100), Point(300, 300))), []))
  {
    BgRectLines(NonBlank(ScanLines(script)), parseFloat);
    PaintedFrom(script, [BgRect(0.25, 0.25, 0.75, 0.75), Update], parseFloat);
    BgRectOps();
  }

  // ---------------------------------------------------------------------------
  // TestShapeCommands: figure 0.0 0.0 then move 1.0 1.0 leaves one shape at (400, 400).

  lemma ShapeOps()
    ensures Apply(List([AddShape(0.0, 0.0), MoveShapes(1.0, 1.0), Update]), Zero, CanvasSize).canvas ==
      Canvas(Nil, None, [Point(400, 400)])
  {
    ApplyAllTwo(AddShape(0.0, 0.0), MoveShapes(1.0, 1.0), Zero, CanvasSize);
    CanvasAfter([AddShape(0.0, 0.0), MoveShapes(1.0, 1.0)], Update, Zero);
  }

  /** A figure or move line with two numerals that parse. */
  lemma PointLine(line: string, cmd: string, a: string, b: string, x: real, y: real, parseFloat: FloatParser)
    requires Fields(line) == [cmd, a, b] && cmd in {"figure", "move"}
    requires parseFloat(a) == Some(x) && parseFloat(b) == Some(y)
    ensures ParseLine(line, parseFloat) == Ok(if cmd == "figure" then AddShape(x, y) else MoveShapes(x, y))
  {
    assert Fields(line) == [cmd] + [a, b];
    NumericCommands(line, cmd, [a, b], parseFloat);
    NumericValues(line, cmd, [a, b], parseFloat);
  }

  lemma ShapeLines(nb: seq<string>, parseFloat: FloatParser)
    requires |nb| == 3 && Fields(nb[0]) == ["figure", "0.0", "0.0"] &&
      Fields(nb[1]) == ["move", "1.0", "1.0"] && Fields(nb[2]) == ["update"]
    requires parseFloat("0.0") == Some(0.0) && parseFloat("1.0") == Some(1.0)
    ensures var ops := [AddShape(0.0, 0.0), MoveShapes(1.0, 1.0), Update];
      forall k :: 0 <= k < |nb| ==> Fields(nb[k]) != [] && ParseLine(nb[k], parseFloat) == Ok(ops[k])
  {
    PointLine(nb[0], "figure", "0.0", "0.0", 0.0, 0.0, parseFloat);
    PointLine(nb[1], "move", "1.0", "1.0", 1.0, 1.0, parseFloat);
    ExtraArgumentsIgnored(nb[2], "update", [], parseFloat);
  }

  lemma ShapeCommands(script: string, parseFloat: FloatParser)
    requires var nb := NonBlank(ScanLines(script));
      |nb| == 3 && Fields(nb[0]) == ["figure", "0.0", "0.0"] &&
      Fields(nb[1]) == ["move", "1.0", "1.0"] && Fields(nb[2]) == ["update"]
    requires parseFloat("0.0") == Some(0.0) && parseFloat("1.0") == Some(1.0)
    ensures Painted(script, parseFloat) == Ok(Canvas(Nil, None, [Point(400, 400)]))
  {
    ShapeLines(NonBlank(ScanLines(script)), parseFloat);
    PaintedFrom(script, [AddShape(0.0, 0.0), MoveShapes(1.0, 1.0), Update], parseFloat);
    ShapeOps();
  }

  // ---------------------------------------------------------------------------
  // TestResetCommand: white, figure, bgrect, reset, update leaves the cleared state.

  lemma ResetOps()
    ensures Apply(List([SetBgColor(White), AddShape(0.5, 0.5), BgRect(0.1, 0.1, 0.2, 0.2), Reset, Update]),
      Zero, CanvasSize).canvas == Cleared
  {
    var ops := [SetBgColor(White), AddShape(0.5, 0.5), BgRect(0.1, 0.1, 0.2, 0.2), Reset];
    ResetLast(ops[..3], Zero, CanvasSize);
    assert ops[..3] + [Reset] == ops;
    CanvasAfter(ops, Update, Zero);
  }

  lemma ResetLines(nb: seq<string>, parseFloat: FloatParser)
    requires |nb| == 5 && Fields(nb[0]) == ["white"] && Fields(nb[1]) == ["figure", "0.5", "0.5"] &&
      Fields(nb[2]) == ["bgrect", "0.1", "0.1", "0.2", "0.2"] && Fields(nb[3]) == ["reset"] && Fields(nb[4]) == ["update"]
    requires parseFloat("0.5") == Some(0.5) && parseFloat("0.1") == Some(0.1) && parseFloat("0.2") == Some(0.2)
    ensures var ops := [SetBgColor(White), AddShape(0.5, 0.5), BgRect(0.1, 0.1, 0.2, 0.2), Reset, Update];
      forall k :: 0 <= k < |nb| ==> Fields(nb[k]) != [] && ParseLine(nb[k], parseFloat) == Ok(ops[k])
  {
    var ops := [SetBgColor(White), AddShape(0.5, 0.5), BgRect(0.1, 0.1, 0.2, 0.2), Reset, Update];
    forall k | 0 <= k < |nb|
      ensures Fields(nb[k]) != [] && ParseLine(nb[k], parseFloat) == Ok(ops[k])
    {
      if k == 0 {
        ExtraArgumentsIgnored(nb[0], "white", [], parseFloat);
      } else if k == 1 {
        PointLine(nb[1], "figure", "0.5", "0.5", 0.5, 0.5, parseFloat);
      } else if k == 2 {
        RectLine(nb[2], ["0.1", "0.1", "0.2", "0.2"], 0.1, 0.1, 0.2, 0.2, parseFloat);
      } else if k == 3 {
        ExtraArgumentsIgnored(nb[3], "reset", [], parseFloat);
      } else {
        ExtraArgumentsIgnored(nb[4], "update", [], parseFloat);
      }
    }
  }

  /** A bgrect line with four numerals that parse. */
  lemma RectLine(line: string, args: seq<string>, x1: real, y1: real, x2: real, y2: real, parseFloat: FloatParser)
    requires |args| == 4 && Fields(line) == ["bgrect"] + args
    requires parseFloat(args[0]) == Some(x1) && parseFloat(args[1]) == Some(y1)
    requires parseFloat(args[2]) == Some(x2) && parseFloat(args[3]) == Some(y2)
    ensures ParseLine(line, parseFloat) == Ok(BgRect(x1, y1, x2, y2))
  {
    NumericCommands(line, "bgrect", args, parseFloat);
    NumericValues(line, "bgrect", args, parseFloat);
  }

  lemma ResetCommand(script: string, parseFloat: FloatParser)
    requires var nb := NonBlank(ScanLines(script));
      |nb| == 5 && Fields(nb[0]) == ["white"] && Fields(nb[1]) == ["figure", "0.5", "0.5"] &&
      Fields(nb[2]) == ["bgrect", "0.1", "0.1", "0.2", "0.2"] && Fields(nb[3]) == ["reset"] && Fields(nb[4]) == ["update"]
    requires parseFloat("0.5") == Some(0.5) && parseFloat("0.1") == Some(0.1) && parseFloat("0.2") == Some(0.2)
    ensures Painted(script, parseFloat) == Ok(Cleared)
  {
    ResetLines(NonBlank(ScanLines(script)), parseFloat);
    PaintedFrom(script, [SetBgColor(White), AddShape(0.5, 0.5), BgRect(0.1, 0.1, 0.2, 0.2), Reset, Update], parseFloat);
    ResetOps();
  }

  // ---------------------------------------------------------------------------
  // Double buffering: the worker draws on `next` only, and swaps after each frame.

  /**
    Two frames, each adding one shape: the first frame is the first texture
    with the white background and the first cross, the second frame is the
    other texture, which holds only the second cross, and `next` is the first
    texture again.
   */
  lemma FramesAlternate()
    ensures var b := BoundsOf(CanvasSize);
      Drain([SetBgColor(White), AddShape(0.5, 0.5), Update, AddShape(0.75, 0.75), Update], Zero, [], [], false, []) ==
      Drained(Canvas(White, None, [Point(200, 200), Point(300, 300)]),
              [FillCall(b, White)] + Ui.CrossFills(b, Point(200, 200)),
              Ui.CrossFills(b, Point(300, 300)),
              [false, true], false)
  {
    var b := BoundsOf(CanvasSize);
    var white := Canvas(White, None, []);
    var one := white.(shapes := [Point(200, 200)]);
    var two := white.(shapes := [Point(200, 200), Point(300, 300)]);
    var f1 := [FillCall(b, White)];
    var f2 := f1 + Ui.CrossFills(b, Point(200, 200));
    var c2 := Ui.CrossFills(b, Point(300, 300));
    assert ScalePoint(0.5, 0.5, CanvasSize) == Point(200, 200);
    assert ScalePoint(0.75, 0.75, CanvasSize) == Point(300, 300);
    assert RepaintFills(white, b) == f1;
    assert Apply(SetBgColor(White), Zero, CanvasSize) == Outcome(white, f1, false);
    assert Apply(AddShape(0.5, 0.5), white, CanvasSize) == Outcome(one, Ui.CrossFills(b, Point(200, 200)), false);
    assert Apply(AddShape(0.75, 0.75), one, CanvasSize) == Outcome(two, c2, false);
    var ops := [SetBgColor(White), AddShape(0.5, 0.5), Update, AddShape(0.75, 0.75), Update];
    assert Drain(ops, Zero, [], [], false, []) == Drain(ops[1..], white, f1, [], false, []);
    assert Drain(ops[1..], white, f1, [], false, []) == Drain(ops[2..], one, f2, [], false, []);
    assert Drain(ops[2..], one, f2, [], false, []) == Drain(ops[3..], one, f2, [], true, [false]);
    assert Drain(ops[3..], one, f2, [], true, [false]) == Drain(ops[4..], two, f2, c2, true, [false]);
    assert Drain(ops[4..], two, f2, c2, true, [false]) == Drain([], two, f2, c2, false, [false, true]);
  }

  // ---------------------------------------------------------------------------
  // TestInvalidCommands: each of these one-line scripts is rejected.

  lemma TooFewArguments(script: string, parseFloat: FloatParser)
    requires var nb := NonBlank(ScanLines(script)); |nb| == 1 && Fields(nb[0]) == ["figure", "0.1"]
    ensures Painted(script, parseFloat) == Err(AtLine(NonBlank(ScanLines(script))[0], ArgCount(2, 1)))
  {
    InvalidLines(NonBlank(ScanLines(script))[0], parseFloat);
    RejectedAt(script, ArgCount(2, 1), parseFloat);
  }

  lemma NotANumber(script: string, parseFloat: FloatParser)
    requires var nb := NonBlank(ScanLines(script)); |nb| == 1 && Fields(nb[0]) == ["move", "a", "b"]
    requires parseFloat("a") == None
    ensures Painted(script, parseFloat) == Err(AtLine(NonBlank(ScanLines(script))[0], BadFloat("a")))
  {
    InvalidLines(NonBlank(ScanLines(script))[0], parseFloat);
    RejectedAt(script, BadFloat("a"), parseFloat);
  }

  lemma NoSuchCommand(script: string, parseFloat: FloatParser)
    requires var nb := NonBlank(ScanLines(script)); |nb| == 1 && Fields(nb[0]) == ["cmd"]
    ensures Painted(script, parseFloat) == Err(AtLine(NonBlank(ScanLines(script))[0], UnknownCommand("cmd")))
  {
    InvalidLines(NonBlank(ScanLines(script))[0], parseFloat);
    RejectedAt(script, UnknownCommand("cmd"), parseFloat);
  }

  /** The three rejected lines, each with its own error. */
  lemma InvalidLines(line: string, parseFloat: FloatParser)
    ensures Fields(line) == ["figure", "0.1"] ==> ParseLine(line, parseFloat) == Err(ArgCount(2, 1))
    ensures Fields(line) == ["move", "a", "b"] && parseFloat("a") == None ==>
      ParseLine(line, parseFloat) == Err(BadFloat("a"))
    ensures Fields(line) == ["cmd"] ==> ParseLine(line, parseFloat) == Err(UnknownCommand("cmd"))
  {
    if Fields(line) == ["figure", "0.1"] {
      assert Fields(line) == ["figure"] + ["0.1"];
      NumericCommands(line, "figure", ["0.1"], parseFloat);
    } else if Fields(line) == ["move", "a", "b"] {
      assert Fields(line) == ["move"] + ["a", "b"];
      NumericCommands(line, "move", ["a", "b"], parseFloat);
    } else if Fields(line) == ["cmd"] {
      assert Fields(line) == ["cmd"] + [];
      UnknownCommands(line, "cmd", [], parseFloat);
    }
  }
}
