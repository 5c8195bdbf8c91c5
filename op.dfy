/**
  The canvas state and the operations that change it.

  An operation is a value of `Op`. Applying it to a `State` and a `Texture`
  changes the state's fields and appends fills to the texture, and answers
  whether the texture is now ready to be shown. `Apply` says what one
  application does, on values; the methods below do it in place and are proved
  to agree with `Apply`, and the lemmas state what `Apply` promises.
 */
module Painter {
  import opened Wrappers
  import opened Surface
  import Ui

  /**
    The operations of the painter. The Go code builds each one as a closure
    over the State it changes; here the State is passed to `Do` instead.
    Coordinates are the float64 arguments, as fractions of the texture size.
   */
  datatype Op =
    | SetBgColor(color: Color)                         // SetBgColorOp
    | BgRect(x1: real, y1: real, x2: real, y2: real)   // BgRectOp
    | AddShape(x: real, y: real)                       // AddShapeOp
    | MoveShapes(x: real, y: real)                     // MoveShapesOp
    | Reset                                            // ResetOp
    | Update                                           // UpdateOp
    | List(ops: seq<Op>)                               // OperationList

  /** The value of a State: background colour, optional black rectangle, cross centres. */
  datatype Canvas = Canvas(bg: Color, rect: Option<Rect>, shapes: seq<Point>)

  /** The zero value of State: a nil background, no rectangle, no shapes. */
  const Zero := Canvas(Nil, None, [])

  /** The state ResetOp leaves: black, no rectangle, no shapes. */
  const Cleared := Canvas(Black, None, [])

  /** What applying an operation does: the new canvas, the fills made, and readiness. */
  datatype Outcome = Outcome(canvas: Canvas, fills: seq<FillCall>, ready: bool)

  /** One operation after another: the later canvas, both fill logs, either readiness. */
  function Then(first: Outcome, second: Outcome): Outcome
  {
    Outcome(second.canvas, first.fills + second.fills, second.ready || first.ready)
  }

  /** The fills of one DrawShape per shape, in list order. */
  function ShapesFills(bounds: Rect, shapes: seq<Point>): seq<FillCall>
    decreases |shapes|
  {
    if shapes == [] then []
    else ShapesFills(bounds, shapes[..|shapes| - 1]) + Ui.CrossFills(bounds, shapes[|shapes| - 1])
  }

  /** The fills Repaint makes: background, then the black rectangle if any, then every cross. */
  function RepaintFills(c: Canvas, bounds: Rect): seq<FillCall>
  {
    [FillCall(bounds, c.bg)]
    + (match c.rect case Some(r) => [FillCall(r, Black)] case None => [])
    + ShapesFills(bounds, c.shapes)
  }

  /** image.Pt(int(x*float64(size.X)), int(y*float64(size.Y))). */
  function ScalePoint(x: real, y: real, size: Point): Point
  {
    Point(Scale(x, size.x), Scale(y, size.y))
  }

  /** The effect of applying `op` to a texture of the given size over canvas `c`. */
  function Apply(op: Op, c: Canvas, size: Point): Outcome
    decreases op
  {
    var bounds := BoundsOf(size);
    match op
    case SetBgColor(clr) =>
      if c.bg != clr then
        var c' := c.(bg := clr);
        Outcome(c', RepaintFills(c', bounds), false)
      else Outcome(c, [], false)
    case BgRect(x1, y1, x2, y2) =>
      var r := MakeRect(Scale(x1, size.x), Scale(y1, size.y), Scale(x2, size.x), Scale(y2, size.y));
      var c' := c.(rect := Some(r));
      Outcome(c', RepaintFills(c', bounds), false)
    case AddShape(x, y) =>
      var p := ScalePoint(x, y, size);
      Outcome(c.(shapes := c.shapes + [p]), Ui.CrossFills(bounds, p), false)
    case MoveShapes(x, y) =>
      var p := ScalePoint(x, y, size);
      var c' := c.(shapes := seq(|c.shapes|, _ => p));
      Outcome(c', RepaintFills(c', bounds), false)
    case Reset =>
      Outcome(Cleared, [FillCall(bounds, Black)], false)
    case Update =>
      Outcome(c, [], true)
    case List(ops) =>
      ApplyAll(ops, c, size)
  }

  /** The members of an OperationList applied one after another, in order. */
  function ApplyAll(ops: seq<Op>, c: Canvas, size: Point): Outcome
    decreases ops
  {
    if ops == [] then Outcome(c, [], false)
    else
      var before := ApplyAll(ops[..|ops| - 1], c, size);
      Then(before, Apply(ops[|ops| - 1], before.canvas, size))
  }

  /** Which operations signal a ready frame, independently of any state. */
  predicate Signals(op: Op)
    decreases op
  {
    match op
    case Update => true
    case List(ops) => exists i :: 0 <= i < |ops| && Signals(ops[i])
    case _ => false
  }

  // ---------------------------------------------------------------------------
  // What the operations promise.

  /**
    Readiness depends on the operation alone: UpdateOp is ready, every
    OperationFunc-built operation is not, and an OperationList is ready exactly
    when one of its members is (so an empty list is not).
   */
  lemma {:induction false} ReadyIsSignals(op: Op, c: Canvas, size: Point)
    ensures Apply(op, c, size).ready == Signals(op)
    decreases op
  {
    match op
    case List(ops) => ReadyAllIsSignals(ops, c, size);
    case _ =>
  }

  lemma {:induction false} ReadyAllIsSignals(ops: seq<Op>, c: Canvas, size: Point)
    ensures ApplyAll(ops, c, size).ready == exists i :: 0 <= i < |ops| && Signals(ops[i])
    decreases ops
  {
    if ops != [] {
      var n := |ops| - 1;
      var before := ApplyAll(ops[..n], c, size);
      ReadyAllIsSignals(ops[..n], c, size);
      ReadyIsSignals(ops[n], before.canvas, size);
      assert forall i :: 0 <= i < n ==> ops[..n][i] == ops[i];
    }
  }

  /**
    An OperationList applies all of its members with no short cut: running
    `a + b` is running `a`, then running `b` from where `a` left the canvas,
    with both fill logs kept in order.
   */
  lemma {:induction false} ApplyAllAppend(a: seq<Op>, b: seq<Op>, c: Canvas, size: Point)
    ensures var first := ApplyAll(a, c, size);
      ApplyAll(a + b, c, size) == Then(first, ApplyAll(b, first.canvas, size))
    decreases |b|
  {
    var first := ApplyAll(a, c, size);
    if b == [] {
      assert a + b == a;
    } else {
      var n := |b| - 1;
      assert (a + b)[..|a + b| - 1] == a + b[..n];
      assert (a + b)[|a + b| - 1] == b[n];
      ApplyAllAppend(a, b[..n], c, size);
      var mid := ApplyAll(b[..n], first.canvas, size);
      var last := Apply(b[n], mid.canvas, size);
      assert ApplyAll(a + b, c, size) == Then(Then(first, mid), last);
      ThenAssoc(first, mid, last);
    }
  }

  /** Running outcomes one after another does not depend on how they are grouped. */
  lemma ThenAssoc(x: Outcome, y: Outcome, z: Outcome)
    ensures Then(Then(x, y), z) == Then(x, Then(y, z))
  {
    assert (x.fills + y.fills) + z.fills == x.fills + (y.fills + z.fills);
  }

  /** A list of one operation behaves as that operation; nesting a list adds nothing. */
  lemma SingletonList(op: Op, c: Canvas, size: Point)
    ensures Apply(List([op]), c, size) == Apply(op, c, size)
  {
    ApplyAllOne(op, c, size);
  }

  lemma ApplyAllOne(op: Op, c: Canvas, size: Point)
    ensures ApplyAll([op], c, size) == Apply(op, c, size)
  {
    assert [op][..0] == [];
    var o := Apply(op, c, size);
    assert ApplyAll([op], c, size) == Then(Outcome(c, [], false), o);
    assert [] + o.fills == o.fills;
  }

  /** A two-member list runs the first member, then the second from where it left the canvas. */
  lemma ApplyAllTwo(a: Op, b: Op, c: Canvas, size: Point)
    ensures var first := Apply(a, c, size);
      ApplyAll([a, b], c, size) == Then(first, Apply(b, first.canvas, size))
  {
    assert [a, b][..1] == [a];
    ApplyAllOne(a, c, size);
  }

  /** Repaint's fills, one by one: background, black rectangle if present, then two per shape. */
  lemma RepaintOrder(c: Canvas, bounds: Rect)
    ensures var fs, k := RepaintFills(c, bounds), if c.rect.Some? then 1 else 0;
      |fs| == 1 + k + 2 * |c.shapes| &&
      fs[0] == FillCall(bounds, c.bg) &&
      (c.rect.Some? ==> fs[1] == FillCall(c.rect.value, Black)) &&
      forall i :: 0 <= i < |c.shapes| ==>
        fs[1 + k + 2 * i] == FillCall(Ui.VerticalBar(bounds, c.shapes[i]), Blue) &&
        fs[2 + k + 2 * i] == FillCall(Ui.HorizontalBar(bounds, c.shapes[i]), Blue)
  {
    ShapesFillsAt(bounds, c.shapes);
  }

  lemma {:induction false} ShapesFillsAt(bounds: Rect, shapes: seq<Point>)
    ensures |ShapesFills(bounds, shapes)| == 2 * |shapes|
    ensures forall i :: 0 <= i < |shapes| ==>
      ShapesFills(bounds, shapes)[2 * i] == FillCall(Ui.VerticalBar(bounds, shapes[i]), Blue) &&
      ShapesFills(bounds, shapes)[2 * i + 1] == FillCall(Ui.HorizontalBar(bounds, shapes[i]), Blue)
    decreases |shapes|
  {
    if shapes != [] {
      var n := |shapes| - 1;
      ShapesFillsAt(bounds, shapes[..n]);
      assert forall i :: 0 <= i < n ==> shapes[..n][i] == shapes[i];
    }
  }

  /**
    SetBgColorOp: the same colour again changes nothing and draws nothing;
    a new colour is stored and then exactly one repaint happens, with the new
    colour as its first fill. Either way the operation is not ready.
   */
  lemma SetBgColorEffect(clr: Color, c: Canvas, size: Point)
    ensures var o := Apply(SetBgColor(clr), c, size);
      !o.ready &&
      (c.bg == clr ==> o.canvas == c && o.fills == []) &&
      (c.bg != clr ==> o.canvas == c.(bg := clr) && o.canvas.bg == clr &&
                       o.fills == RepaintFills(o.canvas, BoundsOf(size)) &&
                       o.fills[0] == FillCall(BoundsOf(size), clr))
  {
  }

  /** Setting the same background twice repaints once. */
  lemma SetBgColorTwice(clr: Color, c: Canvas, size: Point)
    ensures Apply(List([SetBgColor(clr), SetBgColor(clr)]), c, size) == Apply(SetBgColor(clr), c, size)
  {
    ApplyAllTwo(SetBgColor(clr), SetBgColor(clr), c, size);
    var o := Apply(SetBgColor(clr), c, size);
    assert o.fills + [] == o.fills;
  }

  /** The later of two background colours wins, whatever the state before. */
  lemma LastColorWins(first: Color, second: Color, c: Canvas, size: Point)
    ensures Apply(List([SetBgColor(first), SetBgColor(second)]), c, size).canvas.bg == second
  {
    ApplyAllTwo(SetBgColor(first), SetBgColor(second), c, size);
  }

  /** The points a run of AddShapeOps places, scaled to the texture size. */
  function Placed(ops: seq<Op>, size: Point): seq<Point>
    requires forall i :: 0 <= i < |ops| ==> ops[i].AddShape?
  {
    seq(|ops|, i requires 0 <= i < |ops| => ScalePoint(ops[i].x, ops[i].y, size))
  }

  /** Drawing two runs of shapes is drawing the first run, then the second. */
  lemma {:induction false} ShapesFillsAppend(bounds: Rect, s: seq<Point>, t: seq<Point>)
    ensures ShapesFills(bounds, s + t) == ShapesFills(bounds, s) + ShapesFills(bounds, t)
    decreases |t|
  {
    if t == [] {
      assert s + t == s;
    } else {
      var n := |t| - 1;
      assert (s + t)[..|s + t| - 1] == s + t[..n];
      ShapesFillsAppend(bounds, s, t[..n]);
    }
  }

  /**
    A run of AddShapeOps appends their points, in order, after the existing
    shapes; background and rectangle stay, nothing is ready, and the fills
    made are one cross per new point, in order.
   */
  lemma {:induction false} AddShapesAppend(ops: seq<Op>, c: Canvas, size: Point)
    requires forall i :: 0 <= i < |ops| ==> ops[i].AddShape?
    ensures var pts := Placed(ops, size);
      ApplyAll(ops, c, size) ==
        Outcome(c.(shapes := c.shapes + pts), ShapesFills(BoundsOf(size), pts), false)
    decreases |ops|
  {
    if ops != [] {
      var n := |ops| - 1;
      var bounds := BoundsOf(size);
      var pts, init := Placed(ops, size), Placed(ops[..n], size);
      AddShapesAppend(ops[..n], c, size);
      assert init == pts[..n];
      assert pts == init + [pts[n]];
      assert c.shapes + pts == (c.shapes + init) + [pts[n]];
      ShapesFillsAppend(bounds, init, [pts[n]]);
      assert ShapesFills(bounds, [pts[n]]) == Ui.CrossFills(bounds, pts[n]) by {
        assert [pts[n]][..0] == [];
      }
    }
  }

  /**
    Adding shapes draws exactly what a full repaint would add for them: the
    incremental drawing of AddShapeOp agrees with repainting afterwards.
   */
  lemma AddShapesDrawIncrementally(ops: seq<Op>, c: Canvas, size: Point)
    requires forall i :: 0 <= i < |ops| ==> ops[i].AddShape?
    ensures var o := ApplyAll(ops, c, size);
      RepaintFills(o.canvas, BoundsOf(size)) == RepaintFills(c, BoundsOf(size)) + o.fills
  {
    AddShapesAppend(ops, c, size);
    ShapesFillsAppend(BoundsOf(size), c.shapes, Placed(ops, size));
  }

  /**
    MoveShapesOp moves every shape onto the one target point (it does not
    translate them): the list keeps its length, every element is the target,
    an empty list stays empty, colour and rectangle stay, and it repaints.
   */
  lemma MoveShapesCollapses(x: real, y: real, c: Canvas, size: Point)
    ensures var o, p := Apply(MoveShapes(x, y), c, size), ScalePoint(x, y, size);
      |o.canvas.shapes| == |c.shapes| &&
      (forall i :: 0 <= i < |c.shapes| ==> o.canvas.shapes[i] == p) &&
      o.canvas.bg == c.bg && o.canvas.rect == c.rect && !o.ready &&
      o.fills == RepaintFills(o.canvas, BoundsOf(size))
  {
  }

  /** Where the shapes were before a move does not matter, only how many there were. */
  lemma MoveForgetsPositions(x: real, y: real, c1: Canvas, c2: Canvas, size: Point)
    requires c1.bg == c2.bg && c1.rect == c2.rect && |c1.shapes| == |c2.shapes|
    ensures Apply(MoveShapes(x, y), c1, size) == Apply(MoveShapes(x, y), c2, size)
  {
  }

  /** Moving to the same point twice leaves the canvas as moving once. */
  lemma MoveShapesIdempotent(x: real, y: real, c: Canvas, size: Point)
    ensures var once := Apply(MoveShapes(x, y), c, size);
      Apply(MoveShapes(x, y), once.canvas, size) == once
  {
  }

  /**
    ResetOp, from any state: black background, no rectangle, no shapes, and a
    single full-bounds black fill, which is the same as repainting the cleared
    state.
   */
  lemma ResetClears(c: Canvas, size: Point)
    ensures var o := Apply(Reset, c, size);
      o.canvas == Cleared && o.fills == [FillCall(BoundsOf(size), Black)] && !o.ready &&
      o.fills == RepaintFills(Cleared, BoundsOf(size))
  {
  }

  /** Whatever came before, a list that ends in ResetOp leaves the cleared state. */
  lemma ResetLast(ops: seq<Op>, c: Canvas, size: Point)
    ensures ApplyAll(ops + [Reset], c, size).canvas == Cleared
  {
    assert (ops + [Reset])[..|ops|] == ops;
  }

  /** UpdateOp is ready and changes neither the state nor the texture. */
  lemma UpdateOnlySignals(c: Canvas, size: Point)
    ensures Apply(Update, c, size) == Outcome(c, [], true)
  {
  }

  /** BgRectOp stores the truncated, scaled corners (sorted per axis) and repaints. */
  lemma BgRectStores(x1: real, y1: real, x2: real, y2: real, c: Canvas, size: Point)
    ensures var o := Apply(BgRect(x1, y1, x2, y2), c, size);
      o.canvas.rect == Some(MakeRect(Scale(x1, size.x), Scale(y1, size.y), Scale(x2, size.x), Scale(y2, size.y))) &&
      o.canvas.rect.value.Canonical() &&
      {o.canvas.rect.value.min.x, o.canvas.rect.value.max.x} == {Scale(x1, size.x), Scale(x2, size.x)} &&
      {o.canvas.rect.value.min.y, o.canvas.rect.value.max.y} == {Scale(y1, size.y), Scale(y2, size.y)} &&
      o.canvas.bg == c.bg && o.canvas.shapes == c.shapes && !o.ready &&
      o.fills == RepaintFills(o.canvas, BoundsOf(size))
  {
  }

  // ---------------------------------------------------------------------------
  // The state object and the operations applied in place.

  /** painter.State: the canvas state every operation changes in place. */
  class State {
    var bgColor: Color
    var bgRect: Option<Rect>
    var shapes: seq<Point>

    /** The zero value `var state painter.State`: nil colour, no rectangle, no shapes. */
    constructor ()
      ensures Value() == Zero
    {
      bgColor, bgRect, shapes := Nil, None, [];
    }

    function Value(): Canvas
      reads this
    {
      Canvas(bgColor, bgRect, shapes)
    }
  }

  /** Repaint draws the whole state onto t and changes no state. */
  method Repaint(st: State, t: Texture)
    modifies t
    ensures t.fills == old(t.fills) + RepaintFills(st.Value(), t.Bounds())
  {
    var tRect := t.Bounds();
    t.Fill(tRect, st.bgColor);
    if st.bgRect.Some? {
      t.Fill(st.bgRect.value, Black);
    }
    ghost var head := t.fills;
    var i := 0;
    while i < |st.shapes|
      invariant 0 <= i <= |st.shapes|
      invariant t.fills == head + ShapesFills(tRect, st.shapes[..i])
    {
      Ui.DrawShape(t, tRect, st.shapes[i]);
      assert st.shapes[..i + 1][..i] == st.shapes[..i];
      i := i + 1;
    }
    assert st.shapes[..i] == st.shapes;
  }

  /** SetBgColorOp's body: store the colour; repaint (deferred, so after the store) if it changed. */
  method SetBgColorOp(st: State, t: Texture, clr: Color)
    modifies st, t
    ensures old(st.bgColor) == clr ==> st.Value() == old(st.Value()) && t.fills == old(t.fills)
    ensures old(st.bgColor) != clr ==>
      st.Value() == old(st.Value()).(bg := clr) &&
      t.fills == old(t.fills) + RepaintFills(st.Value(), t.Bounds())
  {
    var changed := st.bgColor != clr;
    st.bgColor := clr;
    if changed {
      Repaint(st, t);
    }
  }

  /** BgRectOp's body: store the scaled rectangle and repaint. */
  method BgRectOp(st: State, t: Texture, x1: real, y1: real, x2: real, y2: real)
    modifies st, t
    ensures st.bgColor == old(st.bgColor) && st.shapes == old(st.shapes)
    ensures st.bgRect == Some(MakeRect(Scale(x1, t.size.x), Scale(y1, t.size.y), Scale(x2, t.size.x), Scale(y2, t.size.y)))
    ensures t.fills == old(t.fills) + RepaintFills(st.Value(), t.Bounds())
  {
    var width, height := t.size.x, t.size.y;
    var r := MakeRect(Scale(x1, width), Scale(y1, height), Scale(x2, width), Scale(y2, height));
    st.bgRect := Some(r);
    Repaint(st, t);
  }

  /** AddShapeOp's body: append the scaled point and draw only that one cross. */
  method AddShapeOp(st: State, t: Texture, x: real, y: real)
    modifies st, t
    ensures st.bgColor == old(st.bgColor) && st.bgRect == old(st.bgRect)
    ensures st.shapes == old(st.shapes) + [ScalePoint(x, y, t.size)]
    ensures t.fills == old(t.fills) + Ui.CrossFills(t.Bounds(), ScalePoint(x, y, t.size))
  {
    var pos := Point(Scale(x, t.size.x), Scale(y, t.size.y));
    st.shapes := st.shapes + [pos];
    Ui.DrawShape(t, t.Bounds(), pos);
  }

  /** MoveShapesOp's body: overwrite every shape with the scaled point, then repaint. */
  method MoveShapesOp(st: State, t: Texture, x: real, y: real)
    modifies st, t
    ensures st.bgColor == old(st.bgColor) && st.bgRect == old(st.bgRect)
    ensures |st.shapes| == |old(st.shapes)|
    ensures forall i :: 0 <= i < |st.shapes| ==> st.shapes[i] == ScalePoint(x, y, t.size)
    ensures t.fills == old(t.fills) + RepaintFills(st.Value(), t.Bounds())
  {
    var pos := Point(Scale(x, t.size.x), Scale(y, t.size.y));
    var i := 0;
    while i < |st.shapes|
      invariant 0 <= i <= |st.shapes| == |old(st.shapes)|
      invariant forall j :: 0 <= j < i ==> st.shapes[j] == pos
      invariant st.bgColor == old(st.bgColor) && st.bgRect == old(st.bgRect)
      invariant t.fills == old(t.fills)
    {
      st.shapes := st.shapes[i := pos];
      i := i + 1;
    }
    Repaint(st, t);
  }

  /** ResetOp's body: black, no rectangle, no shapes, and one black fill of the bounds. */
  method ResetOp(st: State, t: Texture)
    modifies st, t
    ensures st.Value() == Cleared
    ensures t.fills == old(t.fills) + [FillCall(t.Bounds(), Black)]
  {
    st.bgColor := Black;
    st.bgRect := None;
    st.shapes := [];
    t.Fill(t.Bounds(), st.bgColor);
  }

  /**
    Operation.Do: apply `op` to `st`, drawing on `t`. The new state, the fills
    made and the readiness are those `Apply` describes. An OperationList runs
    every member in order and ORs their readiness.
   */
  method Do(op: Op, st: State, t: Texture) returns (ready: bool)
    modifies st, t
    ensures var o := Apply(op, old(st.Value()), t.size);
      st.Value() == o.canvas && t.fills == old(t.fills) + o.fills && ready == o.ready
    decreases op
  {
    match op
    case SetBgColor(clr) =>
      SetBgColorOp(st, t, clr);
      ready := false;
    case BgRect(x1, y1, x2, y2) =>
      BgRectOp(st, t, x1, y1, x2, y2);
      ready := false;
    case AddShape(x, y) =>
      AddShapeOp(st, t, x, y);
      ready := false;
    case MoveShapes(x, y) =>
      MoveShapesOp(st, t, x, y);
      assert st.shapes == seq(|old(st.shapes)|, _ => ScalePoint(x, y, t.size));
      ready := false;
    case Reset =>
      ResetOp(st, t);
      ready := false;
    case Update =>
      ready := true;
    case List(ops) =>
      ghost var start, log := st.Value(), t.fills;
      ready := false;
      var i := 0;
      while i < |ops|
        invariant 0 <= i <= |ops|
        invariant var o := ApplyAll(ops[..i], start, t.size);
          st.Value() == o.canvas && t.fills == log + o.fills && ready == o.ready
      {
        assert ops[..i + 1][..i] == ops[..i];
        var r := Do(ops[i], st, t);
        ready := r || ready;
        i := i + 1;
      }
      assert ops[..i] == ops;
  }
}
