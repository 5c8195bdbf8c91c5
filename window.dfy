/**
  The two pure pieces of the window code: the cross shape that DrawShape
  paints (two blue bars whose size follows the window width), and the test
  that decides which window events end the event pump.
 */
module Ui {
  import opened Surface

  /** crossSize = windowRect.Dx() / 2, in Go's truncating division. */
  function CrossSize(windowRect: Rect): int
  {
    GoQuot(windowRect.Dx(), 2)
  }

  /** thickness = crossSize / 3. */
  function Thickness(windowRect: Rect): int
  {
    GoQuot(CrossSize(windowRect), 3)
  }

  /** The upright bar of the cross centred on `center`. */
  function VerticalBar(windowRect: Rect, center: Point): (r: Rect)
    ensures r.Canonical()
    ensures r.min.x + r.max.x == 2 * center.x && r.min.y + r.max.y == 2 * center.y
  {
    var s, t := CrossSize(windowRect), Thickness(windowRect);
    MakeRect(center.x - GoQuot(t, 2), center.y - GoQuot(s, 2),
             center.x + GoQuot(t, 2), center.y + GoQuot(s, 2))
  }

  /** The crossbar of the cross centred on `center`. */
  function HorizontalBar(windowRect: Rect, center: Point): (r: Rect)
    ensures r.Canonical()
    ensures r.min.x + r.max.x == 2 * center.x && r.min.y + r.max.y == 2 * center.y
  {
    var s, t := CrossSize(windowRect), Thickness(windowRect);
    MakeRect(center.x - GoQuot(s, 2), center.y - GoQuot(t, 2),
             center.x + GoQuot(s, 2), center.y + GoQuot(t, 2))
  }

  /**
    The fills DrawShape makes, in the order it makes them: two blue fills of
    well-formed rectangles centred on `center`.
   */
  function CrossFills(windowRect: Rect, center: Point): (r: seq<FillCall>)
    ensures |r| == 2
    ensures forall i :: 0 <= i < 2 ==>
      (r[i].color == Blue && r[i].rect.Canonical() &&
       r[i].rect.min.x + r[i].rect.max.x == 2 * center.x && r[i].rect.min.y + r[i].rect.max.y == 2 * center.y)
  {
    [FillCall(VerticalBar(windowRect, center), Blue),
     FillCall(HorizontalBar(windowRect, center), Blue)]
  }

  /** Mirror a rectangle in the diagonal x = y. */
  function Transpose(r: Rect): Rect
  {
    Rect(Point(r.min.y, r.min.x), Point(r.max.y, r.max.x))
  }

  /**
    DrawShape paints a cross on `target`: exactly two opaque blue fills, the
    vertical bar first and the horizontal bar second.
   */
  method DrawShape(target: Texture, windowRect: Rect, center: Point)
    modifies target
    ensures target.fills == old(target.fills) + CrossFills(windowRect, center)
  {
    var crossSize := GoQuot(windowRect.Dx(), 2);
    var thickness := GoQuot(crossSize, 3);
    var vRect := MakeRect(center.x - GoQuot(thickness, 2), center.y - GoQuot(crossSize, 2),
                          center.x + GoQuot(thickness, 2), center.y + GoQuot(crossSize, 2));
    var hRect := MakeRect(center.x - GoQuot(crossSize, 2), center.y - GoQuot(thickness, 2),
                          center.x + GoQuot(crossSize, 2), center.y + GoQuot(thickness, 2));
    target.Fill(vRect, Blue);
    target.Fill(hRect, Blue);
  }

  /**
    For a well-formed window rectangle the bars are exactly
    [c.x - t/2, c.x + t/2] x [c.y - s/2, c.y + s/2] and its transpose, where
    s = Dx/2 and t = s/3 (Go's and Dafny's division agree on these
    non-negative operands).
   */
  lemma CrossBars(windowRect: Rect, c: Point)
    requires windowRect.Dx() >= 0
    ensures var s := windowRect.Dx() / 2; var t := s / 3;
      VerticalBar(windowRect, c) == Rect(Point(c.x - t / 2, c.y - s / 2), Point(c.x + t / 2, c.y + s / 2)) &&
      HorizontalBar(windowRect, c) == Rect(Point(c.x - s / 2, c.y - t / 2), Point(c.x + s / 2, c.y + t / 2))
  {
  }

  /** The horizontal bar is the vertical bar of the mirrored centre, mirrored back. */
  lemma HorizontalIsTranspose(windowRect: Rect, c: Point)
    ensures HorizontalBar(windowRect, c) == Transpose(VerticalBar(windowRect, Point(c.y, c.x)))
  {
  }

  /** Only the window's width and the centre decide the cross. */
  lemma CrossDependsOnWidthOnly(w1: Rect, w2: Rect, c: Point)
    requires w1.Dx() == w2.Dx()
    ensures CrossFills(w1, c) == CrossFills(w2, c)
  {
  }

  /**
    Both bars are centred on `center`, and for a well-formed window the
    vertical bar is no wider than the horizontal bar and the horizontal bar no
    taller than the vertical one: the two bars form a cross.
   */
  lemma CrossIsCentred(windowRect: Rect, c: Point)
    requires windowRect.Dx() >= 0
    ensures var v, h := VerticalBar(windowRect, c), HorizontalBar(windowRect, c);
      v.min.x + v.max.x == 2 * c.x && v.min.y + v.max.y == 2 * c.y &&
      h.min.x + h.max.x == 2 * c.x && h.min.y + h.max.y == 2 * c.y &&
      h.min.x <= v.min.x && v.max.x <= h.max.x &&
      v.min.y <= h.min.y && h.max.y <= v.max.y
  {
    CrossBars(windowRect, c);
  }

  /** On the painter's 400x400 canvas a cross is 200 long and 66 thick. */
  lemma CanvasCross(c: Point)
    ensures VerticalBar(BoundsOf(CanvasSize), c) == Rect(Point(c.x - 33, c.y - 100), Point(c.x + 33, c.y + 100))
    ensures HorizontalBar(BoundsOf(CanvasSize), c) == Rect(Point(c.x - 100, c.y - 33), Point(c.x + 100, c.y + 33))
  {
    CrossBars(BoundsOf(CanvasSize), c);
  }

  /** The lifecycle stages of golang.org/x/mobile/event/lifecycle. */
  datatype Stage = StageDead | StageAlive | StageVisible | StageFocused

  /** key.CodeEscape in golang.org/x/mobile/event/key (HID usage 0x29). */
  const CodeEscape := 41

  /** The window events the event pump sees, reduced to the fields detectTerminate reads. */
  datatype Event =
    | LifecycleEvent(from: Stage, to: Stage)
    | KeyEvent(code: int)
    | SizeEvent
    | MouseEvent
    | PaintEvent
    | ErrorEvent
    | OtherEvent

  /** detectTerminate: the window is being torn down, or Escape was pressed or released. */
  function DetectTerminate(e: Event): (stop: bool)
    ensures stop <==> (e.LifecycleEvent? && e.to == StageDead) || (e.KeyEvent? && e.code == CodeEscape)
  {
    match e
    case LifecycleEvent(_, to) => to == StageDead
    case KeyEvent(code) => code == CodeEscape
    case _ => false
  }
}
