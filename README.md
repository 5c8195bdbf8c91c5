# Painter: a verified model of the canvas, its loop and its command language

This project models the core of a small Go drawing server. A script of text
commands ("white", "green", "bgrect x1 y1 x2 y2", "figure x y", "move x y",
"reset", "update") is parsed into operations. The operations change a shared
canvas state and draw onto a 400x400 texture. A loop applies posted operations
one at a time and hands the texture to a receiver whenever an operation says
the frame is ready. A cross shape is drawn for every figure.

The model has six modules:

- `Surface` (surface.dfy): points, rectangles and `image.Rect`'s canonical
  form. It also has the colours the program uses and a `Texture` class that
  records every `Fill` call in order. Go's truncating integer division and
  float-to-int conversion are written out here.
- `Ui` (window.dfy): `DrawShape`, which paints the two bars of the cross, and
  `detectTerminate`, which picks the window events that end the program.
- `Painter` (op.dfy): the operations as a datatype `Op`. `Apply` and
  `ApplyAll` say what an operation does to a canvas value, which fills it
  makes and whether it is ready. The lemmas state what the operations promise.
  The `State` class and the methods `Repaint`, `SetBgColorOp`, …, `Do` apply
  the operations in place and are proved to agree with `Apply`.
- `PainterLoop` (loop.dfy): the bounded FIFO `MessageQueue` and the `Loop`
  class. `Post` enqueues and counts, `Step` is one turn of the worker, and
  `StopAndWait` drains the queue. The class invariant ties the pending counter
  to the queue, the posted operations to the applied ones, and `next`/`prev`
  to the two textures allocated at start. `Drain` describes a drain on values:
  the final canvas, both textures' fill logs, which texture each published
  frame is, and which texture ends as `next`. `StopAndWait` is proved to do
  what `Drain` describes.
- `Lang` (parser.dfy): `unicode.IsSpace`, `strings.TrimSpace`,
  `strings.Fields` and `bufio.ScanLines` as functions. It also holds
  `parseFloats` (a function and the loop-based method), `ParseLine`'s dispatch
  and `Parse`. A second reading, `ParseEach` over the non-blank lines, is
  proved equal to `ParseLines`. The properties the parser promises are proved
  about it.
- `Scenarios` (scenarios.dfy): the behaviour the loop tests assert, proved for
  every script whose non-blank lines have the tested fields. `RunScript` runs
  a script through `Parse`, `Loop.Start`, `Post` and `StopAndWait` on the
  objects and is proved to give `Painted`, the functional reading.
  `FramesAlternate` shows the double buffering on two frames: each operation
  draws only on `next`, so the second frame holds only what was drawn on the
  second texture.

`strconv.ParseFloat` is a parameter `parseFloat: string -> Option<real>` of
the parser. Each scenario states what it needs of that parameter on the
numerals its script uses.

## Model

| member | source | states |
|---|---|---|
| Surface.MakeRect | painter/op.go:75 | image.Rect's result is well-formed and has the given x and y coordinates as its corners, swapped per axis when given in decreasing order; ordered input is kept as is |
| Surface.GoQuot | ui/window.go:40-41 | Go's `/` truncates toward zero: the remainder has the sign of the dividend and is smaller than the divisor |
| Surface.Trunc | painter/op.go:75 | int(x) truncates toward zero: for x >= 0 the result is the floor, for x < 0 the ceiling |
| Surface.Scale | painter/op.go:73-75 | int(f * float64(n)) for the texture extent n: a fraction in [0, 1] of a non-negative extent lands in [0, n], and 0 and 1 land on the two edges |
| Surface.Texture.Bounds | painter/loop_test.go:45-47 | a texture's bounds start at the origin and end at its size |
| Surface.Texture.Fill | painter/loop_test.go:49-51 | one Fill call is appended to the texture's fill log and nothing else changes |
| Ui.VerticalBar | ui/window.go:40-49 | the upright bar is a well-formed rectangle centred on the given point (its exact size is stated by CrossBars) |
| Ui.HorizontalBar | ui/window.go:40-56 | the crossbar is a well-formed rectangle centred on the given point (its exact size is stated by CrossBars) |
| Ui.CrossFills | ui/window.go:58-59 | DrawShape's two fills are both blue, well-formed and centred on the given point |
| Ui.DrawShape | ui/window.go:37-60 | exactly two fills are appended, the vertical bar then the horizontal bar, both blue |
| Ui.CrossBars | ui/window.go:40-56 | for a well-formed window the vertical bar is [c.x - t/2, c.x + t/2] x [c.y - s/2, c.y + s/2] and the horizontal bar is its transpose, with s = Dx/2 and t = s/3 |
| Ui.HorizontalIsTranspose | ui/window.go:44-56 | the horizontal bar is the vertical bar of the mirrored centre, mirrored in the diagonal |
| Ui.CrossDependsOnWidthOnly | ui/window.go:40-41 | two windows of the same width give the same cross fills at the same centre |
| Ui.CrossIsCentred | ui/window.go:44-56 | both bars are centred on the given point, and the horizontal bar is at least as wide and no taller than the vertical one |
| Ui.CanvasCross | ui/window.go:40-56 | on the 400x400 canvas the bars are 66 by 200 and 200 by 66 around the centre |
| Ui.DetectTerminate | ui/window.go:83-91 | the result is true exactly for a lifecycle event to StageDead or a key event with the Escape code, false for every other event |
| Painter.Apply | painter/op.go:20-109 | the reference meaning of one operation: the new canvas, the fills made and the readiness; it has no contract of its own, and the Painter lemmas below state what it promises |
| Painter.ApplyAll | painter/op.go:20-25 | an OperationList applies its members one after another, each from the canvas the previous one left; stated by ApplyAllAppend, ReadyAllIsSignals and ResetLast |
| Painter.RepaintFills | painter/op.go:48-58 | the fills Repaint makes; stated by RepaintOrder and ShapesFillsAt |
| Painter.ShapesFills | painter/op.go:55-57 | reference definition of one DrawShape per shape in list order; ShapesFillsAt and ShapesFillsAppend state its properties |
| Painter.ScalePoint | painter/op.go:84 | image.Pt of the two scaled, truncated coordinates; its bounds come from Surface.Scale |
| Painter.ReadyIsSignals | painter/op.go:20-40 | an operation's readiness depends on the operation alone: Update is ready, every OperationFunc operation is not, and a list is ready exactly when one of its members is |
| Painter.ReadyAllIsSignals | painter/op.go:20-25 | a list's readiness is the OR of its members' readiness, so an empty list is not ready |
| Painter.ApplyAllAppend | painter/op.go:20-25 | running a + b is running a, then running b from the canvas a left, with both fill logs kept in order: no member is skipped |
| Painter.SingletonList | painter/op.go:20-25 | a list of one operation behaves exactly as that operation |
| Painter.ApplyAllTwo | painter/op.go:20-25 | a two-member list runs the first member, then the second from the canvas the first left |
| Painter.RepaintOrder | painter/op.go:48-58 | Repaint's fills are, in order, the full bounds in the background colour, the black rectangle if there is one, then the two bars of each shape in list order |
| Painter.ShapesFillsAt | painter/op.go:55-57 | the shapes' fills are two per shape, the vertical bar of shape i at 2i and its horizontal bar at 2i+1 |
| Painter.SetBgColorEffect | painter/op.go:61-68 | the same colour again changes nothing and draws nothing; a new colour is stored and exactly one repaint follows, with the new colour as its first fill; never ready |
| Painter.SetBgColorTwice | painter/op.go:61-68 | setting the same colour twice has the effect of setting it once |
| Painter.LastColorWins | painter/op.go:61-68 | of two background colours set in a row the second one remains |
| Painter.ShapesFillsAppend | painter/op.go:55-57 | drawing two runs of shapes is drawing the first run, then the second |
| Painter.AddShapesAppend | painter/op.go:82-88 | a run of AddShapeOps appends the scaled points in order after the existing shapes, keeps colour and rectangle, draws one cross per new point and is not ready |
| Painter.AddShapesDrawIncrementally | painter/op.go:82-88 | the crosses AddShapeOp draws are exactly what a full repaint of the new state adds to a repaint of the old one |
| Painter.MoveShapesCollapses | painter/op.go:91-99 | MoveShapesOp keeps the number of shapes and makes every one the single scaled target, keeps colour and rectangle, repaints and is not ready |
| Painter.MoveForgetsPositions | painter/op.go:91-99 | after a move only the number of shapes before it matters, not where they were |
| Painter.MoveShapesIdempotent | painter/op.go:91-99 | moving to the same point twice leaves what moving once left and draws the same repaint |
| Painter.ResetClears | painter/op.go:102-109 | from any state ResetOp leaves black, no rectangle, no shapes, with one full-bounds black fill, which is the repaint of the cleared state; not ready |
| Painter.ResetLast | painter/op.go:102-109 | whatever ran before, a list ending in ResetOp leaves the cleared state |
| Painter.UpdateOnlySignals | painter/op.go:28-32 | UpdateOp is ready and changes neither the state nor the texture |
| Painter.BgRectStores | painter/op.go:71-79 | BgRectOp stores exactly image.Rect of the truncated scaled coordinates: a well-formed rectangle whose corners per axis are those coordinates, in increasing order; it keeps colour and shapes, repaints and is not ready |
| Painter.State.constructor | painter/op.go:42-46 | a zero-value State has a nil background, no rectangle and no shapes |
| Painter.Repaint | painter/op.go:48-58 | Repaint changes no state and appends exactly the fills RepaintFills lists for the state |
| Painter.SetBgColorOp | painter/op.go:61-68 | the colour is stored before the deferred repaint runs; with the same colour nothing changes and nothing is drawn |
| Painter.BgRectOp | painter/op.go:71-79 | the scaled rectangle is stored, colour and shapes are kept, and the new state is repainted |
| Painter.AddShapeOp | painter/op.go:82-88 | one scaled point is appended and only its cross is drawn; colour and rectangle are kept |
| Painter.MoveShapesOp | painter/op.go:91-99 | the loop overwrites every shape with the scaled target, keeps the length, colour and rectangle, then repaints |
| Painter.ResetOp | painter/op.go:102-109 | the state becomes the cleared state and one black fill of the bounds is made |
| Painter.Do | painter/op.go:12-40 | applying an operation in place gives the state, fills and readiness Apply describes; a list runs every member in order and ORs readiness |
| PainterLoop.MessageQueue.Push | painter/loop.go:66-68 | push appends the operation at the back |
| PainterLoop.MessageQueue.Pull | painter/loop.go:70-72 | pull returns the front operation and removes it |
| PainterLoop.MessageQueue.Empty | painter/loop.go:74-76 | empty holds exactly when the queue length is 0 |
| PainterLoop.PushPullInOrder | painter/loop.go:61-76 | any sequence of up to 100 pushed operations is pulled back in push order, and the queue is then empty |
| PainterLoop.Loop.Start | painter/loop.go:29-34 | Start allocates two distinct 400x400 textures and an empty queue of capacity 100, with nothing pending and nothing received |
| PainterLoop.Loop.Post | painter/loop.go:51-54 | Post counts the operation as pending and appends it at the back of the queue; it needs room, where Go blocks |
| PainterLoop.Loop.Step | painter/loop.go:39-44 | the worker applies the oldest operation to next; if ready, next goes to the receiver once and next and prev swap; otherwise neither happens; the counter drops by one either way |
| PainterLoop.DrainCanvas | painter/loop.go:37-46 | draining the queue leaves the canvas that applying the queued operations in turn gives |
| PainterLoop.DrainCount | painter/loop.go:39-42 | a drain publishes one frame per ready operation, after the frames published before |
| PainterLoop.DrainAlternates | painter/loop.go:39-43 | the published frames alternate between the two textures, starting with next, and next ends as the other texture exactly when an odd number of frames was published |
| PainterLoop.DrainFills | painter/loop.go:39-40 | a drain only appends to the two textures' fill logs, and together the appended fills are exactly the fills the operations make, as a multiset |
| PainterLoop.Drain | painter/loop.go:37-46 | reference definition of the worker over the queued operations: each one is applied to next, and a ready one publishes next and swaps next and prev; DrainCanvas, DrainCount, DrainAlternates and DrainFills state its properties |
| PainterLoop.Frames | painter/loop.go:41 | reference definition of the textures handed to the receiver, one per published flag; DrainAlternates and StopAndWait state its properties |
| PainterLoop.Loop.StopAndWait | painter/loop.go:57-59 | after waiting the counter is 0, the queue is empty, every queued operation was applied in posting order, and the state is what applying them in turn gives; the receiver got one texture per ready operation, each the texture Drain names, next and prev are the textures Drain says, and each texture's fill log is the one Drain gives |
| Lang.IsSpace | painter/lang/parser.go:41 | unicode.IsSpace's table of white space characters, on which strings.Fields and strings.TrimSpace split and trim |
| Lang.Fields | painter/lang/parser.go:41 | strings.Fields: reference definition; FieldsSkipsSpace, FieldsOfWordThen and FieldsAreWords state that leading white space adds no field, a word followed by white space or the end is the next field, and every field is a word, which together fix the result on every text |
| Lang.DropCR | painter/lang/parser.go:89 | bufio.ScanLines removes one carriage return at the end of a line and nothing else |
| Lang.DropCRs | painter/lang/parser.go:86-89 | one line per line given, each with its trailing carriage return dropped as DropCR does |
| Lang.TrimLeft | painter/lang/parser.go:90 | the leading white space is dropped and the rest of the text is kept |
| Lang.TrimRight | painter/lang/parser.go:90 | the trailing white space is dropped and the rest of the text is kept |
| Lang.TrimSpace | painter/lang/parser.go:90 | the result is a slice of the line with no white space at either end; it is empty exactly when the line is all white space |
| Lang.TrimSpaceTrims | painter/lang/parser.go:90 | the slice TrimSpace keeps has only white space before it and only white space after it in the line |
| Lang.TrimSpaceOfPadded | painter/lang/parser.go:90 | text with no white space at either end, padded on both sides with white space, trims back to exactly that text |
| Lang.Token | painter/lang/parser.go:41 | the longest prefix without white space |
| Lang.FieldsAreWords | painter/lang/parser.go:41 | every field strings.Fields returns is a non-empty run of non-space characters |
| Lang.TokenOfWord | painter/lang/parser.go:41 | a word followed by white space or the end is its own first token |
| Lang.FieldsOfUnwords | painter/lang/parser.go:41 | splitting words joined by single spaces gives the words back |
| Lang.FieldsSkipsSpace | painter/lang/parser.go:41 | white space in front of a text adds no field |
| Lang.FieldsOfWordThen | painter/lang/parser.go:41 | a word followed by white space or the end is the first field, and the fields of the rest follow it |
| Lang.NonBlankHasFields | painter/lang/parser.go:90-95 | a line that is not blank after trimming has a first field, so fields[0] exists |
| Lang.LineEnd | painter/lang/parser.go:89 | the first newline's index, or the length when there is none |
| Lang.ScanLines | painter/lang/parser.go:86-89 | no scanned line contains a newline; ScanJoined, ScanFirstLine and ScanLast state the split and the carriage-return stripping |
| Lang.ScanJoined | painter/lang/parser.go:86-89 | scanning newline-terminated lines followed by a last unterminated line gives each line back less one trailing carriage return, the last one only when it is not empty; CRLF text scans as its lines without the '\r' |
| Lang.ScanFirstLine | painter/lang/parser.go:86-89 | the text up to the first newline, less one trailing carriage return, is the first line scanned |
| Lang.ScanLast | painter/lang/parser.go:86-89 | a text without newline is one line less one trailing carriage return, or no line when it is empty |
| Lang.FloatsFrom | painter/lang/parser.go:28-34 | on success there is one value per argument |
| Lang.FloatsFromMeaning | painter/lang/parser.go:28-34 | the arguments parse exactly when each one does; then value i is the parse of argument i; otherwise the error names the first argument that does not parse |
| Lang.Floats | painter/lang/parser.go:22-37 | a wrong argument count is reported before any argument is parsed; on success there are exactly count values |
| Lang.ParseFloats | painter/lang/parser.go:22-37 | the loop that fills the result slice returns what Floats describes |
| Lang.ParseLine | painter/lang/parser.go:40-81 | a line gives one of the language's single operations, never a list, or an argument-count, bad-number or unknown-command error; NumericCommands, ExtraArgumentsIgnored and UnknownCommands state each case |
| Lang.ParseLines | painter/lang/parser.go:85-106 | at most one operation per scanned line; an error always names the line it comes from and wraps that line's own error, never a nested line error |
| Lang.Parse | painter/lang/parser.go:85-106 | the scanning loop returns what ParseLines describes for the scanned lines |
| Lang.NonBlank | painter/lang/parser.go:89-93 | every trimmed non-blank line has a first field, and there are no more of them than lines |
| Lang.SkipsBlankLines | painter/lang/parser.go:89-100 | skipping blank lines while reading is parsing the trimmed non-blank lines in order |
| Lang.ParseEachOk | painter/lang/parser.go:95-99 | lines are accepted exactly when each parses; then there is one operation per line, line k's operation at position k |
| Lang.ParseEachFirstError | painter/lang/parser.go:95-98 | on failure the error wraps the first line that does not parse with that line's own error, and every earlier line parses |
| Lang.ScriptMeaning | painter/lang/parser.go:85-106 | a script is accepted exactly when each non-blank line parses, yields their operations one for one in order, and otherwise is rejected whole at its first bad non-blank line |
| Lang.LineOfWords | painter/lang/parser.go:41-43 | the line "cmd arg1 …" has exactly the fields cmd, arg1, …, so the dispatch sees cmd and those arguments |
| Lang.ExtraArgumentsIgnored | painter/lang/parser.go:45-53 | white, green, update and reset give their operation whatever arguments follow |
| Lang.NumericCommands | painter/lang/parser.go:55-74 | bgrect, figure and move parse exactly when they have 4, 2 and 2 arguments and each parses; a wrong count is reported as such; otherwise the first bad argument is reported |
| Lang.NumericValues | painter/lang/parser.go:55-74 | a parsed numeric command carries the parsed arguments in order |
| Lang.UnknownCommands | painter/lang/parser.go:79-80 | any other first field is an unknown command, whatever follows it |
| Scenarios.RunScript | painter/loop_test.go:54-68 | parsing, starting a loop over a zero State, posting the list and waiting leaves the State Painted describes, or the parse error |
| Scenarios.Painted | painter/loop_test.go:54-68 | reference definition of what a test observes: the parse error, or the State after the parsed list ran from the zero State; RunScript is proved to produce it |
| Scenarios.RunOps | painter/loop_test.go:62-68 | starting a loop over a zero State, posting the operations as one list and waiting leaves the canvas that list gives |
| Scenarios.PaintedFrom | painter/loop_test.go:57-68 | a script whose non-blank lines parse to given operations paints what those operations paint |
| Scenarios.RejectedAt | painter/loop_test.go:159-162 | a script whose only non-blank line fails is rejected naming that line |
| Scenarios.BgColorOps | painter/loop_test.go:53-73 | green, white, update from the zero state leave a white background and are ready |
| Scenarios.BgColorLines | painter/loop_test.go:57 | the lines green, white and update parse to their three operations |
| Scenarios.BgColorCommands | painter/loop_test.go:53-73 | a script with the lines green, white, update leaves a white background, no rectangle and no shapes |
| Scenarios.BgRectOps | painter/loop_test.go:75-95 | bgrect 0.25 0.25 0.75 0.75 then update leaves the rectangle (100,100)-(300,300) |
| Scenarios.BgRectLines | painter/loop_test.go:79 | the lines of the bgrect test parse to BgRect(0.25, 0.25, 0.75, 0.75) and Update |
| Scenarios.BgRectCommand | painter/loop_test.go:75-95 | a script with those lines leaves the rectangle with min (100,100) |
| Scenarios.PointLine | painter/lang/parser.go:62-74 | a figure or move line with two parsing numerals gives that operation with those values |
| Scenarios.ShapeOps | painter/loop_test.go:97-118 | figure 0 0, move 1 1, update leaves exactly one shape, at (400,400) |
| Scenarios.ShapeLines | painter/loop_test.go:101 | the lines of the shape test parse to AddShape, MoveShapes and Update |
| Scenarios.ShapeCommands | painter/loop_test.go:97-118 | a script with those lines leaves the single shape (400,400) |
| Scenarios.ResetOps | painter/loop_test.go:120-146 | white, figure, bgrect, reset, update leaves black, no rectangle and no shapes |
| Scenarios.RectLine | painter/lang/parser.go:55-60 | a bgrect line with four parsing numerals gives BgRect with those values |
| Scenarios.ResetLines | painter/loop_test.go:124 | the lines of the reset test parse to their five operations |
| Scenarios.ResetCommand | painter/loop_test.go:120-146 | a script with the lines white, figure 0.5 0.5, bgrect 0.1 0.1 0.2 0.2, reset, update leaves black, no rectangle and no shapes |
| Scenarios.FramesAlternate | painter/loop.go:39-43 | with two frames that each add one shape, the first frame is the first texture with the white background and the first cross, the second frame is the other texture, which holds only the second cross, and next is the first texture again |
| Scenarios.TooFewArguments | painter/loop_test.go:148-165 | "figure 0.1" is rejected with an argument-count error |
| Scenarios.NotANumber | painter/loop_test.go:148-165 | "move a b" is rejected naming the argument "a" when it does not parse |
| Scenarios.NoSuchCommand | painter/loop_test.go:148-165 | "cmd" is rejected as an unknown command |
| Scenarios.InvalidLines | painter/loop_test.go:149-153 | each of the three invalid lines gives its own error |

## Left out

- Goroutine, channel and `sync.WaitGroup`: the worker is the sequential `Step`, and `StopAndWait` runs it until the counter is zero. Interleavings of posting and applying are not modelled.
- PainterLoop.Loop.Post: requires fewer than 100 queued operations, where Go blocks the sender until the worker makes room.
- The `stop` channel is made and never used, so nothing models it; `StopAndWait` does not stop the worker in Go either.
- The Receiver is the list `received` of the textures handed to it, in order; what a receiver does with them is not modelled.
- `screen.Texture` is its size and its fill log. `Upload`, `Release` and the `draw.Op` argument, which is always `Src`, are not recorded. The errors `NewTexture` returns are ignored in Go and not modelled.
- Surface.Trunc: coordinates are exact reals, so float64 rounding of `x*float64(n)` is not modelled; the truncation toward zero is.
- strconv.ParseFloat is the parameter `parseFloat`; which strings it accepts and how it rounds is not modelled.
- Colours are the five values the program uses, `Nil` being the nil interface value of a zero State; other `color.Color` values are not modelled.
- Go builds each operation as a closure over one State pointer. Here the State is passed to `Do`, and the Loop holds the State its operations act on.
- Lang.Parse: the `bufio.Scanner` read errors and its 64 KiB line limit are not modelled; the input is a string that is always read whole.
- Scenarios.BgColorCommands: the test scripts are described by the fields of their non-blank lines rather than by their literal text.
- The `Visualizer` (its event pump, `draw`, `handleEvent`, texture scaling and window code), `cmd/painter/main.go` and `scripts/send_script.go` are not part of this model. The HTTP handler main.go refers to is not part of this model either.
- Lang.FloatsFrom: strconv.ParseFloat also accepts "NaN", "Inf" and "infinity". A `parseFloat` that returns a real cannot give those values, so scripts with them are not modelled. Surface.Trunc does not model `int(NaN*400)` or an infinite product either, because Go leaves that conversion implementation-defined.
- Surface.Trunc: Go's `int` is 64 bits. A float-to-int conversion out of that range, and `center.X + crossSize/2` in DrawShape near the limits, can wrap in Go; `int` here is unbounded.
- Lang.Fields: Go strings are UTF-8 bytes and may hold invalid sequences, which strings.Fields and strings.TrimSpace decode as U+FFFD, a non-space. `string` here is a sequence of Unicode scalar values, so invalid UTF-8 is not modelled; this applies to Lang.TrimSpace as well.
- Ui.DetectTerminate: the key event's direction (press or release) and modifiers are not fields of `Event`, because the Go code does not look at them.
