/**
  The execution loop: a FIFO of posted operations, a worker that applies them
  one at a time to the texture being built, publishes that texture when an
  operation says it is ready and then swaps it with the previous one, and a
  pending counter that StopAndWait waits on.

  The worker goroutine, the channel's blocking and the WaitGroup are replaced
  by a sequential model: `Post` enqueues (and needs room, where Go would
  block), `Step` is one turn of the worker, and `StopAndWait` runs the worker
  until the counter is zero.
 */
module PainterLoop {
  import opened Surface
  import opened Painter

  /** The channel buffer Start makes: make(chan Operation, 100). */
  const QueueCapacity := 100

  /** messageQueue: a bounded FIFO of operations. */
  class MessageQueue {
    const capacity: nat
    var ops: seq<Op>

    constructor (capacity: nat)
      ensures this.capacity == capacity && ops == []
    {
      this.capacity := capacity;
      ops := [];
    }

    /** push: enqueue at the back; in Go a full channel blocks the sender. */
    method Push(op: Op)
      requires |ops| < capacity
      modifies this
      ensures ops == old(ops) + [op]
    {
      ops := ops + [op];
    }

    /** pull: dequeue the front; in Go an empty channel blocks the receiver. */
    method Pull() returns (op: Op)
      requires ops != []
      modifies this
      ensures op == old(ops)[0] && ops == old(ops)[1..]
    {
      op := ops[0];
      ops := ops[1..];
    }

    /** empty: nothing is buffered. */
    method Empty() returns (e: bool)
      ensures e <==> |ops| == 0
    {
      e := |ops| == 0;
    }
  }

  /**
    A queue hands operations back in the order they were pushed: push every
    operation, then pull as many, and the same sequence comes back and the
    queue is empty again.
   */
  method PushPullInOrder(xs: seq<Op>) returns (ys: seq<Op>, drained: bool)
    requires |xs| <= QueueCapacity
    ensures ys == xs && drained
  {
    var q := new MessageQueue(QueueCapacity);
    var i := 0;
    while i < |xs|
      invariant 0 <= i <= |xs| && q.capacity == QueueCapacity
      invariant q.ops == xs[..i]
    {
      q.Push(xs[i]);
      assert xs[..i + 1] == xs[..i] + [xs[i]];
      i := i + 1;
    }
    ys := [];
    while |ys| < |xs|
      invariant |ys| <= |xs| && q.ops == xs[|ys|..] && ys == xs[..|ys|]
    {
      var op := q.Pull();
      assert xs[..|ys| + 1] == xs[..|ys|] + [op];
      ys := ys + [op];
    }
    drained := q.Empty();
  }

  /** How many of the operations signal a ready frame. */
  function SignalCount(ops: seq<Op>): nat
    decreases |ops|
  {
    if ops == [] then 0
    else SignalCount(ops[..|ops| - 1]) + (if Signals(ops[|ops| - 1]) then 1 else 0)
  }

  /**
    What draining a queue does to the two textures. `first` is the texture
    that was `next` when draining began and `second` the one that was `prev`;
    `published` lists the textures handed to the receiver, `false` for
    `first` and `true` for `second`, and `swapped` says whether `next` ends as
    `second`.
   */
  datatype Drained = Drained(canvas: Canvas, first: seq<FillCall>, second: seq<FillCall>,
                             published: seq<bool>, swapped: bool)

  /**
    The worker run over `ops` from canvas `c`: each operation draws on the
    texture that is currently `next`; a ready operation publishes that
    texture and swaps the two roles.
   */
  function Drain(ops: seq<Op>, c: Canvas, first: seq<FillCall>, second: seq<FillCall>,
                 swapped: bool, published: seq<bool>): Drained
    decreases |ops|
  {
    if ops == [] then Drained(c, first, second, published, swapped)
    else
      var o := Apply(ops[0], c, CanvasSize);
      var first', second' := if swapped then first else first + o.fills, if swapped then second + o.fills else second;
      if o.ready then Drain(ops[1..], o.canvas, first', second', !swapped, published + [swapped])
      else Drain(ops[1..], o.canvas, first', second', swapped, published)
  }

  /** The textures a list of published flags names, in order. */
  function Frames(published: seq<bool>, first: Texture, second: Texture): seq<Texture>
  {
    seq(|published|, i requires 0 <= i < |published| => if published[i] then second else first)
  }

  /** Flags that start at `start` and change at every step: frames alternate between the textures. */
  predicate Alternates(flags: seq<bool>, start: bool)
  {
    forall j :: 0 <= j < |flags| ==> flags[j] == (start != (j % 2 == 1))
  }

  lemma {:induction false} SignalCountFront(op: Op, rest: seq<Op>)
    ensures SignalCount([op] + rest) == (if Signals(op) then 1 else 0) + SignalCount(rest)
    decreases |rest|
  {
    if rest != [] {
      var n := |rest| - 1;
      assert ([op] + rest)[..|[op] + rest| - 1] == [op] + rest[..n];
      SignalCountFront(op, rest[..n]);
    }
  }

  lemma ApplyAllFront(op: Op, rest: seq<Op>, c: Canvas)
    ensures var first := Apply(op, c, CanvasSize);
      ApplyAll([op] + rest, c, CanvasSize) == Then(first, ApplyAll(rest, first.canvas, CanvasSize))
  {
    ApplyAllAppend([op], rest, c, CanvasSize);
    ApplyAllOne(op, c, CanvasSize);
  }

  /** A drain ends on the canvas that applying the operations in turn gives. */
  lemma {:induction false} DrainCanvas(ops: seq<Op>, c: Canvas, first: seq<FillCall>, second: seq<FillCall>,
                                       swapped: bool, published: seq<bool>)
    ensures Drain(ops, c, first, second, swapped, published).canvas == ApplyAll(ops, c, CanvasSize).canvas
    decreases |ops|
  {
    if ops != [] {
      var o := Apply(ops[0], c, CanvasSize);
      var first', second' := if swapped then first else first + o.fills, if swapped then second + o.fills else second;
      var swapped', published' := if o.ready then !swapped else swapped, if o.ready then published + [swapped] else published;
      DrainCanvas(ops[1..], o.canvas, first', second', swapped', published');
      assert ops == [ops[0]] + ops[1..];
      ApplyAllFront(ops[0], ops[1..], c);
    }
  }

  /** A drain publishes one frame per ready operation, after those published before it. */
  lemma {:induction false} DrainCount(ops: seq<Op>, c: Canvas, first: seq<FillCall>, second: seq<FillCall>,
                                      swapped: bool, published: seq<bool>)
    ensures var d := Drain(ops, c, first, second, swapped, published);
      |d.published| == |published| + SignalCount(ops) && d.published[..|published|] == published
    decreases |ops|
  {
    if ops != [] {
      var o := Apply(ops[0], c, CanvasSize);
      var first', second' := if swapped then first else first + o.fills, if swapped then second + o.fills else second;
      var swapped', published' := if o.ready then !swapped else swapped, if o.ready then published + [swapped] else published;
      DrainCount(ops[1..], o.canvas, first', second', swapped', published');
      assert ops == [ops[0]] + ops[1..];
      SignalCountFront(ops[0], ops[1..]);
      ReadyIsSignals(ops[0], c, CanvasSize);
      var d := Drain(ops, c, first, second, swapped, published);
      assert d == Drain(ops[1..], o.canvas, first', second', swapped', published');
      assert d.published[..|published|] == d.published[..|published'|][..|published|];
    }
  }

  /**
    The frames a drain publishes alternate between the two textures, starting
    with the one that is `next`; `next` ends as the other texture exactly when
    an odd number of frames was published.
   */
  lemma {:induction false} DrainAlternates(ops: seq<Op>, c: Canvas, first: seq<FillCall>, second: seq<FillCall>,
                                           swapped: bool, published: seq<bool>)
    ensures var d := Drain(ops, c, first, second, swapped, published);
      |published| <= |d.published| &&
      Alternates(d.published[|published|..], swapped) &&
      d.swapped == (swapped != ((|d.published| - |published|) % 2 == 1))
    decreases |ops|, 1
  {
    if ops == [] {
      assert published[|published|..] == [];
    } else {
      var o := Apply(ops[0], c, CanvasSize);
      if !o.ready {
        if swapped {
          DrainAlternates(ops[1..], o.canvas, first, second + o.fills, swapped, published);
        } else {
          DrainAlternates(ops[1..], o.canvas, first + o.fills, second, swapped, published);
        }
      } else if swapped {
        DrainFlagged(ops[1..], o.canvas, first, second + o.fills, swapped, published);
      } else {
        DrainFlagged(ops[1..], o.canvas, first + o.fills, second, swapped, published);
      }
    }
  }

  /** DrainAlternates' step for a ready operation, which publishes `swapped` first. */
  lemma {:induction false} DrainFlagged(ops: seq<Op>, c: Canvas, first: seq<FillCall>, second: seq<FillCall>,
                                        swapped: bool, published: seq<bool>)
    ensures var d := Drain(ops, c, first, second, !swapped, published + [swapped]);
      |published| <= |d.published| &&
      Alternates(d.published[|published|..], swapped) &&
      d.swapped == (swapped != ((|d.published| - |published|) % 2 == 1))
    decreases |ops|, 2
  {
    var p := published + [swapped];
    DrainAlternates(ops, c, first, second, !swapped, p);
    DrainCount(ops, c, first, second, !swapped, p);
    var d := Drain(ops, c, first, second, !swapped, p);
    AlternatesAfterFlag(d.published, published, swapped);
  }

  /** A flag followed by flags alternating from its negation alternates from the flag. */
  lemma AlternatesAfterFlag(ps: seq<bool>, pre: seq<bool>, start: bool)
    requires |pre| + 1 <= |ps| && ps[..|pre| + 1] == pre + [start]
    requires Alternates(ps[|pre| + 1..], !start)
    ensures Alternates(ps[|pre|..], start)
  {
    var n := |pre|;
    assert ps[n] == ps[..n + 1][n] == start;
    assert ps[n..] == [start] + ps[n + 1..];
    AlternatesCons(start, ps[n + 1..]);
  }

  lemma AlternatesCons(start: bool, rest: seq<bool>)
    requires Alternates(rest, !start)
    ensures Alternates([start] + rest, start)
  {
    forall j | 0 <= j < |rest| + 1
      ensures ([start] + rest)[j] == (start != (j % 2 == 1))
    {
      if j > 0 {
        assert ([start] + rest)[j] == rest[j - 1];
      }
    }
  }

  /**
    A drain only appends to the two fill logs, and between them they gain
    exactly the fills applying the operations in turn makes (as a multiset:
    which texture gets each fill is Drain's business).
   */
  lemma {:induction false} DrainFills(ops: seq<Op>, c: Canvas, first: seq<FillCall>, second: seq<FillCall>,
                                      swapped: bool, published: seq<bool>)
    ensures var d := Drain(ops, c, first, second, swapped, published);
      |first| <= |d.first| && d.first[..|first|] == first &&
      |second| <= |d.second| && d.second[..|second|] == second &&
      multiset(d.first[|first|..]) + multiset(d.second[|second|..]) == multiset(ApplyAll(ops, c, CanvasSize).fills)
    decreases |ops|
  {
    if ops != [] {
      var o := Apply(ops[0], c, CanvasSize);
      var published' := if o.ready then published + [swapped] else published;
      var swapped' := if o.ready then !swapped else swapped;
      assert ops == [ops[0]] + ops[1..];
      ApplyAllFront(ops[0], ops[1..], c);
      if swapped {
        var second' := second + o.fills;
        DrainFills(ops[1..], o.canvas, first, second', swapped', published');
        var d := Drain(ops[1..], o.canvas, first, second', swapped', published');
        LogGrows(second, o.fills, d.second);
      } else {
        var first' := first + o.fills;
        DrainFills(ops[1..], o.canvas, first', second, swapped', published');
        var d := Drain(ops[1..], o.canvas, first', second, swapped', published');
        LogGrows(first, o.fills, d.first);
      }
    } else {
      assert first[|first|..] == [] && second[|second|..] == [];
    }
  }

  /** A log that extends `log + fills` extends `log`, by `fills` and then the rest. */
  lemma LogGrows(log: seq<FillCall>, fills: seq<FillCall>, after: seq<FillCall>)
    requires |log + fills| <= |after| && after[..|log + fills|] == log + fills
    ensures |log| <= |after| && after[..|log|] == log
    ensures after[|log|..] == fills + after[|log + fills|..]
  {
    assert after[..|log|] == after[..|log + fills|][..|log|];
  }

  /**
    painter.Loop. `received` is what the Receiver's Update was called with, in
    order; `state` is the State the posted operations act on (in Go each
    operation captured it when the parser built it). The ghost `posted` and
    `applied` record every operation ever posted and every one the worker has
    applied, and `textures` the two textures Start allocated.
   */
  class Loop {
    var received: seq<Texture>
    var next: Texture
    var prev: Texture
    const mq: MessageQueue
    var pending: int
    const state: State

    ghost const textures: set<Texture>
    ghost var posted: seq<Op>
    ghost var applied: seq<Op>

    /**
      The loop's invariant: the counter is the number of queued operations
      (so it is never negative), the queue fits its capacity, what was posted
      is what was applied followed by what is queued, and next and prev are
      the two distinct textures of the canvas size.
     */
    ghost predicate Valid()
      reads this, mq
    {
      mq.capacity == QueueCapacity && |mq.ops| <= QueueCapacity &&
      pending == |mq.ops| &&
      posted == applied + mq.ops &&
      next != prev && textures == {next, prev} &&
      next.size == CanvasSize && prev.size == CanvasSize
    }

    /** Start: allocate the two 400x400 textures and the queue of capacity 100. */
    constructor Start(st: State)
      ensures Valid() && state == st
      ensures fresh(next) && fresh(prev) && fresh(mq)
      ensures next.fills == [] && prev.fills == []
      ensures pending == 0 && mq.ops == [] && received == []
      ensures posted == [] && applied == []
    {
      next := new Texture(CanvasSize);
      prev := new Texture(CanvasSize);
      mq := new MessageQueue(QueueCapacity);
      state := st;
      pending := 0;
      received := [];
      textures := {next, prev};
      posted, applied := [], [];
      new;
      assert next != prev;
    }

    /** Post: count the operation as pending, then enqueue it (room is needed: Go blocks). */
    method Post(op: Op)
      requires Valid() && |mq.ops| < QueueCapacity
      modifies this, mq
      ensures Valid()
      ensures pending == old(pending) + 1
      ensures mq.ops == old(mq.ops) + [op]
      ensures posted == old(posted) + [op] && applied == old(applied)
      ensures next == old(next) && prev == old(prev) && received == old(received)
    {
      pending := pending + 1;
      mq.Push(op);
      posted := posted + [op];
    }

    /**
      One turn of the worker: take the oldest operation and apply it to `next`.
      If it is ready, `next` goes to the receiver and the two textures swap
      roles; otherwise neither happens. The counter drops by one either way.
     */
    method Step() returns (ready: bool)
      requires Valid() && mq.ops != []
      modifies this, mq, state, next
      ensures Valid()
      ensures var op := old(mq.ops[0]);
        var o := Apply(op, old(state.Value()), CanvasSize);
        applied == old(applied) + [op] && posted == old(posted) &&
        mq.ops == old(mq.ops[1..]) && pending == old(pending) - 1 &&
        state.Value() == o.canvas && ready == o.ready && ready == Signals(op) &&
        old(next).fills == old(next.fills) + o.fills
      ensures ready ==> received == old(received) + [old(next)] && next == old(prev) && prev == old(next)
      ensures !ready ==> received == old(received) && next == old(next) && prev == old(prev)
    {
      var op := mq.Pull();
      ghost var before := state.Value();
      ready := Do(op, state, next);
      ReadyIsSignals(op, before, CanvasSize);
      if ready {
        received := received + [next];
        next, prev := prev, next;
      }
      pending := pending - 1;
      applied := applied + [op];
    }

    /**
      StopAndWait: run the worker until the counter reaches zero. Every
      operation queued before the call is applied, in posting order; the state
      ends as applying them in turn says, and the receiver got exactly one
      texture per ready operation. Drain says which texture each published
      frame is, which texture ends as `next`, and what each texture's fill log
      holds. The worker is not stopped.
     */
    method StopAndWait()
      requires Valid()
      modifies this, mq, state, textures
      ensures Valid()
      ensures pending == 0 && mq.ops == []
      ensures applied == old(applied) + old(mq.ops) && posted == old(posted) && applied == posted
      ensures state.Value() == ApplyAll(old(mq.ops), old(state.Value()), CanvasSize).canvas
      ensures |received| == |old(received)| + SignalCount(old(mq.ops))
      ensures received[..|old(received)|] == old(received)
      ensures var d := Drain(old(mq.ops), old(state.Value()), old(next.fills), old(prev.fills), false, []);
        state.Value() == d.canvas &&
        old(next).fills == d.first && old(prev).fills == d.second &&
        received == old(received) + Frames(d.published, old(next), old(prev)) &&
        next == (if d.swapped then old(prev) else old(next)) &&
        prev == (if d.swapped then old(next) else old(prev))
    {
      ghost var queued, start := mq.ops, state.Value();
      ghost var first, second := next, prev;
      ghost var goal := Drain(queued, start, first.fills, second.fills, false, []);
      ghost var swapped, published := false, [];
      while pending > 0
        invariant Valid()
        invariant |mq.ops| <= |queued| && mq.ops == queued[|queued| - |mq.ops|..]
        invariant var k := |queued| - |mq.ops|;
          applied == old(applied) + queued[..k] && posted == old(posted) &&
          state.Value() == ApplyAll(queued[..k], start, CanvasSize).canvas &&
          |received| == |old(received)| + SignalCount(queued[..k]) &&
          received[..|old(received)|] == old(received)
        invariant goal == Drain(mq.ops, state.Value(), first.fills, second.fills, swapped, published)
        invariant received == old(received) + Frames(published, first, second)
        invariant next == (if swapped then second else first) && prev == (if swapped then first else second)
        decreases pending
      {
        ghost var k := |queued| - |mq.ops|;
        assert queued[..k + 1][..k] == queued[..k];
        assert queued[k] == mq.ops[0];
        assert queued[..k + 1] == queued[..k] + [queued[k]];
        var ready := Step();
        if ready {
          assert Frames(published + [swapped], first, second) == Frames(published, first, second) + [if swapped then second else first];
          published, swapped := published + [swapped], !swapped;
        }
      }
      assert queued[..|queued|] == queued;
    }
  }
}
