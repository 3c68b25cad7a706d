/**
 * A 2D canvas context as the texture recipes use it. No pixels are modelled: the
 * context records, in order, every fill-style assignment and every drawing call
 * made on it, and a texture is that record together with the canvas size.
 */
module Canvas2D {

  /** One stop of a gradient: its offset and its CSS colour. */
  datatype ColorStop = ColorStop(offset: real, color: string)

  /** A value assigned to `fillStyle`. */
  datatype Style =
    | Solid(color: string)
    | Rgba(r: int, g: int, b: int, a: real)
    | Radial(x0: real, y0: real, r0: real, x1: real, y1: real, r1: real, stops: seq<ColorStop>)
    | Linear(x0: real, y0: real, x1: real, y1: real, stops: seq<ColorStop>)

  /** One call on the context, or one `fillStyle` assignment. */
  datatype Op =
    | SetFill(style: Style)
    | FillRect(x: real, y: real, w: real, h: real)
    | ClearRect(x: real, y: real, w: real, h: real)
    | BeginPath
    | Arc(cx: real, cy: real, radius: real, startAngle: real, endAngle: real)
    | Ellipse(ex: real, ey: real, rx: real, ry: real, rotation: real, fromAngle: real, toAngle: real)
    | MoveTo(mx: real, my: real)
    | LineTo(lx: real, ly: real)
    | ClosePath
    | Fill

  /** A `THREE.CanvasTexture` over a canvas of the given size with the given drawing. */
  datatype Texture = Texture(width: nat, height: nat, ops: seq<Op>)

  /** The number of `arc` calls in a drawing. */
  function ArcCount(ops: seq<Op>): nat {
    if |ops| == 0 then 0 else ArcCount(ops[..|ops| - 1]) + (if ops[|ops| - 1].Arc? then 1 else 0)
  }

  lemma {:induction false} ArcCountConcat(a: seq<Op>, b: seq<Op>)
    ensures ArcCount(a + b) == ArcCount(a) + ArcCount(b)
  {
    if |b| > 0 {
      ArcCountConcat(a, b[..|b| - 1]);
      assert (a + b)[..|a + b| - 1] == a + b[..|b| - 1];
    } else {
      assert a + b == a;
    }
  }

  /** A canvas and its 2D context. */
  class Canvas {
    const width: nat
    const height: nat
    /** Everything drawn so far, oldest first. */
    var ops: seq<Op>

    constructor (width: nat, height: nat)
      ensures this.width == width && this.height == height && ops == []
    {
      this.width := width;
      this.height := height;
      ops := [];
    }

    method SetFillStyle(style: Style)
      modifies this
      ensures ops == old(ops) + [SetFill(style)]
    {
      ops := ops + [SetFill(style)];
    }

    method FillRectangle(x: real, y: real, w: real, h: real)
      modifies this
      ensures ops == old(ops) + [FillRect(x, y, w, h)]
    {
      ops := ops + [FillRect(x, y, w, h)];
    }

    method ClearRectangle(x: real, y: real, w: real, h: real)
      modifies this
      ensures ops == old(ops) + [ClearRect(x, y, w, h)]
    {
      ops := ops + [ClearRect(x, y, w, h)];
    }

    method Begin()
      modifies this
      ensures ops == old(ops) + [BeginPath]
    {
      ops := ops + [BeginPath];
    }

    method DrawArc(x: real, y: real, radius: real, startAngle: real, endAngle: real)
      modifies this
      ensures ops == old(ops) + [Arc(x, y, radius, startAngle, endAngle)]
    {
      ops := ops + [Arc(x, y, radius, startAngle, endAngle)];
    }

    method DrawEllipse(x: real, y: real, rx: real, ry: real, rotation: real, startAngle: real, endAngle: real)
      modifies this
      ensures ops == old(ops) + [Ellipse(x, y, rx, ry, rotation, startAngle, endAngle)]
    {
      ops := ops + [Ellipse(x, y, rx, ry, rotation, startAngle, endAngle)];
    }

    method Move(x: real, y: real)
      modifies this
      ensures ops == old(ops) + [MoveTo(x, y)]
    {
      ops := ops + [MoveTo(x, y)];
    }

    method Line(x: real, y: real)
      modifies this
      ensures ops == old(ops) + [LineTo(x, y)]
    {
      ops := ops + [LineTo(x, y)];
    }

    method Close()
      modifies this
      ensures ops == old(ops) + [ClosePath]
    {
      ops := ops + [ClosePath];
    }

    method FillPath()
      modifies this
      ensures ops == old(ops) + [Fill]
    {
      ops := ops + [Fill];
    }
  }

  /** Concatenations of equal pieces are equal. */
  lemma SameConcat(a: seq<Op>, a': seq<Op>, b: seq<Op>, b': seq<Op>)
    requires a == a' && b == b'
    ensures a + b == a' + b'
  {
  }

  /** Two pieces drawn one after the other extend the log by their concatenation. */
  lemma AppendTwo(log: seq<Op>, a: seq<Op>, b: seq<Op>)
    ensures log + a + b == log + (a + b)
  {
  }

  /** Three pieces drawn one after the other extend the log by their concatenation. */
  lemma AppendThree(log: seq<Op>, a: seq<Op>, b: seq<Op>, c: seq<Op>)
    ensures log + a + b + c == log + (a + b + c)
  {
  }

  /** `n` blocks of calls laid end to end, block i being `block(i)`. */
  function Blocks(block: nat -> seq<Op>, n: nat): seq<Op> {
    if n == 0 then [] else Blocks(block, n - 1) + block(n - 1)
  }

  /** `n` blocks of four calls are `4n` calls. */
  lemma {:induction false} BlocksLength(block: nat -> seq<Op>, n: nat)
    requires forall i :: |block(i)| == 4
    ensures |Blocks(block, n)| == 4 * n
  {
    if n > 0 {
      BlocksLength(block, n - 1);
    }
  }

  /** Among blocks of four calls, block j occupies calls 4j to 4j + 3. */
  lemma {:induction false} BlocksSlices(block: nat -> seq<Op>, n: nat, j: nat)
    requires forall i :: |block(i)| == 4
    requires j < n
    ensures |Blocks(block, n)| == 4 * n
    ensures Blocks(block, n)[4 * j .. 4 * j + 4] == block(j)
  {
    var run, prev := Blocks(block, n), Blocks(block, n - 1);
    BlocksLength(block, n - 1);
    assert run == prev + block(n - 1);
    if j < n - 1 {
      BlocksSlices(block, n - 1, j);
      assert run[..|prev|] == prev;
      BlockInPrefix(run, prev, 4 * j, block(j));
    } else {
      assert run[|prev|..] == block(n - 1);
      BlockAtEnd(run, 4 * j, block(j));
    }
  }

  /** A block of four calls inside a prefix of a run is that block of the run. */
  lemma BlockInPrefix(run: seq<Op>, before: seq<Op>, k: nat, block: seq<Op>)
    requires |before| <= |run| && run[..|before|] == before && k + 4 <= |before|
    requires before[k..k + 4] == block
    ensures run[k..k + 4] == block
  {
    assert run[k..k + 4] == run[..|before|][k..k + 4];
  }

  /** The last four calls of a run are its suffix from their start on. */
  lemma BlockAtEnd(run: seq<Op>, k: nat, block: seq<Op>)
    requires k + 4 == |run| && run[k..] == block
    ensures run[k..k + 4] == block
  {
    assert run[k..k + 4] == run[k..];
  }
}
