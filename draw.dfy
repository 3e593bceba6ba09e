/** The canvas primitives of the visualizer (Milky/Visualizer/video/draw.c):
    clearing a byte buffer, the bounds-checked single-pixel write, and
    Bresenham's line algorithm with per-step clamping to the canvas.

    A canvas is an RGBA8888 byte buffer: pixel (x, y) of a canvas `width`
    pixels wide occupies the four bytes starting at (y * width + x) * 4. */
module Draw {
  import opened Numeric

  /** One RGBA colour, as passed to setPixel and drawLine. */
  datatype Rgba = Rgba(r: Byte, g: Byte, b: Byte, a: Byte)

  /** Component k of a colour, in memory order (red, green, blue, alpha). */
  function Channel(c: Rgba, k: nat): Byte
    requires k < 4
  {
    if k == 0 then c.r else if k == 1 then c.g else if k == 2 then c.b else c.a
  }

  /** Byte offset of pixel (x, y) in a canvas `width` pixels wide. */
  function PixelOffset(width: nat, x: nat, y: nat): nat
  {
    (y * width + x) * 4
  }

  /** Number of bytes of a width x height RGBA canvas. */
  function CanvasBytes(width: nat, height: nat): nat
  {
    width * height * 4
  }

  lemma MulMonotone(a: nat, b: nat, c: nat)
    requires a <= b
    ensures a * c <= b * c
  {
  }

  /** setPixel's second guard, `index + 3 >= width * height * 4`, can never fire
      once `x < width` and `y < height` hold. */
  lemma {:induction false} SecondGuardNeverFires(width: nat, height: nat, x: nat, y: nat)
    requires x < width && y < height
    ensures PixelOffset(width, x, y) + 3 < CanvasBytes(width, height)
  {
    calc {
      y * width + x;
    <  y * width + width;
    == (y + 1) * width;
    <= { MulMonotone(y + 1, height, width); }
      height * width;
    }
    assert (y * width + x) * 4 + 3 < (y * width + x + 1) * 4;
    MulMonotone(y * width + x + 1, height * width, 4);
  }

  /** drawLine's `y * pitch + x * 4`, with `pitch = width * 4`, is the pixel's offset. */
  lemma PitchOffset(width: nat, x: nat, y: nat)
    ensures y * (width * 4) + x * 4 == PixelOffset(width, x, y)
  {
  }

  /** The four bytes of one pixel written with colour c, everything else kept. */
  function WritePixel(s: seq<Byte>, index: nat, c: Rgba): (r: seq<Byte>)
    requires index + 3 < |s|
    ensures |r| == |s|
    ensures forall k :: 0 <= k < |s| ==>
              r[k] == if index <= k < index + 4 then Channel(c, k - index) else s[k]
  {
    s[index := c.r][index + 1 := c.g][index + 2 := c.b][index + 3 := c.a]
  }

  /** The canvas after `setPixel(frame, width, height, x, y, r, g, b, a)`:
      both guards of the source, then the four-byte write. */
  function SetPixelSpec(s: seq<Byte>, width: nat, height: nat, x: nat, y: nat, c: Rgba): (r: seq<Byte>)
    requires CanvasBytes(width, height) <= |s|
    ensures |r| == |s|
    ensures !(x < width && y < height) ==> r == s
    ensures x < width && y < height ==>
              forall k :: 0 <= k < |s| ==>
                r[k] == if PixelOffset(width, x, y) <= k < PixelOffset(width, x, y) + 4
                        then Channel(c, k - PixelOffset(width, x, y)) else s[k]
  {
    if x >= width || y >= height then s
    else
      SecondGuardNeverFires(width, height, x, y);
      var index := (y * width + x) * 4;
      if index + 3 >= width * height * 4 then s
      else WritePixel(s, index, c)
  }

  /** The four byte stores `frame[index..index + 3] = r, g, b, a` shared by setPixel and drawLine. */
  method StorePixel(frame: array<Byte>, index: nat, c: Rgba)
    requires index + 3 < frame.Length
    modifies frame
    ensures frame[..] == WritePixel(old(frame[..]), index, c)
  {
    frame[index] := c.r;
    frame[index + 1] := c.g;
    frame[index + 2] := c.b;
    frame[index + 3] := c.a;
  }

  /** `clearFrame`: the first frameSize bytes become 0, nothing else is written. */
  method ClearFrame(frame: array<Byte>, frameSize: nat)
    requires frameSize <= frame.Length
    modifies frame
    ensures forall k :: 0 <= k < frameSize ==> frame[k] == 0
    ensures frame[frameSize..] == old(frame[frameSize..])
  {
    for i := 0 to frameSize
      invariant forall k :: 0 <= k < i ==> frame[k] == 0
      invariant frame[frameSize..] == old(frame[frameSize..])
    {
      frame[i] := 0;
    }
  }

  /** `memcpy(dst, src, n)` between two distinct canvases: the first n bytes of dst become
      those of src, and nothing else is written. */
  method CopyBytes(dst: array<Byte>, src: array<Byte>, n: nat)
    requires dst != src && n <= dst.Length && n <= src.Length
    modifies dst
    ensures dst[..n] == src[..n] && dst[n..] == old(dst[n..])
  {
    for i := 0 to n
      invariant dst[..i] == src[..i] && dst[n..] == old(dst[n..])
    {
      dst[i] := src[i];
      assert dst[..i + 1] == src[..i + 1];
    }
  }

  /** `setPixel`: writes the colour at (x, y) when it lies on the canvas,
      and leaves the frame untouched otherwise. */
  method SetPixel(frame: array<Byte>, width: nat, height: nat, x: nat, y: nat, c: Rgba)
    requires CanvasBytes(width, height) <= frame.Length
    modifies frame
    ensures frame[..] == SetPixelSpec(old(frame[..]), width, height, x, y, c)
  {
    if x >= width || y >= height {
      return;
    }
    var index := (y * width + x) * 4;
    if index + 3 >= width * height * 4 {
      return;
    }
    StorePixel(frame, index, c);
  }

  // ---------------------------------------------------------------------------
  // Bresenham's line algorithm

  datatype Point = Point(x: int, y: int)

  /** The endpoints of one drawLine call. */
  datatype Segment = Segment(x0: int, y0: int, x1: int, y1: int)

  predicate InCanvas(p: Point, width: nat, height: nat)
  {
    0 <= p.x < width && 0 <= p.y < height
  }

  predicate EndpointsInCanvas(l: Segment, width: nat, height: nat)
  {
    InCanvas(Point(l.x0, l.y0), width, height) && InCanvas(Point(l.x1, l.y1), width, height)
  }

  /** `dx = abs(x1 - x0)`; the source's `dy` is the negation of DY. */
  function DX(l: Segment): nat { Abs(l.x1 - l.x0) }
  function DY(l: Segment): nat { Abs(l.y1 - l.y0) }
  function SX(l: Segment): int { if l.x0 < l.x1 then 1 else -1 }
  function SY(l: Segment): int { if l.y0 < l.y1 then 1 else -1 }

  predicate Between(a: int, v: int, b: int)
  {
    a <= v <= b || b <= v <= a
  }

  /** The clamp applied after each step: `if (v < 0) v = 0; if (v >= size) v = size - 1;`. */
  function ClampCoordinate(v: int, size: nat): int
  {
    var low := if v < 0 then 0 else v;
    if low >= size then size - 1 else low
  }

  /** The error term after i steps in x and j steps in y, from `err = dx + dy`. */
  function ErrorAt(dx: int, dY: int, i: int, j: int): int
  {
    dx - dY - i * dY + j * dx
  }

  /** The loop invariant of drawLine: (x, y) lies in the box spanned by the endpoints,
      and err is its initial value `dx + dy` plus `dy` per x step taken and `dx` per y step. */
  predicate LineInv(l: Segment, x: int, y: int, err: int)
  {
    Between(l.x0, x, l.x1) && Between(l.y0, y, l.y1) &&
    err == ErrorAt(DX(l), DY(l), Abs(x - l.x0), Abs(y - l.y0))
  }

  /** Distance still to go; it bounds the number of remaining iterations. */
  function Remaining(l: Segment, x: int, y: int): nat
  {
    Abs(l.x1 - x) + Abs(l.y1 - y)
  }

  /** One iteration of drawLine after the pixel write: the error update, the x step
      and the y step, each followed by its clamp, exactly as the loop body does them. */
  function Step(l: Segment, width: nat, height: nat, x: int, y: int, err: int): (int, int, int)
  {
    var dx: int := DX(l);
    var dy: int := -(DY(l) as int);
    var e2 := 2 * err;
    var errX := if e2 >= dy then err + dy else err;
    var nx := if e2 >= dy then ClampCoordinate(x + SX(l), width) else x;
    var errY := if e2 <= dx then errX + dx else errX;
    var ny := if e2 <= dx then ClampCoordinate(y + SY(l), height) else y;
    (nx, ny, errY)
  }

  /** Once x has arrived and y has not, `2 * err < dy`: the x step is not taken. */
  lemma ErrorBelowAtX(dx: int, dY: int, j: int)
    requires 0 <= dx && 0 <= j < dY
    ensures 2 * ErrorAt(dx, dY, dx, j) < -dY
  {
    MulMonotone(j + 1, dY, dx);
    assert ErrorAt(dx, dY, dx, j) == (j + 1) * dx - dY - dY * dx;
  }

  /** Once y has arrived and x has not, `2 * err > dx`: the y step is not taken. */
  lemma ErrorAboveAtY(dx: int, dY: int, i: int)
    requires 0 <= dY && 0 <= i < dx
    ensures 2 * ErrorAt(dx, dY, i, dY) > dx
  {
    MulMonotone(i + 1, dx, dY);
    assert ErrorAt(dx, dY, i, dY) == dx + dx * dY - (i + 1) * dY;
  }

  lemma ErrorSteps(dx: int, dY: int, i: int, j: int)
    ensures ErrorAt(dx, dY, i + 1, j) == ErrorAt(dx, dY, i, j) - dY
    ensures ErrorAt(dx, dY, i, j + 1) == ErrorAt(dx, dY, i, j) + dx
  {
    assert (i + 1) * dY == i * dY + dY;
    assert (j + 1) * dx == j * dx + dx;
  }

  /** With both endpoints on the canvas, one step keeps the invariant and moves strictly
      closer to (x1, y1): x never overshoots x1, y never overshoots y1, and at least one
      of them moves. The clamps never change the stepped coordinate. */
  lemma {:induction false} StepProgress(l: Segment, width: nat, height: nat, x: int, y: int, err: int)
    requires EndpointsInCanvas(l, width, height)
    requires LineInv(l, x, y, err)
    requires !(x == l.x1 && y == l.y1)
    ensures LineInv(l, Step(l, width, height, x, y, err).0, Step(l, width, height, x, y, err).1,
                    Step(l, width, height, x, y, err).2)
    ensures Remaining(l, Step(l, width, height, x, y, err).0, Step(l, width, height, x, y, err).1)
            < Remaining(l, x, y)
    ensures Abs(Step(l, width, height, x, y, err).0 - x) <= 1
    ensures Abs(Step(l, width, height, x, y, err).1 - y) <= 1
  {
    var dx: int, dY: int := DX(l), DY(l);
    var i: int, j: int := Abs(x - l.x0), Abs(y - l.y0);
    var stepX := 2 * err >= -dY;
    var stepY := 2 * err <= dx;
    StepGuards(l, x, y, err);
    var n := Step(l, width, height, x, y, err);
    assert n.0 == if stepX then ClampCoordinate(x + SX(l), width) else x;
    assert n.1 == if stepY then ClampCoordinate(y + SY(l), height) else y;
    assert n.2 == err - (if stepX then dY else 0) + (if stepY then dx else 0);
    AxisMove(l.x0, x, l.x1, width, stepX, n.0);
    AxisMove(l.y0, y, l.y1, height, stepY, n.1);
    StepError(dx, dY, i, j, err, stepX, stepY, n.2);
    assert Abs(n.0 - l.x0) == (if stepX then i + 1 else i);
    assert Abs(n.1 - l.y0) == (if stepY then j + 1 else j);
    assert LineInv(l, n.0, n.1, n.2);
  }

  /** At least one of the two steps is taken, and neither moves a coordinate that has
      already reached its endpoint. */
  lemma StepGuards(l: Segment, x: int, y: int, err: int)
    requires LineInv(l, x, y, err)
    requires !(x == l.x1 && y == l.y1)
    ensures var stepX, stepY := 2 * err >= -(DY(l) as int), 2 * err <= DX(l);
            (stepX || stepY) && (stepX ==> x != l.x1) && (stepY ==> y != l.y1)
  {
    var i: int, j: int := Abs(x - l.x0), Abs(y - l.y0);
    if x == l.x1 {
      ErrorBelowAtX(DX(l), DY(l), j);
    }
    if y == l.y1 {
      ErrorAboveAtY(DX(l), DY(l), i);
    }
  }

  /** The error update of one step: dy per x step taken and dx per y step. */
  lemma StepError(dx: int, dY: int, i: int, j: int, err: int, stepX: bool, stepY: bool, err': int)
    requires err == ErrorAt(dx, dY, i, j)
    requires err' == err - (if stepX then dY else 0) + (if stepY then dx else 0)
    ensures err' == ErrorAt(dx, dY, if stepX then i + 1 else i, if stepY then j + 1 else j)
  {
    ErrorSteps(dx, dY, i, j);
    ErrorSteps(dx, dY, i + 1, j);
  }

  /** One axis of a step: the coordinate moves one unit toward the target when the step
      is taken, the clamp leaving it alone, and stays put otherwise. */
  lemma AxisMove(a0: int, v: int, a1: int, size: nat, step: bool, w: int)
    requires 0 <= a0 < size && 0 <= a1 < size
    requires Between(a0, v, a1) && (step ==> v != a1)
    requires w == if step then ClampCoordinate(v + (if a0 < a1 then 1 else -1), size) else v
    ensures Between(a0, w, a1) && Abs(w - v) <= 1
    ensures Abs(w - a0) == Abs(v - a0) + (if step then 1 else 0)
    ensures Abs(a1 - w) + (if step then 1 else 0) == Abs(a1 - v)
  {
  }

  /** The points drawLine visits from state (x, y, err) on, in order; the last one
      is the point at which the loop breaks. */
  function LinePath(l: Segment, width: nat, height: nat, x: int, y: int, err: int): seq<Point>
    requires EndpointsInCanvas(l, width, height)
    requires LineInv(l, x, y, err)
    decreases Remaining(l, x, y)
  {
    if x == l.x1 && y == l.y1 then [Point(x, y)]
    else
      StepProgress(l, width, height, x, y, err);
      var s := Step(l, width, height, x, y, err);
      [Point(x, y)] + LinePath(l, width, height, s.0, s.1, s.2)
  }

  /** The points one drawLine call visits, from its initial state `err = dx + dy`. */
  function Line(l: Segment, width: nat, height: nat): (p: seq<Point>)
    requires EndpointsInCanvas(l, width, height)
    ensures forall q :: q in p ==> InCanvas(q, width, height)
  {
    LinePathInBox(l, width, height, l.x0, l.y0, DX(l) - DY(l));
    LinePath(l, width, height, l.x0, l.y0, DX(l) - DY(l))
  }

  /** The loop stops right after visiting (x1, y1), never before, and visits at most
      |x1 - x| + |y1 - y| + 1 points. */
  lemma {:induction false} LinePathEnds(l: Segment, width: nat, height: nat, x: int, y: int, err: int)
    requires EndpointsInCanvas(l, width, height)
    requires LineInv(l, x, y, err)
    ensures var p := LinePath(l, width, height, x, y, err);
            p[0] == Point(x, y) && p[|p| - 1] == Point(l.x1, l.y1) &&
            |p| <= Remaining(l, x, y) + 1 &&
            forall k :: 0 <= k < |p| - 1 ==> p[k] != Point(l.x1, l.y1)
    decreases Remaining(l, x, y)
  {
    if !(x == l.x1 && y == l.y1) {
      StepProgress(l, width, height, x, y, err);
      var s := Step(l, width, height, x, y, err);
      LinePathEnds(l, width, height, s.0, s.1, s.2);
      var rest := LinePath(l, width, height, s.0, s.1, s.2);
      assert LinePath(l, width, height, x, y, err) == [Point(x, y)] + rest;
    }
  }

  /** Every visited point lies in the box spanned by the endpoints, hence on the canvas. */
  lemma {:induction false} LinePathInBox(l: Segment, width: nat, height: nat, x: int, y: int, err: int)
    requires EndpointsInCanvas(l, width, height)
    requires LineInv(l, x, y, err)
    ensures forall p :: p in LinePath(l, width, height, x, y, err) ==>
              Between(l.x0, p.x, l.x1) && Between(l.y0, p.y, l.y1) && InCanvas(p, width, height)
    decreases Remaining(l, x, y)
  {
    if !(x == l.x1 && y == l.y1) {
      StepProgress(l, width, height, x, y, err);
      var s := Step(l, width, height, x, y, err);
      LinePathInBox(l, width, height, s.0, s.1, s.2);
    }
  }

  /** q is one of the eight neighbours of p. */
  predicate Adjacent(p: Point, q: Point)
  {
    p != q && Abs(q.x - p.x) <= 1 && Abs(q.y - p.y) <= 1
  }

  /** Consecutive visited points are 8-neighbours: the line has no gaps and no repeats
      of the same pixel in a row. */
  lemma {:induction false} LinePathConnected(l: Segment, width: nat, height: nat, x: int, y: int, err: int)
    requires EndpointsInCanvas(l, width, height)
    requires LineInv(l, x, y, err)
    ensures var p := LinePath(l, width, height, x, y, err);
            forall k :: 0 <= k < |p| - 1 ==> Adjacent(p[k], p[k + 1])
    decreases Remaining(l, x, y)
  {
    if !(x == l.x1 && y == l.y1) {
      StepAdjacent(l, width, height, x, y, err);
      var s := Step(l, width, height, x, y, err);
      LinePathConnected(l, width, height, s.0, s.1, s.2);
      LinePathHead(l, width, height, s.0, s.1, s.2);
      var rest := LinePath(l, width, height, s.0, s.1, s.2);
      var p := LinePath(l, width, height, x, y, err);
      assert p == [Point(x, y)] + rest;
      forall k | 0 <= k < |p| - 1
        ensures Adjacent(p[k], p[k + 1])
      {
        if k > 0 {
          assert p[k] == rest[k - 1] && p[k + 1] == rest[k];
        }
      }
    }
  }

  /** A path is never empty and starts where the loop stands. */
  lemma LinePathHead(l: Segment, width: nat, height: nat, x: int, y: int, err: int)
    requires EndpointsInCanvas(l, width, height)
    requires LineInv(l, x, y, err)
    ensures |LinePath(l, width, height, x, y, err)| >= 1
    ensures LinePath(l, width, height, x, y, err)[0] == Point(x, y)
  {
  }

  /** One step moves to one of the eight neighbours. */
  lemma StepAdjacent(l: Segment, width: nat, height: nat, x: int, y: int, err: int)
    requires EndpointsInCanvas(l, width, height)
    requires LineInv(l, x, y, err)
    requires !(x == l.x1 && y == l.y1)
    ensures LineInv(l, Step(l, width, height, x, y, err).0, Step(l, width, height, x, y, err).1,
                    Step(l, width, height, x, y, err).2)
    ensures Adjacent(Point(x, y), Point(Step(l, width, height, x, y, err).0, Step(l, width, height, x, y, err).1))
  {
    StepProgress(l, width, height, x, y, err);
  }

  /** Summary for a whole drawLine call from its initial state. */
  lemma LineFacts(l: Segment, width: nat, height: nat)
    requires EndpointsInCanvas(l, width, height)
    ensures var p := Line(l, width, height);
            |p| >= 1 && p[0] == Point(l.x0, l.y0) && p[|p| - 1] == Point(l.x1, l.y1) &&
            |p| <= DX(l) + DY(l) + 1 &&
            (forall q :: q in p ==> InCanvas(q, width, height)) &&
            (forall k :: 0 <= k < |p| - 1 ==> Adjacent(p[k], p[k + 1]))
  {
    LinePathConnected(l, width, height, l.x0, l.y0, DX(l) - DY(l));
    LinePathEnds(l, width, height, l.x0, l.y0, DX(l) - DY(l));
    LinePathInBox(l, width, height, l.x0, l.y0, DX(l) - DY(l));
  }

  /** drawLine's unguarded write of one pixel at `y * pitch + x * 4`. */
  function PaintPixel(s: seq<Byte>, width: nat, height: nat, p: Point, c: Rgba): (r: seq<Byte>)
    requires CanvasBytes(width, height) <= |s|
    requires InCanvas(p, width, height)
    ensures |r| == |s|
  {
    SecondGuardNeverFires(width, height, p.x, p.y);
    WritePixel(s, p.y * (width * 4) + p.x * 4, c)
  }

  /** The canvas after painting every point of a path, first to last. */
  function PaintPath(s: seq<Byte>, width: nat, height: nat, path: seq<Point>, c: Rgba): (r: seq<Byte>)
    requires CanvasBytes(width, height) <= |s|
    requires forall q :: q in path ==> InCanvas(q, width, height)
    ensures |r| == |s|
    decreases |path|
  {
    if path == [] then s
    else PaintPath(PaintPixel(s, width, height, path[0], c), width, height, path[1..], c)
  }

  /** Covers(q, k): byte k belongs to the 4-byte group of pixel q. */
  predicate Covers(width: nat, q: Point, k: int)
  {
    q.x >= 0 && q.y >= 0 && PixelOffset(width, q.x, q.y) <= k < PixelOffset(width, q.x, q.y) + 4
  }

  /** Painting a path leaves every byte outside the pixels on it unchanged. */
  lemma {:induction false} PaintPathUnchanged(s: seq<Byte>, width: nat, height: nat, path: seq<Point>, c: Rgba, k: nat)
    requires CanvasBytes(width, height) <= |s|
    requires forall q :: q in path ==> InCanvas(q, width, height)
    requires k < |s|
    requires forall q :: q in path ==> !Covers(width, q, k)
    ensures PaintPath(s, width, height, path, c)[k] == s[k]
    decreases |path|
  {
    if path != [] {
      var p := path[0];
      assert p in path;
      PitchOffset(width, p.x, p.y);
      assert forall q :: q in path[1..] ==> q in path;
      PaintPathUnchanged(PaintPixel(s, width, height, p, c), width, height, path[1..], c, k);
    }
  }

  /** Painting a path leaves each byte of a pixel on it holding the colour's channel. */
  lemma {:induction false} PaintPathWritten(s: seq<Byte>, width: nat, height: nat, path: seq<Point>, c: Rgba, k: nat, q: Point)
    requires CanvasBytes(width, height) <= |s|
    requires forall q :: q in path ==> InCanvas(q, width, height)
    requires k < |s|
    requires q in path && Covers(width, q, k)
    ensures PaintPath(s, width, height, path, c)[k] == Channel(c, k - PixelOffset(width, q.x, q.y))
    decreases |path|
  {
    var p := path[0];
    assert p in path;
    var s' := PaintPixel(s, width, height, p, c);
    PitchOffset(width, p.x, p.y);
    assert forall q :: q in path[1..] ==> q in path;
    if q in path[1..] {
      PaintPathWritten(s', width, height, path[1..], c, k, q);
    } else if r :| r in path[1..] && Covers(width, r, k) {
      PaintPathWritten(s', width, height, path[1..], c, k, r);
      PixelGroupUnique(width, height, q, r, k);
    } else {
      assert q == p;
      PaintPathUnchanged(s', width, height, path[1..], c, k);
    }
  }

  /** Distinct pixels of a canvas occupy disjoint byte groups; within a group,
      byte k is channel k - offset. */
  lemma PixelGroupUnique(width: nat, height: nat, p: Point, q: Point, k: int)
    requires InCanvas(p, width, height) && InCanvas(q, width, height)
    requires Covers(width, p, k) && Covers(width, q, k)
    ensures PixelOffset(width, p.x, p.y) == PixelOffset(width, q.x, q.y)
  {
    var a, b := p.y * width + p.x, q.y * width + q.x;
    assert a * 4 <= k < a * 4 + 4 && b * 4 <= k < b * 4 + 4;
    assert a == b;
  }

  /** One loop iteration in terms of the path: painting the current pixel and then the
      path from the next state is painting the path from the current state. */
  lemma PaintAlongStep(s: seq<Byte>, l: Segment, width: nat, height: nat, x: int, y: int, err: int, c: Rgba)
    requires CanvasBytes(width, height) <= |s|
    requires EndpointsInCanvas(l, width, height)
    requires LineInv(l, x, y, err)
    requires !(x == l.x1 && y == l.y1)
    ensures var n := Step(l, width, height, x, y, err);
            LineInv(l, n.0, n.1, n.2) && Remaining(l, n.0, n.1) < Remaining(l, x, y) &&
            (forall q :: q in LinePath(l, width, height, n.0, n.1, n.2) ==> InCanvas(q, width, height)) &&
            PaintPath(PaintPixel(s, width, height, Point(x, y), c), width, height, LinePath(l, width, height, n.0, n.1, n.2), c)
            == PaintPath(s, width, height, LinePath(l, width, height, x, y, err), c)
  {
    StepProgress(l, width, height, x, y, err);
    LinePathInBox(l, width, height, x, y, err);
    var n := Step(l, width, height, x, y, err);
    LinePathInBox(l, width, height, n.0, n.1, n.2);
    var path := LinePath(l, width, height, x, y, err);
    assert path == [Point(x, y)] + LinePath(l, width, height, n.0, n.1, n.2);
    assert path[1..] == LinePath(l, width, height, n.0, n.1, n.2);
  }

  /** The last iteration: the path from (x1, y1) is that single pixel. */
  lemma PaintAtEnd(s: seq<Byte>, l: Segment, width: nat, height: nat, err: int, c: Rgba)
    requires CanvasBytes(width, height) <= |s|
    requires EndpointsInCanvas(l, width, height)
    requires LineInv(l, l.x1, l.y1, err)
    ensures PaintPath(s, width, height, LinePath(l, width, height, l.x1, l.y1, err), c)
            == PaintPixel(s, width, height, Point(l.x1, l.y1), c)
  {
    var path := LinePath(l, width, height, l.x1, l.y1, err);
    assert path == [Point(l.x1, l.y1)];
    assert path[1..] == [];
  }

  /** `drawLine`: the `while (1)` loop writes the pixel at (x, y), breaks at (x1, y1), and
      otherwise advances by Step. With both endpoints on the canvas the loop terminates and
      the canvas afterwards is the old one with every visited pixel painted in the colour. */
  method DrawLine(screen: array<Byte>, width: nat, height: nat, x0: int, y0: int, x1: int, y1: int, c: Rgba)
    requires CanvasBytes(width, height) <= screen.Length
    requires EndpointsInCanvas(Segment(x0, y0, x1, y1), width, height)
    modifies screen
    ensures screen[..] == PaintPath(old(screen[..]), width, height, Line(Segment(x0, y0, x1, y1), width, height), c)
  {
    var l := Segment(x0, y0, x1, y1);
    // err = dx + dy, with the source's dy = -|y1 - y0|
    var err := DX(l) - DY(l);
    var pitch := width * 4;
    var x, y := x0, y0;
    ghost var rest := Line(l, width, height);
    while true
      invariant LineInv(l, x, y, err)
      invariant rest == LinePath(l, width, height, x, y, err)
      invariant forall q :: q in rest ==> InCanvas(q, width, height)
      invariant PaintPath(screen[..], width, height, rest, c)
                == PaintPath(old(screen[..]), width, height, Line(l, width, height), c)
      decreases Remaining(l, x, y)
    {
      ghost var before := screen[..];
      SecondGuardNeverFires(width, height, x, y);
      PitchOffset(width, x, y);
      var index := y * pitch + x * 4;
      assert index == y * (width * 4) + x * 4;
      StorePixel(screen, index, c);
      assert screen[..] == PaintPixel(before, width, height, Point(x, y), c);
      if x == x1 && y == y1 {
        PaintAtEnd(before, l, width, height, err, c);
        break;
      }
      PaintAlongStep(before, l, width, height, x, y, err, c);
      // the error update and the two clamped steps of the loop body
      var n := Step(l, width, height, x, y, err);
      x, y, err := n.0, n.1, n.2;
      rest := LinePath(l, width, height, x, y, err);
    }
  }
}
