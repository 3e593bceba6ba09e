/** The frame transforms of the visualizer (Milky/Visualizer/video/transform.c):
    `rotate`, which turns the canvas towards a slowly changing target angle and blends
    the turned image back with weight 0.7, and `scale`, which zooms the canvas about
    its centre. Both resample through a temporary canvas: it is cleared, each
    destination pixel copies the pixel its inverse map lands on when that lies on the
    canvas, and the rest stay transparent black.

    Floats are modelled as reals; sin and cos are parameters; rand() is a parameter. */
module Transform {
  import opened Numeric
  import opened Draw

  // ---------------------------------------------------------------------------
  // Byte offsets and the pixels they belong to

  /** Byte c of pixel (x, y): the index `(y * width + x) * 4 + c` the loops write. */
  function ByteAt(width: nat, height: nat, x: nat, y: nat, c: nat): (k: nat)
    requires x < width && y < height && c < 4
    ensures k == PixelOffset(width, x, y) + c
    ensures k < CanvasBytes(width, height)
  {
    SecondGuardNeverFires(width, height, x, y);
    PixelOffset(width, x, y) + c
  }

  /** The column and the row of the pixel a byte offset falls in. */
  function PixelX(width: nat, k: nat): nat
    requires width > 0
  {
    (k / 4) % width
  }

  function PixelY(width: nat, k: nat): nat
    requires width > 0
  {
    (k / 4) / width
  }

  lemma CanvasHasWidth(width: nat, height: nat, k: nat)
    requires k < CanvasBytes(width, height)
    ensures width > 0 && height > 0
  {
  }

  /** Byte c of pixel (x, y) lies in column x and row y. */
  lemma {:induction false} OffsetDecompose(width: nat, height: nat, x: nat, y: nat, c: nat)
    requires x < width && y < height && c < 4
    ensures PixelX(width, ByteAt(width, height, x, y, c)) == x
    ensures PixelY(width, ByteAt(width, height, x, y, c)) == y
    ensures ByteAt(width, height, x, y, c) % 4 == c
  {
    var k := ByteAt(width, height, x, y, c);
    DivModUnique(k, 4, y * width + x, c);
    DivModUnique(y * width + x, width, y, x);
  }

  /** Every byte of the canvas is byte `k % 4` of some pixel on the canvas. */
  lemma {:induction false} EveryByteIsAPixel(width: nat, height: nat, k: nat)
    requires k < CanvasBytes(width, height)
    ensures width > 0
    ensures PixelX(width, k) < width && PixelY(width, k) < height
    ensures k == ByteAt(width, height, PixelX(width, k), PixelY(width, k), k % 4)
  {
    CanvasHasWidth(width, height, k);
    var p := k / 4;
    assert p < width * height;
    var y := p / width;
    assert p == y * width + PixelX(width, k);
  }

  // ---------------------------------------------------------------------------
  // The inverse maps

  /** Where a destination pixel of `rotate` or `scale` takes its colour from. */
  datatype InverseMap =
    | Rotation(sinTheta: real, cosTheta: real)
    | Scaling(factor: real)

  predicate ValidMap(m: InverseMap)
  {
    m.Scaling? ==> m.factor != 0.0
  }

  /** rotate: `(int)(cos * xt - sin * yt + cx)`, `(int)(sin * xt + cos * yt + cy)` with
      `xt = x - cx`, `yt = y - cy` and the centre `(width * 0.5, height * 0.5)`.
      scale: `(int)roundf((x - centerX) / factor + centerX)` and likewise for y. */
  function SourceOf(m: InverseMap, width: nat, height: nat, x: nat, y: nat): Point
    requires ValidMap(m)
  {
    var cx := width as real * 0.5;
    var cy := height as real * 0.5;
    var xt := x as real - cx;
    var yt := y as real - cy;
    match m
    case Rotation(s, c) =>
      Point(Trunc(c * xt - s * yt + cx), Trunc(s * xt + c * yt + cy))
    case Scaling(f) =>
      Point(RoundF(xt / f + cx), RoundF(yt / f + cy))
  }

  /** Byte k of the temporary canvas once the copy loops are done. */
  function ResampledByte(s: seq<Byte>, width: nat, height: nat, m: InverseMap, k: nat): Byte
    requires ValidMap(m) && CanvasBytes(width, height) <= |s| && k < CanvasBytes(width, height)
  {
    EveryByteIsAPixel(width, height, k);
    var p := SourceOf(m, width, height, PixelX(width, k), PixelY(width, k));
    if InCanvas(p, width, height) then s[ByteAt(width, height, p.x, p.y, k % 4)] else 0
  }

  /** The first width * height * 4 bytes of the temporary canvas after rotate's or
      scale's clear-and-copy stage applied to canvas s. */
  function Resampled(s: seq<Byte>, width: nat, height: nat, m: InverseMap): (r: seq<Byte>)
    requires ValidMap(m) && CanvasBytes(width, height) <= |s|
    ensures |r| == CanvasBytes(width, height)
  {
    seq(CanvasBytes(width, height),
        k requires 0 <= k < CanvasBytes(width, height) => ResampledByte(s, width, height, m, k))
  }

  /** Each byte of the resampled pixel (x, y) is the same byte of the source pixel its
      inverse map names when that pixel is on the canvas, and 0 otherwise. */
  lemma ResampledPixel(s: seq<Byte>, width: nat, height: nat, m: InverseMap, x: nat, y: nat, c: nat)
    requires ValidMap(m) && CanvasBytes(width, height) <= |s|
    requires x < width && y < height && c < 4
    ensures var p := SourceOf(m, width, height, x, y);
            Resampled(s, width, height, m)[ByteAt(width, height, x, y, c)]
            == if InCanvas(p, width, height) then s[ByteAt(width, height, p.x, p.y, c)] else 0
  {
    OffsetDecompose(width, height, x, y, c);
  }

  /** A map that sends every pixel to itself reproduces the canvas exactly. */
  lemma IdentityResample(s: seq<Byte>, width: nat, height: nat, m: InverseMap)
    requires ValidMap(m) && CanvasBytes(width, height) <= |s|
    requires forall x: nat, y: nat :: x < width && y < height ==> SourceOf(m, width, height, x, y) == Point(x, y)
    ensures Resampled(s, width, height, m) == s[..CanvasBytes(width, height)]
  {
    var r := Resampled(s, width, height, m);
    forall k | 0 <= k < CanvasBytes(width, height)
      ensures r[k] == s[k]
    {
      EveryByteIsAPixel(width, height, k);
      var x, y := PixelX(width, k), PixelY(width, k);
      assert SourceOf(m, width, height, x, y) == Point(x, y);
    }
  }

  lemma RoundOfInteger(v: int)
    ensures RoundF(v as real) == v
  {
  }

  /** scale with factor 1 leaves the canvas as it was. */
  lemma ScaleByOneIsIdentity(s: seq<Byte>, width: nat, height: nat)
    requires CanvasBytes(width, height) <= |s|
    ensures Resampled(s, width, height, Scaling(1.0)) == s[..CanvasBytes(width, height)]
  {
    forall x: nat, y: nat | x < width && y < height
      ensures SourceOf(Scaling(1.0), width, height, x, y) == Point(x, y)
    {
      RoundOfInteger(x);
      RoundOfInteger(y);
    }
    IdentityResample(s, width, height, Scaling(1.0));
  }

  /** Rotating by an angle whose sine is 0 and cosine is 1 leaves the canvas as it was. */
  lemma RotateByZeroIsIdentity(s: seq<Byte>, width: nat, height: nat)
    requires CanvasBytes(width, height) <= |s|
    ensures Resampled(s, width, height, Rotation(0.0, 1.0)) == s[..CanvasBytes(width, height)]
  {
    forall x: nat, y: nat | x < width && y < height
      ensures SourceOf(Rotation(0.0, 1.0), width, height, x, y) == Point(x, y)
    {
      var cx := width as real * 0.5;
      var cy := height as real * 0.5;
      assert 1.0 * (x as real - cx) - 0.0 * (y as real - cy) + cx == x as real;
      assert 0.0 * (x as real - cx) + 1.0 * (y as real - cy) + cy == y as real;
    }
    IdentityResample(s, width, height, Rotation(0.0, 1.0));
  }

  // ---------------------------------------------------------------------------
  // The clear-and-copy stage

  /** Copies one pixel of frame to one pixel of temp (rotate's four-byte memcpy,
      scale's four byte assignments). */
  method CopyPixel(temp: array<Byte>, frame: array<Byte>, dstIndex: nat, srcIndex: nat)
    requires temp != frame && dstIndex + 3 < temp.Length && srcIndex + 3 < frame.Length
    modifies temp
    ensures temp[..] == WritePixel(old(temp[..]), dstIndex,
                                   Rgba(frame[srcIndex], frame[srcIndex + 1], frame[srcIndex + 2], frame[srcIndex + 3]))
  {
    StorePixel(temp, dstIndex, Rgba(frame[srcIndex], frame[srcIndex + 1], frame[srcIndex + 2], frame[srcIndex + 3]));
  }

  /** The bytes of t below d hold the resampled canvas s and the rest of its first
      width * height * 4 bytes are still 0. */
  ghost predicate FilledUpTo(t: seq<Byte>, s: seq<Byte>, width: nat, height: nat, m: InverseMap, d: nat)
    requires ValidMap(m) && CanvasBytes(width, height) <= |s| && CanvasBytes(width, height) <= |t|
  {
    forall k :: 0 <= k < CanvasBytes(width, height) ==>
      t[k] == if k < d then ResampledByte(s, width, height, m, k) else 0
  }

  /** t with destination pixel (x, y) copied from its source pixel in s, when that
      lies on the canvas. */
  function WithResampledPixel(t: seq<Byte>, s: seq<Byte>, width: nat, height: nat, m: InverseMap, x: nat, y: nat)
    : (r: seq<Byte>)
    requires ValidMap(m) && x < width && y < height
    requires CanvasBytes(width, height) <= |s| && CanvasBytes(width, height) <= |t|
    ensures |r| == |t| && r[CanvasBytes(width, height)..] == t[CanvasBytes(width, height)..]
  {
    var p := SourceOf(m, width, height, x, y);
    if InCanvas(p, width, height) then
      assert ByteAt(width, height, x, y, 3) < CanvasBytes(width, height);
      WritePixelKeepsTail(t, ByteAt(width, height, x, y, 0), CanvasBytes(width, height),
                          Rgba(s[ByteAt(width, height, p.x, p.y, 0)], s[ByteAt(width, height, p.x, p.y, 1)],
                               s[ByteAt(width, height, p.x, p.y, 2)], s[ByteAt(width, height, p.x, p.y, 3)]));
      WritePixel(t, ByteAt(width, height, x, y, 0),
                 Rgba(s[ByteAt(width, height, p.x, p.y, 0)], s[ByteAt(width, height, p.x, p.y, 1)],
                      s[ByteAt(width, height, p.x, p.y, 2)], s[ByteAt(width, height, p.x, p.y, 3)]))
    else t
  }

  lemma WritePixelKeepsTail(t: seq<Byte>, index: nat, n: nat, c: Rgba)
    requires index + 3 < n <= |t|
    ensures WritePixel(t, index, c)[n..] == t[n..]
  {
  }

  /** Writing the resampled pixel (x, y) extends the filled prefix by one pixel. */
  lemma FillStep(t: seq<Byte>, s: seq<Byte>, width: nat, height: nat, m: InverseMap, x: nat, y: nat)
    requires ValidMap(m) && x < width && y < height
    requires CanvasBytes(width, height) <= |s| && CanvasBytes(width, height) <= |t|
    requires FilledUpTo(t, s, width, height, m, PixelOffset(width, x, y))
    ensures FilledUpTo(WithResampledPixel(t, s, width, height, m, x, y), s, width, height, m,
                       PixelOffset(width, x, y) + 4)
  {
    var d := PixelOffset(width, x, y);
    var t' := WithResampledPixel(t, s, width, height, m, x, y);
    forall k | 0 <= k < CanvasBytes(width, height)
      ensures t'[k] == if k < d + 4 then ResampledByte(s, width, height, m, k) else 0
    {
      if d <= k < d + 4 {
        OffsetDecompose(width, height, x, y, k - d);
      }
    }
  }

  /** One iteration of the inner loop: destination pixel (x, y). */
  method ResamplePixel(frame: array<Byte>, temp: array<Byte>, width: nat, height: nat, m: InverseMap, x: nat, y: nat)
    requires frame != temp && ValidMap(m) && x < width && y < height
    requires CanvasBytes(width, height) <= frame.Length && CanvasBytes(width, height) <= temp.Length
    requires FilledUpTo(temp[..], frame[..], width, height, m, PixelOffset(width, x, y))
    modifies temp
    ensures FilledUpTo(temp[..], frame[..], width, height, m, PixelOffset(width, x, y) + 4)
    ensures temp[CanvasBytes(width, height)..] == old(temp[CanvasBytes(width, height)..])
  {
    var p := SourceOf(m, width, height, x, y);
    var dstIndex := (y * width + x) * 4;
    assert dstIndex == ByteAt(width, height, x, y, 0);
    assert dstIndex + 3 == ByteAt(width, height, x, y, 3);
    if p.x >= 0 && p.x < width && p.y >= 0 && p.y < height {
      var srcIndex := (p.y * width + p.x) * 4;
      assert srcIndex == ByteAt(width, height, p.x, p.y, 0);
      assert srcIndex + 3 == ByteAt(width, height, p.x, p.y, 3);
      CopyPixel(temp, frame, dstIndex, srcIndex);
    }
    assert temp[..] == WithResampledPixel(old(temp[..]), frame[..], width, height, m, x, y);
    FillStep(old(temp[..]), frame[..], width, height, m, x, y);
  }

  /** The inner loop of resample: row y of the destination, left to right. */
  method ResampleRow(frame: array<Byte>, temp: array<Byte>, width: nat, height: nat, m: InverseMap, y: nat)
    requires frame != temp && ValidMap(m) && y < height
    requires CanvasBytes(width, height) <= frame.Length && CanvasBytes(width, height) <= temp.Length
    requires FilledUpTo(temp[..], frame[..], width, height, m, PixelOffset(width, 0, y))
    modifies temp
    ensures FilledUpTo(temp[..], frame[..], width, height, m, PixelOffset(width, 0, y + 1))
    ensures temp[CanvasBytes(width, height)..] == old(temp[CanvasBytes(width, height)..])
  {
    ghost var n := CanvasBytes(width, height);
    for x := 0 to width
      invariant FilledUpTo(temp[..], frame[..], width, height, m, PixelOffset(width, x, y))
      invariant temp[n..] == old(temp[n..])
    {
      ResamplePixel(frame, temp, width, height, m, x, y);
      assert PixelOffset(width, x, y) + 4 == PixelOffset(width, x + 1, y);
    }
    assert PixelOffset(width, width, y) == PixelOffset(width, 0, y + 1);
  }

  /** memset of temp, then the loop over the destination rows. */
  method Resample(frame: array<Byte>, temp: array<Byte>, width: nat, height: nat, m: InverseMap)
    requires frame != temp && ValidMap(m)
    requires CanvasBytes(width, height) <= frame.Length && CanvasBytes(width, height) <= temp.Length
    modifies temp
    ensures temp[..CanvasBytes(width, height)] == Resampled(frame[..], width, height, m)
    ensures temp[CanvasBytes(width, height)..] == old(temp[CanvasBytes(width, height)..])
  {
    var n := width * height * 4;
    ClearFrame(temp, n);
    for y := 0 to height
      invariant FilledUpTo(temp[..], frame[..], width, height, m, PixelOffset(width, 0, y))
      invariant temp[n..] == old(temp[n..])
    {
      ResampleRow(frame, temp, width, height, m, y);
    }
    assert PixelOffset(width, 0, height) == n;
    assert temp[..n] == Resampled(frame[..], width, height, m);
  }

  // ---------------------------------------------------------------------------
  // Blending

  /** rotate's blend weight of the turned image. */
  const BlendAlpha: real := 0.7

  /** `(uint8_t)(f * (1 - alpha) + t * alpha)`. */
  function Blend(f: Byte, t: Byte): Byte
  {
    FloatToUint8(f as real * (1.0 - BlendAlpha) + t as real * BlendAlpha)
  }

  /** A blended byte lies between the two bytes it mixes. */
  lemma BlendBetween(f: Byte, t: Byte)
    ensures Min(f, t) <= Blend(f, t) <= Max(f, t)
  {
    var v := f as real * 0.3 + t as real * 0.7;
    assert Min(f, t) as real <= v <= Max(f, t) as real;
  }

  /** Blending a byte with itself gives it back. */
  lemma BlendSame(v: Byte)
    ensures Blend(v, v) == v
  {
    assert v as real * (1.0 - BlendAlpha) + v as real * BlendAlpha == v as real;
  }

  /** The frame after the blend loop, over the bytes both canvases have. */
  function Blended(f: seq<Byte>, t: seq<Byte>): (r: seq<Byte>)
    requires |f| == |t|
    ensures |r| == |f|
  {
    seq(|f|, i requires 0 <= i < |f| => Blend(f[i], t[i]))
  }

  /** Each byte of a blended canvas lies between the two bytes it mixes, and a canvas
      blended with a copy of itself is unchanged. */
  lemma BlendedBetween(f: seq<Byte>, t: seq<Byte>)
    requires |f| == |t|
    ensures forall i :: 0 <= i < |f| ==> Min(f[i], t[i]) <= Blended(f, t)[i] <= Max(f[i], t[i])
    ensures f == t ==> Blended(f, t) == f
  {
    forall i | 0 <= i < |f|
      ensures Min(f[i], t[i]) <= Blended(f, t)[i] <= Max(f[i], t[i])
    {
      BlendBetween(f[i], t[i]);
    }
    if f == t {
      forall i | 0 <= i < |f|
        ensures Blended(f, t)[i] == f[i]
      {
        BlendSame(f[i]);
      }
    }
  }

  method BlendInto(frame: array<Byte>, temp: array<Byte>, n: nat)
    requires frame != temp && n <= frame.Length && n <= temp.Length
    modifies frame
    ensures frame[..n] == Blended(old(frame[..n]), temp[..n])
    ensures frame[n..] == old(frame[n..])
  {
    for i := 0 to n
      invariant frame[..i] == Blended(old(frame[..n]), temp[..n])[..i]
      invariant frame[i..] == old(frame[i..])
    {
      frame[i] := Blend(frame[i], temp[i]);
      assert frame[..i + 1] == Blended(old(frame[..n]), temp[..n])[..i + 1];
    }
  }

  // ---------------------------------------------------------------------------
  // The rotation angle

  /** A new target is drawn once the angle is within this distance of the old one. */
  const RetargetThreshold: real := 0.01
  /** The fraction of the remaining distance covered per call. */
  const ThetaRate: real := 0.005
  /** `M_PI / 180`. */
  const DegreesToRadians: real := Pi / 180.0

  /** `rand() % 90 - 45` for a non-negative rand() value. */
  function TargetDegrees(randValue: nat): (d: int)
    ensures -45 <= d <= 44
  {
    randValue % 90 - 45
  }

  /** The two static angles of rotate. */
  datatype Angles = Angles(last: real, target: real)

  function Distance(a: Angles): (d: real)
    ensures d >= 0.0
  {
    AbsR(a.target - a.last)
  }

  function Retarget(a: Angles, randValue: nat): (t: real)
    ensures Distance(a) >= RetargetThreshold ==> t == a.target
    ensures Distance(a) < RetargetThreshold ==>
              -45.0 * DegreesToRadians <= t <= 44.0 * DegreesToRadians
  {
    if AbsR(a.last - a.target) < RetargetThreshold
    then TargetDegrees(randValue) as real * DegreesToRadians
    else a.target
  }

  /** `last + (target - last) * 0.005`. */
  function NextTheta(last: real, target: real): (theta: real)
    ensures target - theta == (target - last) * (1.0 - ThetaRate)
  {
    last + (target - last) * ThetaRate
  }

  /** The angles after one rotate call; the new angle is both the one rotate turns by
      and the next call's `last`. */
  function Advance(a: Angles, randValue: nat): Angles
  {
    var t := Retarget(a, randValue);
    Angles(NextTheta(a.last, t), t)
  }

  /** The angles after one rotate call per element of rands. */
  function AdvanceAll(a: Angles, rands: seq<nat>): Angles
    decreases |rands|
  {
    if rands == [] then a else AdvanceAll(Advance(a, rands[0]), rands[1..])
  }

  const Decay: real := 1.0 - ThetaRate

  function Power(b: real, n: nat): real
  {
    if n == 0 then 1.0 else b * Power(b, n - 1)
  }

  lemma {:induction false} DecayPowerBounds(n: nat)
    ensures 0.0 < Power(Decay, n) <= 1.0
  {
    if n > 0 {
      DecayPowerBounds(n - 1);
    }
  }

  lemma AtLeastWhenScaledDown(d: real, p: real, t: real)
    requires d >= 0.0 && 0.0 <= p <= 1.0 && d * p >= t
    ensures d >= t
  {
    assert d * (1.0 - p) >= 0.0;
  }

  /** Away from the target, one call keeps the target and shrinks the distance by 0.995. */
  lemma AdvanceApproaches(a: Angles, randValue: nat)
    requires Distance(a) >= RetargetThreshold
    ensures Advance(a, randValue).target == a.target
    ensures Distance(Advance(a, randValue)) == Distance(a) * Decay
  {
  }

  /** A distance after n calls that each shrink it by the factor 0.995. */
  function Shrunk(d: real, n: nat): real
  {
    d * Power(Decay, n)
  }

  lemma Combine(x: real, db: real, d: real, p: real, q: real)
    requires x == db * p && db == d * Decay && q == Decay * p
    ensures x == d * q
  {
  }

  /** As long as the distance stays at least 0.01, the target is kept and the distance
      after n calls is the original one times 0.995^n, whatever rand() returns. */
  lemma {:induction false} AdvanceAllApproaches(a: Angles, rands: seq<nat>)
    requires Shrunk(Distance(a), |rands|) >= RetargetThreshold
    ensures AdvanceAll(a, rands).target == a.target
    ensures Distance(AdvanceAll(a, rands)) == Shrunk(Distance(a), |rands|)
    decreases |rands|
  {
    if rands != [] {
      var n := |rands|;
      var rest := rands[1..];
      var d, q, p := Distance(a), Power(Decay, n), Power(Decay, n - 1);
      assert q == Decay * p;
      assert |rest| == n - 1;
      DecayPowerBounds(n);
      AtLeastWhenScaledDown(d, q, RetargetThreshold);
      var b := Advance(a, rands[0]);
      AdvanceApproaches(a, rands[0]);
      var db := Distance(b);
      Combine(db * p, db, d, p, q);
      assert Shrunk(d, n) == d * q;
      assert Shrunk(db, n - 1) == db * p;
      AdvanceAllApproaches(b, rest);
      assert AdvanceAll(a, rands) == AdvanceAll(b, rest);
    }
  }

  // ---------------------------------------------------------------------------
  // rotate and scale

  /** The static state of transform.c: the last angle turned by and the current target. */
  class Rotator {
    var lastTheta: real
    var targetTheta: real

    function State(): Angles
      reads this
    {
      Angles(lastTheta, targetTheta)
    }

    constructor ()
      ensures State() == Angles(0.0, 0.0)
    {
      lastTheta := 0.0;
      targetTheta := 0.0;
    }

    /** `rotate(timeFrame, tempBuffer, frame, speed, angle, width, height)`. The angle
        `speed * angle` it starts from is overwritten before use, so neither parameter
        influences the result. */
    method Rotate(timeFrame: real, temp: array<Byte>, frame: array<Byte>, speed: real, angle: real,
                  width: nat, height: nat, sin: real -> real, cos: real -> real, randValue: nat)
      requires frame != temp
      requires CanvasBytes(width, height) <= frame.Length && CanvasBytes(width, height) <= temp.Length
      modifies this, temp, frame
      ensures State() == Advance(old(State()), randValue)
      ensures temp[..CanvasBytes(width, height)]
              == Resampled(old(frame[..]), width, height, Rotation(sin(lastTheta), cos(lastTheta)))
      ensures temp[CanvasBytes(width, height)..] == old(temp[CanvasBytes(width, height)..])
      ensures frame[..CanvasBytes(width, height)]
              == Blended(old(frame[..CanvasBytes(width, height)]), temp[..CanvasBytes(width, height)])
      ensures frame[CanvasBytes(width, height)..] == old(frame[CanvasBytes(width, height)..])
    {
      var theta := speed * angle;
      if AbsR(lastTheta - targetTheta) < RetargetThreshold {
        targetTheta := TargetDegrees(randValue) as real * DegreesToRadians;
      }
      theta := lastTheta + (targetTheta - lastTheta) * ThetaRate;
      lastTheta := theta;
      var sinTheta, cosTheta := sin(theta), cos(theta);
      Resample(frame, temp, width, height, Rotation(sinTheta, cosTheta));
      BlendInto(frame, temp, width * height * 4);
    }
  }

  /** `scale(frame, tempBuffer, factor, width, height)`: the zoomed canvas is built in temp
      and copied back over frame. */
  method Scale(frame: array<Byte>, temp: array<Byte>, factor: real, width: nat, height: nat)
    requires frame != temp && factor != 0.0
    requires CanvasBytes(width, height) <= frame.Length && CanvasBytes(width, height) <= temp.Length
    modifies frame, temp
    ensures temp[..CanvasBytes(width, height)] == Resampled(old(frame[..]), width, height, Scaling(factor))
    ensures frame[..CanvasBytes(width, height)] == temp[..CanvasBytes(width, height)]
    ensures temp[CanvasBytes(width, height)..] == old(temp[CanvasBytes(width, height)..])
    ensures frame[CanvasBytes(width, height)..] == old(frame[CanvasBytes(width, height)..])
  {
    var frameSize := width * height * 4;
    Resample(frame, temp, width, height, Scaling(factor));
    CopyBytes(frame, temp, frameSize);
  }
}
