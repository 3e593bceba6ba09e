/** The waveform layer of the visualizer: the bass-emphasising smoothing with its
    average offset, Xiaolin Wu's anti-aliased line on the RGBA canvas, and the simple
    waveform renderer with its every-other-frame cache. */
module Sound {
  import opened Numeric
  import opened Draw

  /** Capacity of the cached waveform, `milky_soundCachedWaveform[2048]`. */
  const CacheLength: nat := 2048

  // ---------------------------------------------------------------------------
  // Smoothing

  /** `volumeScale * (0.1 * w[i] + 0.2 * w[i + 2])`. */
  function SmoothedValue(w: seq<Byte>, i: nat, volumeScale: real): real
    requires i + 2 < |w|
  {
    volumeScale * (0.1 * w[i] as real + 0.2 * w[i + 2] as real)
  }

  /** The smoothed waveform: one value per index 0 .. |w| - 3. */
  function Smoothed(w: seq<Byte>, volumeScale: real): (out: seq<real>)
    requires |w| >= 3
    ensures |out| == |w| - 2
  {
    seq(|w| - 2, i requires 0 <= i < |w| - 2 => SmoothedValue(w, i, volumeScale))
  }

  /** The running `totalOffset` after the first n iterations. */
  function TotalOffset(w: seq<Byte>, volumeScale: real, n: nat): real
    requires n + 2 <= |w|
  {
    if n == 0 then 0.0 else TotalOffset(w, volumeScale, n - 1) + (SmoothedValue(w, n - 1, volumeScale) - w[n - 1] as real)
  }

  /** The value stored in `milky_soundAverageOffset`. */
  function AverageOffset(w: seq<Byte>, volumeScale: real): real
    requires |w| >= 3
  {
    TotalOffset(w, volumeScale, |w| - 2) / (|w| - 2) as real
  }

  function Sum(xs: seq<real>): real
    decreases |xs|
  {
    if xs == [] then 0.0 else Sum(xs[..|xs| - 1]) + xs[|xs| - 1]
  }

  function AsReals(w: seq<Byte>): (r: seq<real>)
    ensures |r| == |w| && forall i :: 0 <= i < |w| ==> r[i] == w[i] as real
  {
    seq(|w|, i requires 0 <= i < |w| => w[i] as real)
  }

  /** The accumulated offset is the sum of the smoothed values minus the sum of the raw
      samples they replace. */
  lemma {:induction false} TotalOffsetIsDifference(w: seq<Byte>, volumeScale: real, n: nat)
    requires |w| >= 3 && n <= |w| - 2
    ensures TotalOffset(w, volumeScale, n) == Sum(Smoothed(w, volumeScale)[..n]) - Sum(AsReals(w)[..n])
  {
    if n > 0 {
      TotalOffsetIsDifference(w, volumeScale, n - 1);
      assert Smoothed(w, volumeScale)[..n][..n - 1] == Smoothed(w, volumeScale)[..n - 1];
      assert AsReals(w)[..n][..n - 1] == AsReals(w)[..n - 1];
    }
  }

  /** On a constant waveform every smoothed value is `0.3 * volumeScale * c`, so the
      average offset is `(0.3 * volumeScale - 1) * c`. */
  lemma ConstantWaveformOffset(w: seq<Byte>, volumeScale: real, c: Byte)
    requires |w| >= 3 && forall i :: 0 <= i < |w| ==> w[i] == c
    ensures AverageOffset(w, volumeScale) == (0.3 * volumeScale - 1.0) * c as real
  {
    var d := (0.3 * volumeScale - 1.0) * c as real;
    ConstantTotalOffset(w, volumeScale, c, |w| - 2);
    var m := (|w| - 2) as real;
    assert TotalOffset(w, volumeScale, |w| - 2) == m * d;
    assert m * d / m == d;
  }

  lemma {:induction false} ConstantTotalOffset(w: seq<Byte>, volumeScale: real, c: Byte, n: nat)
    requires n + 2 <= |w| && forall i :: 0 <= i < |w| ==> w[i] == c
    ensures TotalOffset(w, volumeScale, n) == n as real * ((0.3 * volumeScale - 1.0) * c as real)
  {
    if n > 0 {
      ConstantTotalOffset(w, volumeScale, c, n - 1);
      var cv := c as real;
      var d := (0.3 * volumeScale - 1.0) * cv;
      assert w[n - 1] == c && w[n + 1] == c;
      assert SmoothedValue(w, n - 1, volumeScale) == volumeScale * (0.3 * cv);
      assert volumeScale * (0.3 * cv) - cv == d;
      assert (n - 1) as real * d + d == n as real * d;
    }
  }

  /** With a non-negative volume scale every smoothed value lies in [0, 76.5 * volumeScale]
      (a byte weighted by 0.1 + 0.2). */
  lemma SmoothedBounds(w: seq<Byte>, volumeScale: real, i: nat)
    requires |w| >= 3 && i < |w| - 2 && volumeScale >= 0.0
    ensures 0.0 <= Smoothed(w, volumeScale)[i] <= 76.5 * volumeScale
  {
    var v := 0.1 * w[i] as real + 0.2 * w[i + 2] as real;
    assert 0.0 <= v <= 76.5;
    NonNegativeProduct(volumeScale, v);
    NonNegativeProduct(volumeScale, 76.5 - v);
    assert volumeScale * (76.5 - v) == 76.5 * volumeScale - volumeScale * v;
  }

  lemma NonNegativeProduct(a: real, b: real)
    requires a >= 0.0 && b >= 0.0
    ensures a * b >= 0.0
  {
  }

  // ---------------------------------------------------------------------------
  // Fractional parts

  /** `fpart(x) = x - floorf(x)`. */
  function FPart(x: real): (r: real)
    ensures 0.0 <= r < 1.0
  {
    x - x.Floor as real
  }

  /** `rfpart(x) = 1 - fpart(x)`. */
  function RFPart(x: real): (r: real)
    ensures 0.0 < r <= 1.0
    ensures FPart(x) + r == 1.0
  {
    1.0 - FPart(x)
  }

  /** The fractional part ignores whole shifts, so the two intensities a column gets
      depend only on where `intery` falls between two rows. */
  lemma FPartPeriodic(x: real, n: int)
    ensures FPart(x + n as real) == FPart(x)
  {
    var f := x.Floor;
    assert f as real <= x < f as real + 1.0;
    assert (f + n) as real <= x + n as real < (f + n) as real + 1.0;
    FloorUnique(x + n as real, f + n);
  }

  lemma FloorUnique(x: real, k: int)
    requires k as real <= x < k as real + 1.0
    ensures x.Floor == k
  {
  }

  // ---------------------------------------------------------------------------
  // Xiaolin Wu's line

  /** A line after drawLineWu's two swaps: `steep` records whether x and y were exchanged. */
  datatype Oriented = Oriented(steep: bool, x0: real, y0: real, x1: real, y1: real)

  /** The swaps: exchange the axes when the line is steeper than 45 degrees, then the
      endpoints so that it runs left to right. */
  function Orient(x0: real, y0: real, x1: real, y1: real): (o: Oriented)
    ensures o.steep <==> AbsR(y1 - y0) > AbsR(x1 - x0)
    ensures o.x0 <= o.x1
    ensures AbsR(o.y1 - o.y0) <= o.x1 - o.x0
  {
    var steep := AbsR(y1 - y0) > AbsR(x1 - x0);
    var a0, b0, a1, b1 := if steep then y0 else x0, if steep then x0 else y0,
                          if steep then y1 else x1, if steep then x1 else y1;
    if a0 > a1 then Oriented(steep, a1, b1, a0, b0) else Oriented(steep, a0, b0, a1, b1)
  }

  /** The swaps keep the segment: the same two endpoints, with x and y exchanged back
      when the line is steep. */
  lemma OrientSameSegment(x0: real, y0: real, x1: real, y1: real)
    ensures var o := Orient(x0, y0, x1, y1);
            (!o.steep ==> {(o.x0, o.y0), (o.x1, o.y1)} == {(x0, y0), (x1, y1)}) &&
            (o.steep ==> {(o.y0, o.x0), (o.y1, o.x1)} == {(x0, y0), (x1, y1)})
  {
  }

  /** `dx == 0 ? 1 : dy / dx`. */
  function Gradient(o: Oriented): real
  {
    if o.x1 - o.x0 == 0.0 then 1.0 else (o.y1 - o.y0) / (o.x1 - o.x0)
  }

  /** After the swaps the line is shallow, so the gradient never exceeds 1 in magnitude:
      the main loop moves at most one row per column. */
  lemma GradientBounded(x0: real, y0: real, x1: real, y1: real)
    ensures -1.0 <= Gradient(Orient(x0, y0, x1, y1)) <= 1.0
  {
    var o := Orient(x0, y0, x1, y1);
    var dx, dy := o.x1 - o.x0, o.y1 - o.y0;
    if dx != 0.0 {
      QuotientBounded(dy, dx);
    }
  }

  lemma QuotientBounded(dy: real, dx: real)
    requires dx > 0.0 && -dx <= dy <= dx
    ensures -1.0 <= dy / dx <= 1.0
  {
    var g := dy / dx;
    assert g * dx == dy;
    if g > 1.0 {
      RealProductGrows(g, dx);
    }
    if g < -1.0 {
      RealProductGrows(-g, dx);
    }
  }

  lemma RealProductGrows(g: real, d: real)
    requires g > 1.0 && d > 0.0
    ensures g * d > d
  {
    assert g * d - d == (g - 1.0) * d;
  }

  /** A setPixel call as the line makes it: signed coordinates and the colour. */
  datatype Plot = Plot(x: int, y: int, c: Rgba)

  /** A pixel at column `col` and row `row` of the oriented line, swapped back when steep. */
  function PlotAt(steep: bool, col: int, row: int, c: Rgba): Plot
  {
    if steep then Plot(row, col, c) else Plot(col, row, c)
  }

  /** White or any colour with the alpha byte `(uint8_t)(intensity * 255)`. */
  function Shade(r: Byte, g: Byte, b: Byte, intensity: real): Rgba
  {
    Rgba(r, g, b, FloatToUint8(intensity * 255.0))
  }

  /** `yend`: the line's y at the column nearest to xv. */
  function EndY(xv: real, yv: real, gradient: real): real
  {
    yv + gradient * (RoundF(xv) as real - xv)
  }

  /** A product of two intensity factors, `v * k` (coverage times alpha, and so on). */
  function Scaled(v: real, k: real): real
  {
    v * k
  }

  /** The two pixels of one endpoint: `xv` is x0 (first) or x1 (second). */
  function EndpointPlots(steep: bool, xv: real, yv: real, gradient: real, first: bool,
                         r: Byte, g: Byte, b: Byte, alpha: real): seq<Plot>
  {
    var yend := EndY(xv, yv, gradient);
    var xgap := if first then RFPart(xv + 0.5) else FPart(xv + 0.5);
    [PlotAt(steep, RoundF(xv), yend.Floor, Shade(r, g, b, Scaled(Scaled(RFPart(yend), xgap), alpha))),
     PlotAt(steep, RoundF(xv), yend.Floor + 1, Shade(r, g, b, Scaled(Scaled(FPart(yend), xgap), alpha)))]
  }

  /** The main loop from column x up to (not including) xEnd, `intery` being the
      y-intersection at column x. */
  function MainPlots(steep: bool, x: int, xEnd: int, intery: real, gradient: real,
                     r: Byte, g: Byte, b: Byte, alpha: real): seq<Plot>
    decreases xEnd - x
  {
    if x >= xEnd then []
    else
      [PlotAt(steep, x, intery.Floor, Shade(r, g, b, Scaled(RFPart(intery), alpha))),
       PlotAt(steep, x, intery.Floor + 1, Shade(r, g, b, Scaled(FPart(intery), alpha)))] +
      MainPlots(steep, x + 1, xEnd, intery + gradient, gradient, r, g, b, alpha)
  }

  /** The y-intersection at the first interior column: the first endpoint's `yend`
      plus one gradient step. */
  function FirstIntery(o: Oriented): real
  {
    EndY(o.x0, o.y0, Gradient(o)) + Gradient(o)
  }

  /** Every setPixel call of drawLineWu, in order. */
  function WuPlots(x0: real, y0: real, x1: real, y1: real, r: Byte, g: Byte, b: Byte, alpha: real): seq<Plot>
  {
    var o := Orient(x0, y0, x1, y1);
    EndpointPlots(o.steep, o.x0, o.y0, Gradient(o), true, r, g, b, alpha) +
    EndpointPlots(o.steep, o.x1, o.y1, Gradient(o), false, r, g, b, alpha) +
    MainPlots(o.steep, RoundF(o.x0) + 1, RoundF(o.x1), FirstIntery(o), Gradient(o), r, g, b, alpha)
  }

  /** The y-intersection j columns after one where it was `intery`. */
  function InteryAt(intery: real, gradient: real, j: nat): real
  {
    intery + j as real * gradient
  }

  lemma InteryStep(intery: real, gradient: real, j: nat)
    ensures InteryAt(intery + gradient, gradient, j) == InteryAt(intery, gradient, j + 1)
  {
    assert (intery + gradient) + j as real * gradient == intery + (j + 1) as real * gradient;
  }

  /** The column of a plot along the oriented line's major axis. */
  function Column(steep: bool, p: Plot): int
  {
    if steep then p.y else p.x
  }

  /** The row of a plot along the minor axis. */
  function Row(steep: bool, p: Plot): int
  {
    if steep then p.x else p.y
  }

  /** The main loop visits the columns x .. xEnd - 1 in order, two pixels per column, at
      rows `floor(intery + j * gradient)` and one below, where j counts the columns. */
  lemma {:induction false} MainPlotsShape(steep: bool, x: int, xEnd: int, intery: real, gradient: real,
                                          r: Byte, g: Byte, b: Byte, alpha: real, k: nat)
    requires k < |MainPlots(steep, x, xEnd, intery, gradient, r, g, b, alpha)|
    ensures |MainPlots(steep, x, xEnd, intery, gradient, r, g, b, alpha)| == 2 * (xEnd - x)
    ensures var p := MainPlots(steep, x, xEnd, intery, gradient, r, g, b, alpha)[k];
            Column(steep, p) == x + k / 2 && Row(steep, p) == InteryAt(intery, gradient, k / 2).Floor + k % 2
    decreases xEnd - x
  {
    var mp := MainPlots(steep, x, xEnd, intery, gradient, r, g, b, alpha);
    var rest := MainPlots(steep, x + 1, xEnd, intery + gradient, gradient, r, g, b, alpha);
    assert mp == [mp[0], mp[1]] + rest;
    MainPlotsLength(steep, x + 1, xEnd, intery + gradient, gradient, r, g, b, alpha);
    if k >= 2 {
      MainPlotsShape(steep, x + 1, xEnd, intery + gradient, gradient, r, g, b, alpha, k - 2);
      assert mp[k] == rest[k - 2];
      InteryStep(intery, gradient, (k - 2) / 2);
      assert (k - 2) / 2 + 1 == k / 2 && (k - 2) % 2 == k % 2;
    } else {
      assert InteryAt(intery, gradient, k / 2) == intery;
    }
  }

  lemma {:induction false} MainPlotsLength(steep: bool, x: int, xEnd: int, intery: real, gradient: real,
                                           r: Byte, g: Byte, b: Byte, alpha: real)
    ensures |MainPlots(steep, x, xEnd, intery, gradient, r, g, b, alpha)| == 2 * Max(0, xEnd - x)
    decreases xEnd - x
  {
    if x < xEnd {
      MainPlotsLength(steep, x + 1, xEnd, intery + gradient, gradient, r, g, b, alpha);
    }
  }

  /** drawLineWu makes four endpoint calls and two per interior column. */
  lemma WuPlotsCount(x0: real, y0: real, x1: real, y1: real, r: Byte, g: Byte, b: Byte, alpha: real)
    ensures var o := Orient(x0, y0, x1, y1);
            |WuPlots(x0, y0, x1, y1, r, g, b, alpha)| == 4 + 2 * Max(0, RoundF(o.x1) - RoundF(o.x0) - 1)
  {
    var o := Orient(x0, y0, x1, y1);
    MainPlotsLength(o.steep, RoundF(o.x0) + 1, RoundF(o.x1), FirstIntery(o), Gradient(o), r, g, b, alpha);
  }

  // ---------------------------------------------------------------------------
  // Plotting onto the canvas

  /** `setPixel` called with a signed coordinate, which C converts to size_t. */
  function PlotPixel(s: seq<Byte>, width: nat, height: nat, p: Plot): (r: seq<Byte>)
    requires CanvasBytes(width, height) <= |s|
    ensures |r| == |s|
  {
    SetPixelSpec(s, width, height, AsSize(p.x), AsSize(p.y), p.c)
  }

  /** A negative coordinate wraps to a size_t far above any canvas that fits in memory,
      so setPixel ignores it. */
  lemma NegativeCoordinateIgnored(s: seq<Byte>, width: nat, height: nat, p: Plot)
    requires CanvasBytes(width, height) <= |s|
    requires width <= SizeModulus / 2 && height <= SizeModulus / 2
    requires -(SizeModulus / 2) <= p.x < 0 || -(SizeModulus / 2) <= p.y < 0
    ensures PlotPixel(s, width, height, p) == s
  {
  }

  /** The effect of a sequence of calls, in order. */
  function ApplyPlots(s: seq<Byte>, width: nat, height: nat, plots: seq<Plot>): (r: seq<Byte>)
    requires CanvasBytes(width, height) <= |s|
    ensures |r| == |s|
    decreases |plots|
  {
    if plots == [] then s else ApplyPlots(PlotPixel(s, width, height, plots[0]), width, height, plots[1..])
  }

  /** Whether plot p writes byte k. */
  predicate Touches(width: nat, height: nat, p: Plot, k: nat)
  {
    AsSize(p.x) < width && AsSize(p.y) < height &&
    PixelOffset(width, AsSize(p.x), AsSize(p.y)) <= k < PixelOffset(width, AsSize(p.x), AsSize(p.y)) + 4
  }

  /** A byte that no call touches keeps its value. */
  lemma {:induction false} ApplyPlotsUnchanged(s: seq<Byte>, width: nat, height: nat, plots: seq<Plot>, k: nat)
    requires CanvasBytes(width, height) <= |s| && k < |s|
    requires forall i :: 0 <= i < |plots| ==> !Touches(width, height, plots[i], k)
    ensures ApplyPlots(s, width, height, plots)[k] == s[k]
    decreases |plots|
  {
    if plots != [] {
      assert !Touches(width, height, plots[0], k);
      var s1 := PlotPixel(s, width, height, plots[0]);
      assert s1[k] == s[k];
      assert forall i :: 0 <= i < |plots[1..]| ==> plots[1..][i] == plots[i + 1];
      ApplyPlotsUnchanged(s1, width, height, plots[1..], k);
    }
  }

  lemma ApplyTwo(s: seq<Byte>, width: nat, height: nat, p: Plot, q: Plot, rest: seq<Plot>)
    requires CanvasBytes(width, height) <= |s|
    ensures ApplyPlots(s, width, height, [p, q] + rest) ==
            ApplyPlots(PlotPixel(PlotPixel(s, width, height, p), width, height, q), width, height, rest)
  {
    var all := [p, q] + rest;
    assert all[0] == p && all[1..] == [q] + rest;
    assert ([q] + rest)[0] == q && ([q] + rest)[1..] == rest;
  }

  /** setPixel with a signed coordinate. */
  method PlotPixelAt(frame: array<Byte>, width: nat, height: nat, x: int, y: int, c: Rgba)
    requires CanvasBytes(width, height) <= frame.Length
    modifies frame
    ensures frame[..] == PlotPixel(old(frame[..]), width, height, Plot(x, y, c))
  {
    SetPixel(frame, width, height, AsSize(x), AsSize(y), c);
  }

  lemma {:induction false} ApplyConcat(s: seq<Byte>, width: nat, height: nat, a: seq<Plot>, b: seq<Plot>)
    requires CanvasBytes(width, height) <= |s|
    ensures ApplyPlots(s, width, height, a + b) == ApplyPlots(ApplyPlots(s, width, height, a), width, height, b)
    decreases |a|
  {
    if a == [] {
      assert a + b == b;
    } else {
      assert (a + b)[0] == a[0] && (a + b)[1..] == a[1..] + b;
      ApplyConcat(PlotPixel(s, width, height, a[0]), width, height, a[1..], b);
    }
  }

  /** One endpoint block of drawLineWu: the pixel column nearest to xv and the two rows
      around `yend`, weighted by the coverage `xgap` of that column. */
  method PlotEndpoint(frame: array<Byte>, width: nat, height: nat, steep: bool, xv: real, yv: real,
                      gradient: real, first: bool, r: Byte, g: Byte, b: Byte, alpha: real)
    returns (xpxl: int, yend: real)
    requires CanvasBytes(width, height) <= frame.Length
    modifies frame
    ensures xpxl == RoundF(xv) && yend == EndY(xv, yv, gradient)
    ensures frame[..] == ApplyPlots(old(frame[..]), width, height,
                                    EndpointPlots(steep, xv, yv, gradient, first, r, g, b, alpha))
  {
    var xend := RoundF(xv);
    yend := EndY(xv, yv, gradient);
    var xgap := if first then RFPart(xv + 0.5) else FPart(xv + 0.5);
    xpxl := xend;
    var ypxl := yend.Floor;
    var alpha1 := Scaled(Scaled(RFPart(yend), xgap), alpha);
    var alpha2 := Scaled(Scaled(FPart(yend), xgap), alpha);
    ghost var e := EndpointPlots(steep, xv, yv, gradient, first, r, g, b, alpha);
    assert e == [e[0], e[1]] + [];
    ApplyTwo(frame[..], width, height, e[0], e[1], []);
    if steep {
      PlotPixelAt(frame, width, height, ypxl, xpxl, Shade(r, g, b, alpha1));
      PlotPixelAt(frame, width, height, ypxl + 1, xpxl, Shade(r, g, b, alpha2));
    } else {
      PlotPixelAt(frame, width, height, xpxl, ypxl, Shade(r, g, b, alpha1));
      PlotPixelAt(frame, width, height, xpxl, ypxl + 1, Shade(r, g, b, alpha2));
    }
  }

  /** drawLineWu's two swaps, done on local variables. */
  method Swap(x0: real, y0: real, x1: real, y1: real) returns (steep: bool, ax0: real, ay0: real, ax1: real, ay1: real)
    ensures Oriented(steep, ax0, ay0, ax1, ay1) == Orient(x0, y0, x1, y1)
  {
    steep := AbsR(y1 - y0) > AbsR(x1 - x0);
    ax0, ay0, ax1, ay1 := x0, y0, x1, y1;
    if steep {
      ax0, ay0 := ay0, ax0;
      ax1, ay1 := ay1, ax1;
    }
    if ax0 > ax1 {
      ax0, ax1 := ax1, ax0;
      ay0, ay1 := ay1, ay0;
    }
  }

  /** `drawLineWu`. */
  method DrawLineWu(frame: array<Byte>, width: nat, height: nat, x0: real, y0: real, x1: real, y1: real,
                    r: Byte, g: Byte, b: Byte, alpha: real)
    requires CanvasBytes(width, height) <= frame.Length
    modifies frame
    ensures frame[..] == ApplyPlots(old(frame[..]), width, height, WuPlots(x0, y0, x1, y1, r, g, b, alpha))
  {
    ghost var start := frame[..];
    var steep, ax0, ay0, ax1, ay1 := Swap(x0, y0, x1, y1);
    ghost var o := Orient(x0, y0, x1, y1);
    var dx := ax1 - ax0;
    var dy := ay1 - ay0;
    var gradient := if dx == 0.0 then 1.0 else dy / dx;
    assert gradient == Gradient(o);
    ghost var e1 := EndpointPlots(steep, ax0, ay0, gradient, true, r, g, b, alpha);
    ghost var e2 := EndpointPlots(steep, ax1, ay1, gradient, false, r, g, b, alpha);
    ghost var main := MainPlots(steep, RoundF(ax0) + 1, RoundF(ax1), FirstIntery(o), gradient, r, g, b, alpha);
    assert WuPlots(x0, y0, x1, y1, r, g, b, alpha) == (e1 + e2) + main;
    ApplyConcat(start, width, height, e1 + e2, main);
    ApplyConcat(start, width, height, e1, e2);

    var xpxl1, yend := PlotEndpoint(frame, width, height, steep, ax0, ay0, gradient, true, r, g, b, alpha);
    var intery := yend + gradient;
    var xpxl2, _ := PlotEndpoint(frame, width, height, steep, ax1, ay1, gradient, false, r, g, b, alpha);

    assert intery == FirstIntery(o);
    PlotMainLoop(frame, width, height, steep, xpxl1 + 1, xpxl2, intery, gradient, r, g, b, alpha);
  }

  /** The main loop of drawLineWu over the columns xStart .. xEnd - 1; both of the
      source's loops (steep and shallow) take this form, the branch being in PlotColumn. */
  method PlotMainLoop(frame: array<Byte>, width: nat, height: nat, steep: bool, xStart: int, xEnd: int,
                      intery0: real, gradient: real, r: Byte, g: Byte, b: Byte, alpha: real)
    requires CanvasBytes(width, height) <= frame.Length
    modifies frame
    ensures frame[..] == ApplyPlots(old(frame[..]), width, height,
                                    MainPlots(steep, xStart, xEnd, intery0, gradient, r, g, b, alpha))
  {
    ghost var target := ApplyPlots(frame[..], width, height,
                                   MainPlots(steep, xStart, xEnd, intery0, gradient, r, g, b, alpha));
    var intery := intery0;
    var x := xStart;
    while x < xEnd
      invariant ApplyPlots(frame[..], width, height,
                           MainPlots(steep, x, xEnd, intery, gradient, r, g, b, alpha)) == target
      decreases xEnd - x
    {
      PlotColumn(frame, width, height, steep, x, xEnd, intery, gradient, r, g, b, alpha);
      intery := intery + gradient;
      x := x + 1;
    }
  }

  /** One iteration of the main loop: the two pixels of column x, above and below the
      y-intersection, with x and y swapped back when the line is steep. */
  method PlotColumn(frame: array<Byte>, width: nat, height: nat, steep: bool, x: int, xEnd: int,
                    intery: real, gradient: real, r: Byte, g: Byte, b: Byte, alpha: real)
    requires CanvasBytes(width, height) <= frame.Length && x < xEnd
    modifies frame
    ensures ApplyPlots(frame[..], width, height, MainPlots(steep, x + 1, xEnd, intery + gradient, gradient, r, g, b, alpha))
            == ApplyPlots(old(frame[..]), width, height, MainPlots(steep, x, xEnd, intery, gradient, r, g, b, alpha))
  {
    var y := intery.Floor;
    var alpha1 := Scaled(RFPart(intery), alpha);
    var alpha2 := Scaled(FPart(intery), alpha);
    ghost var rest := MainPlots(steep, x + 1, xEnd, intery + gradient, gradient, r, g, b, alpha);
    ghost var p1 := PlotAt(steep, x, y, Shade(r, g, b, alpha1));
    ghost var p2 := PlotAt(steep, x, y + 1, Shade(r, g, b, alpha2));
    assert MainPlots(steep, x, xEnd, intery, gradient, r, g, b, alpha) == [p1, p2] + rest;
    ApplyTwo(frame[..], width, height, p1, p2, rest);
    if steep {
      PlotPixelAt(frame, width, height, y, x, Shade(r, g, b, alpha1));
      PlotPixelAt(frame, width, height, y + 1, x, Shade(r, g, b, alpha2));
    } else {
      PlotPixelAt(frame, width, height, x, y, Shade(r, g, b, alpha1));
      PlotPixelAt(frame, width, height, x, y + 1, Shade(r, g, b, alpha2));
    }
  }

  // ---------------------------------------------------------------------------
  // The simple waveform renderer

  /** x1 or x2 after `(x >= width) ? (float)(width - 1) : x`, the subtraction in size_t. */
  function CapX(x: real, width: nat): (r: real)
    requires IsSize(width)
    ensures x < width as real ==> r == x
    ensures width > 0 ==> r < width as real && r <= x
  {
    if x >= width as real then SizeSub(width, 1) as real else x
  }

  /** y1 or y2 after the clamp into [0, height - 1]. */
  function ClampY(y: real, height: nat): (r: real)
    requires IsSize(height)
    ensures 0.0 <= y < height as real ==> r == y
    ensures height > 0 ==> 0.0 <= r < height as real
    ensures y < 0.0 ==> r == 0.0
  {
    if y >= height as real then SizeSub(height, 1) as real else if y < 0.0 then 0.0 else y
  }

  /** The unclamped screen row of a sample: centred on the middle row, 128 at the centre
      after removing the smoothing offset, the full byte range spanning half the height. */
  function SampleRow(sample: real, offset: real, height: nat, yOffset: int): real
  {
    (height / 2) as real - ((sample - 128.0 - offset) * height as real) / 512.0 + yOffset as real
  }

  /** `inverse255` of renderWaveformSimple. */
  const Inverse255: real := 1.0 / 255.0

  /** The line's alpha: darker for larger samples. */
  function SegmentAlpha(sample: real, globalAlpha: real): real
  {
    (1.0 - sample * Inverse255) * globalAlpha
  }

  /** The endpoints of segment i, after the clamps. */
  datatype Endpoints = Endpoints(x1: real, y1: real, x2: real, y2: real)

  /** The clamped endpoints of segment i, whose samples are s1 and s2, with `scaleX`
      pixels per sample. */
  function SegmentEnds(s1: real, s2: real, i: nat, width: nat, height: nat, scaleX: real, offset: real,
                       yOffset: int, xOffset: int): (e: Endpoints)
    requires IsSize(width) && IsSize(height)
    ensures width > 0 ==> e.x1 < width as real && e.x2 < width as real
    ensures height > 0 ==> 0.0 <= e.y1 < height as real && 0.0 <= e.y2 < height as real
  {
    Endpoints(CapX(i as real * scaleX + xOffset as real, width),
              ClampY(SampleRow(s1, offset, height, yOffset), height),
              CapX((i + 1) as real * scaleX + xOffset as real, width),
              ClampY(SampleRow(s2, offset, height, yOffset), height))
  }

  /** The setPixel calls of segment i: a white Wu line between its clamped endpoints. */
  function SegmentPlots(cache: seq<real>, i: nat, width: nat, height: nat, length: nat, offset: real,
                        globalAlpha: real, yOffset: int, xOffset: int): seq<Plot>
    requires i + 1 < |cache| && length > 0 && IsSize(width) && IsSize(height)
  {
    var e := SegmentEnds(cache[i], cache[i + 1], i, width, height, width as real / length as real,
                         offset, yOffset, xOffset);
    WuPlots(e.x1, e.y1, e.x2, e.y2, 255, 255, 255, SegmentAlpha(cache[i], globalAlpha))
  }

  lemma SegmentPlotsAre(cache: seq<real>, i: nat, width: nat, height: nat, length: nat, offset: real,
                        globalAlpha: real, yOffset: int, xOffset: int, e: Endpoints, alpha: real)
    requires i + 1 < |cache| && length > 0 && IsSize(width) && IsSize(height)
    requires e == SegmentEnds(cache[i], cache[i + 1], i, width, height, width as real / length as real,
                              offset, yOffset, xOffset)
    requires alpha == SegmentAlpha(cache[i], globalAlpha)
    ensures SegmentPlots(cache, i, width, height, length, offset, globalAlpha, yOffset, xOffset) ==
            WuPlots(e.x1, e.y1, e.x2, e.y2, 255, 255, 255, alpha)
  {
  }

  /** The canvas after the first n segments of the waveform have been drawn. */
  function Rendered(s: seq<Byte>, width: nat, height: nat, cache: seq<real>, length: nat, offset: real,
                    globalAlpha: real, yOffset: int, xOffset: int, n: nat): (r: seq<Byte>)
    requires CanvasBytes(width, height) <= |s| && IsSize(width) && IsSize(height)
    requires 0 < length <= |cache| && n < length
    ensures |r| == |s|
  {
    if n == 0 then s
    else
      ApplyPlots(Rendered(s, width, height, cache, length, offset, globalAlpha, yOffset, xOffset, n - 1),
                 width, height, SegmentPlots(cache, n - 1, width, height, length, offset, globalAlpha, yOffset, xOffset))
  }

  /** Whether a call made with this frame counter refreshes the cache. */
  predicate Refreshes(frameCounter: nat)
  {
    frameCounter % 2 == 0
  }

  /** The number of cache refreshes in n calls starting from counter c. */
  function RefreshCount(c: nat, n: nat): nat
    decreases n
  {
    if n == 0 then 0 else (if Refreshes(c) then 1 else 0) + RefreshCount(c + 1, n - 1)
  }

  /** The cache is refreshed on every other call: n calls from an even counter refresh
      ceil(n / 2) times, from an odd one floor(n / 2) times. */
  lemma {:induction false} RefreshCountHalf(c: nat, n: nat)
    ensures RefreshCount(c, n) == if c % 2 == 0 then (n + 1) / 2 else n / 2
    decreases n
  {
    if n > 0 {
      RefreshCountHalf(c + 1, n - 1);
    }
  }

  /** The globals of sound.c. */
  class WaveformState {
    /** `milky_soundAverageOffset` */
    var averageOffset: real
    /** `milky_soundCachedWaveform` */
    const cachedWaveform: array<real>
    /** `milky_soundFrameCounter` */
    var frameCounter: nat

    predicate Valid()
      reads this
    {
      cachedWaveform.Length == CacheLength
    }

    constructor ()
      ensures Valid() && fresh(cachedWaveform)
      ensures averageOffset == 0.0 && frameCounter == 0
    {
      averageOffset := 0.0;
      cachedWaveform := new real[CacheLength](_ => 0.0);
      frameCounter := 0;
    }

    /** `smoothBassEmphasizedWaveform`: fills the first L - 2 slots of the output and
        stores the average offset. The source underflows its size_t bound when L < 2 and
        divides by zero when L == 2, so L >= 3 is required. */
    method SmoothBassEmphasizedWaveform(waveform: seq<Byte>, formatted: array<real>, canvasWidth: nat,
                                        volumeScale: real)
      requires |waveform| >= 3 && |waveform| - 2 <= formatted.Length
      modifies this, formatted
      ensures formatted[..|waveform| - 2] == Smoothed(waveform, volumeScale)
      ensures formatted[|waveform| - 2..] == old(formatted[|waveform| - 2..])
      ensures averageOffset == AverageOffset(waveform, volumeScale)
      ensures frameCounter == old(frameCounter)
    {
      var totalOffset := 0.0;
      var n := |waveform| - 2;
      for i := 0 to n
        invariant totalOffset == TotalOffset(waveform, volumeScale, i)
        invariant forall k :: 0 <= k < i ==> formatted[k] == SmoothedValue(waveform, k, volumeScale)
        invariant forall k :: i <= k < formatted.Length ==> formatted[k] == old(formatted[k])
        modifies formatted
      {
        var smoothedValue := volumeScale * (0.1 * waveform[i] as real + 0.2 * waveform[i + 2] as real);
        formatted[i] := smoothedValue;
        totalOffset := totalOffset + (smoothedValue - waveform[i] as real);
      }
      assert formatted[..n] == Smoothed(waveform, volumeScale);
      assert formatted[n..] == old(formatted[n..]);
      averageOffset := totalOffset / n as real;
    }

    /** `renderWaveformSimple`: refreshes the cache on even frames, counts the frame and
        draws one Wu line per pair of neighbouring cached samples. `timeFrame` is unused,
        as in the source. */
    method RenderWaveformSimple(timeFrame: real, frame: array<Byte>, width: nat, height: nat,
                                emphasized: seq<real>, globalAlpha: real, yOffset: int, xOffset: int)
      requires Valid() && 0 < |emphasized| <= CacheLength
      requires CanvasBytes(width, height) <= frame.Length && IsSize(width) && IsSize(height)
      modifies this, cachedWaveform, frame
      ensures Valid() && frameCounter == old(frameCounter) + 1 && averageOffset == old(averageOffset)
      ensures Refreshes(old(frameCounter)) ==>
                cachedWaveform[..|emphasized|] == emphasized &&
                cachedWaveform[|emphasized|..] == old(cachedWaveform[|emphasized|..])
      ensures !Refreshes(old(frameCounter)) ==> cachedWaveform[..] == old(cachedWaveform[..])
      ensures frame[..] == Rendered(old(frame[..]), width, height, cachedWaveform[..], |emphasized|,
                                    averageOffset, globalAlpha, yOffset, xOffset, |emphasized| - 1)
    {
      var length := |emphasized|;
      if frameCounter % 2 == 0 {
        CopyInto(cachedWaveform, emphasized);
      }
      frameCounter := frameCounter + 1;
      DrawCached(frame, width, height, length, globalAlpha, yOffset, xOffset);
    }

    /** The drawing loop of `renderWaveformSimple`: one Wu line per pair of neighbouring
        cached samples among the first `length`. */
    method DrawCached(frame: array<Byte>, width: nat, height: nat, length: nat,
                      globalAlpha: real, yOffset: int, xOffset: int)
      requires Valid() && 0 < length <= CacheLength
      requires CanvasBytes(width, height) <= frame.Length && IsSize(width) && IsSize(height)
      modifies frame
      ensures frame[..] == Rendered(old(frame[..]), width, height, cachedWaveform[..], length,
                                    averageOffset, globalAlpha, yOffset, xOffset, length - 1)
    {
      ghost var start := frame[..];
      for i := 0 to length - 1
        invariant frame[..] == Rendered(start, width, height, cachedWaveform[..], length, averageOffset,
                                        globalAlpha, yOffset, xOffset, i)
      {
        DrawSegment(frame, width, height, length, globalAlpha, yOffset, xOffset, i);
      }
    }

    /** One iteration of the drawing loop: the Wu line from cached sample i to sample i + 1. */
    method DrawSegment(frame: array<Byte>, width: nat, height: nat, length: nat,
                       globalAlpha: real, yOffset: int, xOffset: int, i: nat)
      requires Valid() && 0 < length <= CacheLength && i + 1 < length
      requires CanvasBytes(width, height) <= frame.Length && IsSize(width) && IsSize(height)
      modifies frame
      ensures frame[..] == ApplyPlots(old(frame[..]), width, height,
                                      SegmentPlots(cachedWaveform[..], i, width, height, length, averageOffset,
                                                   globalAlpha, yOffset, xOffset))
    {
      var waveformScaleX := width as real / length as real;
      var sampleValue1 := cachedWaveform[i];
      var sampleValue2 := cachedWaveform[i + 1];
      var e := SegmentEnds(sampleValue1, sampleValue2, i, width, height, waveformScaleX,
                           averageOffset, yOffset, xOffset);
      var alpha := SegmentAlpha(sampleValue1, globalAlpha);
      SegmentPlotsAre(cachedWaveform[..], i, width, height, length, averageOffset, globalAlpha, yOffset, xOffset,
                      e, alpha);
      DrawLineWu(frame, width, height, e.x1, e.y1, e.x2, e.y2, 255, 255, 255, alpha);
    }
  }

  /** The `memcpy` of the waveform into the front of the cache. */
  method CopyInto(dst: array<real>, src: seq<real>)
    requires |src| <= dst.Length
    modifies dst
    ensures dst[..|src|] == src && dst[|src|..] == old(dst[|src|..])
  {
    for i := 0 to |src|
      invariant dst[..i] == src[..i] && dst[i..] == old(dst[i..])
    {
      dst[i] := src[i];
      assert dst[..i + 1] == src[..i + 1];
    }
  }
}
