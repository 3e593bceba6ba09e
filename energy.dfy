/** The beat detector (Milky/Visualizer/audio/energy.c): a biquad-style low-pass filter,
    the RMS energy of the filtered waveform, a bass-weighted spectral flux, and a
    cooldown counter that keeps two detected spikes apart.

    Floats are modelled as reals. sin, cos and sqrt are parameters of the operations
    that call them. */
module Energy {
  import opened Numeric

  /** The filter cutoff and the bass cut-off for the flux weights, 500 Hz. */
  const CutoffHz: real := 500.0
  /** The filter's quality factor as detectEnergySpike passes it. */
  const FilterQ: real := 1.0
  /** `1e-6f`, the guard against division by zero. */
  const Epsilon: real := 0.000001
  const EnergyAlpha: real := 0.85
  const FluxAlpha: real := 0.85
  const EnergyThreshold: real := 1.3
  const FluxThreshold: real := 1.4
  const MinVolumeThreshold: real := 0.15

  // ---------------------------------------------------------------------------
  // The filter as a value

  /** Coefficients and the two delay elements of a BiquadFilter. */
  datatype Biquad = Biquad(a0: real, a1: real, a2: real, b1: real, b2: real, z1: real, z2: real)

  /** `processSample`'s output. Both the feed-forward and the feedback terms read z1 and
      z2, which hold the two previous inputs. */
  function Output(f: Biquad, input: real): real
  {
    f.a0 * input + f.a1 * f.z1 + f.a2 * f.z2 - f.b1 * f.z1 - f.b2 * f.z2
  }

  /** `processSample`'s delay update: z2 takes z1, z1 takes the input. */
  function Shift(f: Biquad, input: real): Biquad
  {
    f.(z2 := f.z1, z1 := input)
  }

  /** Outputs of processSample applied to xs left to right. */
  function RunOutputs(f: Biquad, xs: seq<real>): (ys: seq<real>)
    ensures |ys| == |xs|
    decreases |xs|
  {
    if xs == [] then [] else [Output(f, xs[0])] + RunOutputs(Shift(f, xs[0]), xs[1..])
  }

  /** Filter state after processSample has been applied to xs left to right. */
  function RunState(f: Biquad, xs: seq<real>): Biquad
    decreases |xs|
  {
    if xs == [] then f else RunState(Shift(f, xs[0]), xs[1..])
  }

  predicate SameCoefficients(f: Biquad, g: Biquad)
  {
    f.a0 == g.a0 && f.a1 == g.a1 && f.a2 == g.a2 && f.b1 == g.b1 && f.b2 == g.b2
  }

  /** After a run the coefficients are unchanged and the delay elements hold the last two
      inputs (the older state shifting in when the run is shorter than two). */
  lemma {:induction false} RunStateHistory(f: Biquad, xs: seq<real>)
    ensures SameCoefficients(RunState(f, xs), f)
    ensures |xs| >= 1 ==> RunState(f, xs).z1 == xs[|xs| - 1]
    ensures |xs| >= 2 ==> RunState(f, xs).z2 == xs[|xs| - 2]
    ensures |xs| == 1 ==> RunState(f, xs).z2 == f.z1
    ensures |xs| == 0 ==> RunState(f, xs) == f
    decreases |xs|
  {
    if xs != [] {
      RunStateHistory(Shift(f, xs[0]), xs[1..]);
    }
  }

  /** Input k steps back from position i of a run over xs from state f
      (1 <= back <= 2), reaching into the delay elements before the start. */
  function Earlier(f: Biquad, xs: seq<real>, i: nat, back: nat): real
    requires i < |xs| && 1 <= back <= 2
  {
    if i >= back then xs[i - back]
    else if i + 1 == back then f.z1
    else f.z2
  }

  /** Each output depends on the current input and the two before it only:
      `y[i] = a0 x[i] + (a1 - b1) x[i-1] + (a2 - b2) x[i-2]`. So the filter as written
      has a finite impulse response, three samples long. */
  lemma {:induction false} RunOutputsClosedForm(f: Biquad, xs: seq<real>, i: nat)
    requires i < |xs|
    ensures RunOutputs(f, xs)[i] ==
            f.a0 * xs[i] + (f.a1 - f.b1) * Earlier(f, xs, i, 1) + (f.a2 - f.b2) * Earlier(f, xs, i, 2)
    decreases i
  {
    if i > 0 {
      var g := Shift(f, xs[0]);
      RunOutputsClosedForm(g, xs[1..], i - 1);
      assert RunOutputs(f, xs)[i] == RunOutputs(g, xs[1..])[i - 1];
      assert Earlier(g, xs[1..], i - 1, 1) == Earlier(f, xs, i, 1);
      assert Earlier(g, xs[1..], i - 1, 2) == Earlier(f, xs, i, 2);
    }
  }

  /** The sum of the coefficients of the filter as written: its gain on a constant signal. */
  function DcGain(f: Biquad): real
  {
    f.a0 + f.a1 + f.a2 - f.b1 - f.b2
  }

  /** With unity gain, a constant signal that has filled the delay elements passes
      through unchanged. */
  lemma {:induction false} ConstantPassesThrough(f: Biquad, xs: seq<real>, v: real)
    requires DcGain(f) == 1.0 && f.z1 == v && f.z2 == v
    requires forall i :: 0 <= i < |xs| ==> xs[i] == v
    ensures forall i :: 0 <= i < |xs| ==> RunOutputs(f, xs)[i] == v
    decreases |xs|
  {
    if xs != [] {
      assert Output(f, v) == DcGain(f) * v;
      ConstantPassesThrough(Shift(f, xs[0]), xs[1..], v);
      assert forall i :: 1 <= i < |xs| ==> RunOutputs(f, xs)[i] == RunOutputs(Shift(f, xs[0]), xs[1..])[i - 1];
    }
  }

  /** The coefficients initLowPassFilter computes, before normalisation, from
      sinOmega = sin(omega) and cosOmega = cos(omega). */
  function LowPassDesign(sinOmega: real, cosOmega: real, q: real): (f: Biquad)
    requires q > 0.0 && 1.0 + sinOmega / (2.0 * q) != 0.0
  {
    var alpha := sinOmega / (2.0 * q);
    var inv := 1.0 / (1.0 + alpha);
    Biquad(Scaled((1.0 - cosOmega) / 2.0, inv), Scaled(1.0 - cosOmega, inv), Scaled((1.0 - cosOmega) / 2.0, inv),
           Scaled(-2.0 * cosOmega, inv), Scaled(1.0 - alpha, inv), 0.0, 0.0)
  }

  /** A coefficient multiplied by the normalisation factor. */
  function Scaled(x: real, inv: real): real
  {
    x * inv
  }

  /** Whatever sin and cos return, the designed filter has a2 == a0, a1 == 2 a0, zeroed
      delay elements and unity gain on a constant signal. */
  lemma LowPassDesignFacts(sinOmega: real, cosOmega: real, q: real)
    requires q > 0.0 && 1.0 + sinOmega / (2.0 * q) != 0.0
    ensures var f := LowPassDesign(sinOmega, cosOmega, q);
            f.a2 == f.a0 && f.a1 == 2.0 * f.a0 && f.z1 == 0.0 && f.z2 == 0.0 && DcGain(f) == 1.0
  {
    var alpha := sinOmega / (2.0 * q);
    var inv := 1.0 / (1.0 + alpha);
    var f := LowPassDesign(sinOmega, cosOmega, q);
    assert DcGain(f) ==
      ((1.0 - cosOmega) / 2.0 + (1.0 - cosOmega) + (1.0 - cosOmega) / 2.0 + 2.0 * cosOmega - (1.0 - alpha)) * inv;
    assert (1.0 + alpha) * inv == 1.0;
  }

  // ---------------------------------------------------------------------------
  // The filter object

  /** A `BiquadFilter` struct, updated in place by initLowPassFilter and processSample. */
  class BiquadFilter {
    var a0: real
    var a1: real
    var a2: real
    var b1: real
    var b2: real
    var z1: real
    var z2: real

    /** A zero-initialised static struct. */
    constructor ()
      ensures State() == Biquad(0.0, 0.0, 0.0, 0.0, 0.0, 0.0, 0.0)
    {
      a0, a1, a2, b1, b2, z1, z2 := 0.0, 0.0, 0.0, 0.0, 0.0, 0.0, 0.0;
    }

    function State(): Biquad
      reads this
    {
      Biquad(a0, a1, a2, b1, b2, z1, z2)
    }

    /** `initLowPassFilter`: the low-pass design for `omega = 2 pi cutoff / sampleRate`,
        normalised by `1 / (1 + alpha)`, with the delay elements cleared. */
    method Init(cutoffFreq: real, sampleRate: real, q: real, sin: real -> real, cos: real -> real)
      requires sampleRate > 0.0 && q > 0.0
      requires 1.0 + sin(2.0 * Pi * cutoffFreq / sampleRate) / (2.0 * q) != 0.0
      modifies this
      ensures State() == LowPassDesign(sin(2.0 * Pi * cutoffFreq / sampleRate), cos(2.0 * Pi * cutoffFreq / sampleRate), q)
      ensures a2 == a0 && a1 == 2.0 * a0 && z1 == 0.0 && z2 == 0.0 && DcGain(State()) == 1.0
    {
      var omega := 2.0 * Pi * cutoffFreq / sampleRate;
      var alpha := sin(omega) / (2.0 * q);
      var cosOmega := cos(omega);
      a0 := (1.0 - cosOmega) / 2.0;
      a1 := 1.0 - cosOmega;
      a2 := a0;
      b1 := -2.0 * cosOmega;
      b2 := 1.0 - alpha;
      var a0Inv := 1.0 / (1.0 + alpha);
      a0 := Scaled(a0, a0Inv);
      a1 := Scaled(a1, a0Inv);
      a2 := Scaled(a2, a0Inv);
      b1 := Scaled(b1, a0Inv);
      b2 := Scaled(b2, a0Inv);
      z1 := 0.0;
      z2 := 0.0;
      LowPassDesignFacts(sin(omega), cosOmega, q);
    }

    /** `processSample`: returns the filter output and shifts the input into the delay line. */
    method ProcessSample(input: real) returns (output: real)
      modifies this
      ensures output == Output(old(State()), input)
      ensures State() == Shift(old(State()), input)
    {
      output := a0 * input + a1 * z1 + a2 * z2 - b1 * z1 - b2 * z2;
      z2 := z1;
      z1 := input;
    }

    /** `applyLowPassFilter`: filters the first `length` samples in place, left to right. */
    method ApplyLowPass(samples: array<real>, length: nat)
      requires length <= samples.Length
      modifies this, samples
      ensures samples[..length] == RunOutputs(old(State()), old(samples[..length]))
      ensures samples[length..] == old(samples[length..])
      ensures State() == RunState(old(State()), old(samples[..length]))
    {
      ghost var xs := samples[..length];
      ghost var f0 := State();
      for i := 0 to length
        invariant samples[..i] == RunOutputs(f0, xs[..i])
        invariant forall k :: i <= k < samples.Length ==> samples[k] == old(samples[k])
        invariant State() == RunState(f0, xs[..i])
      {
        RunStep(f0, xs, i);
        samples[i] := ProcessSample(samples[i]);
        assert samples[..i + 1] == samples[..i] + [samples[i]];
      }
      assert xs[..length] == xs;
      assert samples[length..] == old(samples[length..]);
    }
  }

  /** Extending a run by one input appends one output and one shift. */
  lemma {:induction false} RunStep(f: Biquad, xs: seq<real>, i: nat)
    requires i < |xs|
    ensures RunOutputs(f, xs[..i + 1]) == RunOutputs(f, xs[..i]) + [Output(RunState(f, xs[..i]), xs[i])]
    ensures RunState(f, xs[..i + 1]) == Shift(RunState(f, xs[..i]), xs[i])
    decreases i
  {
    if i > 0 {
      assert xs[..i + 1][1..] == xs[1..][..i];
      assert xs[..i][1..] == xs[1..][..i - 1];
      RunStep(Shift(f, xs[0]), xs[1..], i - 1);
    }
  }

  // ---------------------------------------------------------------------------
  // Frequency bins and weights

  /** `sampleRate / (2 * spectrumLength)`: the width in Hz of one spectrum bin. */
  function BinWidth(sampleRate: nat, spectrumLength: nat): (w: real)
    requires spectrumLength > 0
    ensures sampleRate > 0 ==> w > 0.0
    ensures w * (2.0 * spectrumLength as real) == sampleRate as real
  {
    sampleRate as real / (2.0 * spectrumLength as real)
  }

  /** `maxBin`: the number of bins below the cutoff, `(size_t)(500 / binWidth)`, capped
      by the spectrum length and the weight table. */
  function MaxBinFor(binWidth: real, spectrumLength: nat, maxSpectrum: nat): nat
    requires binWidth > 0.0
  {
    var m := Trunc(CutoffHz / binWidth);
    var low := if m > spectrumLength then spectrumLength else m;
    if low > maxSpectrum then maxSpectrum else low
  }

  /** A bin gets a weight exactly when its upper edge `(i + 1) * binWidth` lies at or below
      the cutoff and it is within the spectrum and the weight table. */
  lemma MaxBinExact(binWidth: real, spectrumLength: nat, maxSpectrum: nat, i: nat)
    requires binWidth > 0.0
    ensures i < MaxBinFor(binWidth, spectrumLength, maxSpectrum) <==>
            ((i + 1) as real * binWidth <= CutoffHz && i < spectrumLength && i < maxSpectrum)
  {
    var q := CutoffHz / binWidth;
    var m := Trunc(q);
    assert q * binWidth == CutoffHz;
    if (i + 1) as real * binWidth <= CutoffHz {
      assert (i + 1) as real <= q;
      assert i + 1 <= m;
    }
    if i + 1 <= m {
      assert (i + 1) as real <= q;
      assert (i + 1) as real * binWidth <= q * binWidth;
    }
  }

  /** Weight of bin i: `1 / ((i + 1) * binWidth + 1e-6)`. */
  function Weight(binWidth: real, i: nat): (w: real)
    requires binWidth >= 0.0
    ensures w > 0.0
  {
    1.0 / ((i + 1) as real * binWidth + Epsilon)
  }

  lemma RealMulStrict(a: real, b: real, c: real)
    requires a < b && c > 0.0
    ensures a * c < b * c
  {
    assert b * c - a * c == (b - a) * c;
  }

  lemma RealMulMonotone(a: real, b: real, c: real)
    requires a <= b && c >= 0.0
    ensures a * c <= b * c
  {
    assert b * c - a * c == (b - a) * c;
  }

  lemma ReciprocalDecreasing(a: real, b: real)
    requires 0.0 < a < b
    ensures 1.0 / b < 1.0 / a
  {
    var ra, rb := 1.0 / a, 1.0 / b;
    assert ra * a == 1.0 && rb * b == 1.0;
    assert rb > 0.0;
    RealMulStrict(a, b, rb);
    if ra <= rb {
      RealMulMonotone(ra, rb, a);
    }
  }

  /** Lower bins weigh more: the weights emphasise the bass. */
  lemma WeightDecreasing(binWidth: real, i: nat, j: nat)
    requires binWidth > 0.0 && i < j
    ensures Weight(binWidth, j) < Weight(binWidth, i)
  {
    var di, dj := (i + 1) as real * binWidth + Epsilon, (j + 1) as real * binWidth + Epsilon;
    RealMulStrict((i + 1) as real, (j + 1) as real, binWidth);
    assert 0.0 < di < dj;
    ReciprocalDecreasing(di, dj);
  }

  // ---------------------------------------------------------------------------
  // Energy and spectral flux

  /** The centred waveform `(float)w[i] - 128` of the first n samples. */
  function Centred(w: seq<Byte>, n: nat): (xs: seq<real>)
    requires n <= |w|
    ensures |xs| == n
  {
    seq(n, i requires 0 <= i < n => w[i] as real - 128.0)
  }

  function SumSquares(xs: seq<real>): (r: real)
    ensures r >= 0.0
    decreases |xs|
  {
    if xs == [] then 0.0 else SumSquares(xs[..|xs| - 1]) + xs[|xs| - 1] * xs[|xs| - 1]
  }

  /** `sqrtf(filtered_energy / length)`. */
  function RmsEnergy(ys: seq<real>, sqrt: real -> real): real
    requires |ys| > 0
  {
    sqrt(SumSquares(ys) / |ys| as real)
  }

  /** The energy loop: the sum of the squares of the first n filtered samples. */
  method SumOfSquares(a: array<real>, n: nat) returns (sum: real)
    requires n <= a.Length
    ensures sum == SumSquares(a[..n])
  {
    sum := 0.0;
    for i := 0 to n
      invariant sum == SumSquares(a[..i])
    {
      assert a[..i + 1][..i] == a[..i];
      sum := sum + a[i] * a[i];
    }
  }

  /** The weighted sum of the positive bin increases over the first n bins. */
  function PositiveFlux(s: seq<Byte>, prev: seq<real>, w: seq<real>, n: nat): real
    requires n <= |s| && n <= |prev| && n <= |w|
  {
    if n == 0 then 0.0
    else
      PositiveFlux(s, prev, w, n - 1) + FluxTerm(s[n - 1] as real - prev[n - 1], w[n - 1])
  }

  /** The weighted rise of one bin; a fall counts as nothing. */
  function FluxTerm(diff: real, weight: real): real
  {
    if diff > 0.0 then diff * weight else 0.0
  }

  lemma FluxTermBounds(diff: real, weight: real)
    requires diff <= 255.0 && weight >= 0.0
    ensures 0.0 <= FluxTerm(diff, weight) <= 255.0 * weight
  {
    if diff > 0.0 {
      RealMulMonotone(diff, 255.0, weight);
      RealMulMonotone(0.0, diff, weight);
    }
  }

  function WeightSum(w: seq<real>, n: nat): real
    requires n <= |w|
  {
    if n == 0 then 0.0 else WeightSum(w, n - 1) + w[n - 1]
  }

  /** The normalised spectral flux: divided by the weight sum when that is positive. */
  function SpectralFluxOf(s: seq<Byte>, prev: seq<real>, w: seq<real>, n: nat): real
    requires n <= |s| && n <= |prev| && n <= |w|
  {
    var flux := PositiveFlux(s, prev, w, n);
    var sum := WeightSum(w, n);
    if sum > 0.0 then flux / sum else flux
  }

  predicate NonNegative(w: seq<real>)
  {
    forall i :: 0 <= i < |w| ==> w[i] >= 0.0
  }

  lemma {:induction false} WeightSumNonNegative(w: seq<real>, n: nat)
    requires n <= |w| && NonNegative(w)
    ensures WeightSum(w, n) >= 0.0
  {
    if n > 0 {
      WeightSumNonNegative(w, n - 1);
    }
  }

  /** With non-negative weights the raw flux is non-negative and at most 255 times the
      weight sum, since no bin can rise by more than 255. */
  lemma {:induction false} PositiveFluxRange(s: seq<Byte>, prev: seq<real>, w: seq<real>, n: nat)
    requires n <= |s| && n <= |prev| && n <= |w|
    requires NonNegative(w) && NonNegative(prev)
    ensures 0.0 <= PositiveFlux(s, prev, w, n) <= 255.0 * WeightSum(w, n)
  {
    if n > 0 {
      PositiveFluxRange(s, prev, w, n - 1);
      assert w[n - 1] >= 0.0 && prev[n - 1] >= 0.0;
      FluxTermBounds(s[n - 1] as real - prev[n - 1], w[n - 1]);
    }
  }

  /** No bin rose: no flux. */
  lemma {:induction false} PositiveFluxZero(s: seq<Byte>, prev: seq<real>, w: seq<real>, n: nat)
    requires n <= |s| && n <= |prev| && n <= |w|
    requires forall i :: 0 <= i < n ==> s[i] as real <= prev[i]
    ensures PositiveFlux(s, prev, w, n) == 0.0
  {
    if n > 0 {
      PositiveFluxZero(s, prev, w, n - 1);
    }
  }

  lemma QuotientBounds(flux: real, sum: real)
    requires sum > 0.0 && 0.0 <= flux <= 255.0 * sum
    ensures 0.0 <= flux / sum <= 255.0
  {
    var q := flux / sum;
    assert q * sum == flux;
    if q > 255.0 {
      RealMulStrict(255.0, q, sum);
    }
    if q < 0.0 {
      RealMulStrict(q, 0.0, sum);
    }
  }

  /** The normalised flux is never negative, is at most 255 when any weight is positive,
      and is 0 when no bin rose. */
  lemma SpectralFluxBounds(s: seq<Byte>, prev: seq<real>, w: seq<real>, n: nat)
    requires n <= |s| && n <= |prev| && n <= |w|
    requires NonNegative(w) && NonNegative(prev)
    ensures SpectralFluxOf(s, prev, w, n) >= 0.0
    ensures WeightSum(w, n) > 0.0 ==> SpectralFluxOf(s, prev, w, n) <= 255.0
    ensures (forall i :: 0 <= i < n ==> s[i] as real <= prev[i]) ==> SpectralFluxOf(s, prev, w, n) == 0.0
  {
    PositiveFluxRange(s, prev, w, n);
    if forall i :: 0 <= i < n ==> s[i] as real <= prev[i] {
      PositiveFluxZero(s, prev, w, n);
    }
    var sum := WeightSum(w, n);
    if sum > 0.0 {
      QuotientBounds(PositiveFlux(s, prev, w, n), sum);
    }
  }

  // ---------------------------------------------------------------------------
  // The cooldown state machine

  /** What one detectEnergySpike call contributes to the decision: either it stopped at
      the noise gate, or it computed the energy and the two ratios. */
  datatype Call = Gated | Open(energy: real, energyRatio: real, fluxRatio: real)

  /** A spike fires iff the cooldown has elapsed and all three thresholds are exceeded. */
  function Fires(counter: int, period: nat, c: Call): bool
  {
    c.Open? && counter >= period && c.energyRatio > EnergyThreshold &&
    c.fluxRatio > FluxThreshold && c.energy > MinVolumeThreshold
  }

  /** Reset to 0 on a spike, +1 on any other open call, untouched by a gated one. */
  function NextCounter(counter: int, period: nat, c: Call): int
  {
    if c.Gated? then counter else if Fires(counter, period, c) then 0 else counter + 1
  }

  function CounterAfter(counter: int, period: nat, calls: seq<Call>): int
    decreases |calls|
  {
    if calls == [] then counter else CounterAfter(NextCounter(counter, period, calls[0]), period, calls[1..])
  }

  /** Whether call k of a sequence starting with counter c0 fires. */
  function FiresAt(c0: int, period: nat, calls: seq<Call>, k: nat): bool
    requires k < |calls|
  {
    Fires(CounterAfter(c0, period, calls[..k]), period, calls[k])
  }

  function OpenCount(calls: seq<Call>): nat
    decreases |calls|
  {
    if calls == [] then 0 else (if calls[0].Open? then 1 else 0) + OpenCount(calls[1..])
  }

  lemma {:induction false} CounterAfterConcat(c: int, period: nat, a: seq<Call>, b: seq<Call>)
    ensures CounterAfter(c, period, a + b) == CounterAfter(CounterAfter(c, period, a), period, b)
    decreases |a|
  {
    if a == [] {
      assert a + b == b;
    } else {
      assert (a + b)[0] == a[0];
      assert (a + b)[1..] == a[1..] + b;
      CounterAfterConcat(NextCounter(c, period, a[0]), period, a[1..], b);
    }
  }

  /** The counter grows by at most one per open call. */
  lemma {:induction false} CounterGrowth(c: int, period: nat, calls: seq<Call>)
    requires c >= 0
    ensures 0 <= CounterAfter(c, period, calls) <= c + OpenCount(calls)
    decreases |calls|
  {
    if calls != [] {
      CounterGrowth(NextCounter(c, period, calls[0]), period, calls[1..]);
    }
  }

  /** Two spikes are separated by at least `period` open (non-gated) calls. */
  lemma FiresSeparated(c0: int, period: nat, calls: seq<Call>, i: nat, j: nat)
    requires c0 >= 0 && i < j < |calls|
    requires FiresAt(c0, period, calls, i) && FiresAt(c0, period, calls, j)
    ensures OpenCount(calls[i + 1..j]) >= period
  {
    CounterGrowth(c0, period, calls[..i]);
    assert calls[..i + 1] == calls[..i] + [calls[i]];
    CounterAfterConcat(c0, period, calls[..i], [calls[i]]);
    assert CounterAfter(c0, period, calls[..i + 1]) == 0;
    assert calls[..j] == calls[..i + 1] + calls[i + 1..j];
    CounterAfterConcat(c0, period, calls[..i + 1], calls[i + 1..j]);
    CounterGrowth(0, period, calls[i + 1..j]);
  }

  /** Gated calls leave the counter alone. */
  lemma {:induction false} GatedKeepCounter(c: int, period: nat, calls: seq<Call>)
    requires forall k :: 0 <= k < |calls| ==> calls[k].Gated?
    ensures CounterAfter(c, period, calls) == c
    decreases |calls|
  {
    if calls != [] {
      GatedKeepCounter(c, period, calls[1..]);
    }
  }

  /** The counter starts at the cooldown period, so the first call past the noise gate
      fires exactly when its readings exceed the thresholds. */
  lemma FirstOpenCallFiresIff(period: nat, calls: seq<Call>, k: nat)
    requires k < |calls| && calls[k].Open?
    requires forall m :: 0 <= m < k ==> calls[m].Gated?
    ensures FiresAt(period, period, calls, k) <==>
            calls[k].energyRatio > EnergyThreshold && calls[k].fluxRatio > FluxThreshold &&
            calls[k].energy > MinVolumeThreshold
  {
    GatedKeepCounter(period, period, calls[..k]);
  }

  /** The filter the initialisation block designs: the low-pass for the 500 Hz cutoff at
      the given sample rate, with zeroed delay elements. */
  function InitialFilter(sampleRate: nat, sin: real -> real, cos: real -> real): Biquad
    requires sampleRate > 0 && -1.0 <= sin(2.0 * Pi * CutoffHz / sampleRate as real)
  {
    var omega := 2.0 * Pi * CutoffHz / sampleRate as real;
    LowPassDesign(sin(omega), cos(omega), FilterQ)
  }

  // ---------------------------------------------------------------------------
  // The detector state

  /** The averages, the cooldown counter, the spike flag, the previous spectrum, the
      weights and the filter of energy.c. */
  datatype DetectorState = DetectorState(avgEnergy: real, avgFlux: real, cooldownCounter: int,
                                         spikeDetected: bool, previousSpectrum: seq<real>,
                                         weights: seq<real>, filter: Biquad)

  /** The static state of energy.c together with the spike flag it publishes. */
  class SpikeDetector {
    /** MILKY_COOLDOWN_PERIOD */
    const cooldownPeriod: nat
    /** MILKY_NOISE_GATE_THRESHOLD */
    const noiseGate: real
    /** MILKY_MAX_SPECTRUM_LENGTH */
    const maxSpectrum: nat
    /** MILKY_MAX_WAVEFORM_LENGTH */
    const maxWaveform: nat

    const previousSpectrum: array<real>
    const weights: array<real>
    /** detectEnergySpike's static `lpFilter`. */
    const filter: BiquadFilter

    var avgEnergy: real
    var avgFlux: real
    var cooldownCounter: int
    var maxBin: nat
    var binWidth: real
    var initialized: bool
    /** `milky_energyEnergySpikeDetected` */
    var spikeDetected: bool

    ghost function Repr(): set<object>
      reads this
    {
      {this, previousSpectrum, weights, filter}
    }

    ghost predicate Valid()
      reads this, previousSpectrum, weights
    {
      previousSpectrum.Length == maxSpectrum && weights.Length == maxSpectrum &&
      previousSpectrum != weights &&
      cooldownPeriod > 0 && maxSpectrum > 0 && maxWaveform > 0 &&
      avgEnergy >= 0.0 && avgFlux >= 0.0 && cooldownCounter >= 0 &&
      maxBin <= maxSpectrum && binWidth >= 0.0 &&
      (!initialized ==> maxBin == 0) &&
      NonNegative(weights[..]) && NonNegative(previousSpectrum[..]) &&
      (forall i :: maxBin <= i < maxSpectrum ==> weights[i] == 0.0)
    }

    /** The zero-initialised statics, with the cooldown counter at the full period so that
        the first call may fire. */
    constructor (cooldownPeriod: nat, noiseGate: real, maxSpectrum: nat, maxWaveform: nat)
      requires cooldownPeriod > 0 && maxSpectrum > 0 && maxWaveform > 0
      ensures Valid() && fresh(Repr())
      ensures this.cooldownPeriod == cooldownPeriod && this.noiseGate == noiseGate
      ensures this.maxSpectrum == maxSpectrum && this.maxWaveform == maxWaveform
      ensures avgEnergy == 0.0 && avgFlux == 0.0 && cooldownCounter == cooldownPeriod
      ensures !initialized && !spikeDetected && maxBin == 0
      ensures forall i :: 0 <= i < maxSpectrum ==> previousSpectrum[i] == 0.0 && weights[i] == 0.0
    {
      this.cooldownPeriod := cooldownPeriod;
      this.noiseGate := noiseGate;
      this.maxSpectrum := maxSpectrum;
      this.maxWaveform := maxWaveform;
      previousSpectrum := new real[maxSpectrum](_ => 0.0);
      weights := new real[maxSpectrum](_ => 0.0);
      filter := new BiquadFilter();
      avgEnergy, avgFlux := 0.0, 0.0;
      cooldownCounter := cooldownPeriod;
      maxBin, binWidth := 0, 0.0;
      initialized, spikeDetected := false, false;
    }

    /** The initialisation block of detectEnergySpike: bin width, filter, maxBin and the
        bass weights of the bins below the cutoff. */
    method Initialize(spectrumLength: nat, sampleRate: nat, sin: real -> real, cos: real -> real)
      requires Valid() && !initialized
      requires spectrumLength > 0 && sampleRate > 0
      requires forall t :: -1.0 <= sin(t) <= 1.0
      modifies this, weights, filter
      ensures Valid() && initialized
      ensures binWidth == BinWidth(sampleRate, spectrumLength)
      ensures maxBin == MaxBinFor(binWidth, spectrumLength, maxSpectrum)
      ensures forall i :: 0 <= i < maxBin ==> weights[i] == Weight(binWidth, i)
      ensures filter.State() == InitialFilter(sampleRate, sin, cos)
      ensures avgEnergy == old(avgEnergy) && avgFlux == old(avgFlux)
      ensures cooldownCounter == old(cooldownCounter) && spikeDetected == old(spikeDetected)
    {
      binWidth := BinWidth(sampleRate, spectrumLength);
      ghost var omega := 2.0 * Pi * CutoffHz / sampleRate as real;
      assert -1.0 <= sin(omega);
      filter.Init(CutoffHz, sampleRate as real, FilterQ, sin, cos);
      maxBin := MaxBinFor(binWidth, spectrumLength, maxSpectrum);
      FillWeights(maxBin, binWidth);
      initialized := true;
    }

    /** The weight loop of the initialisation block: bin i below `count` gets
        `1 / ((i + 1) * binWidth + 1e-6)`; the rest of the table is untouched. */
    method FillWeights(count: nat, width: real)
      requires count <= weights.Length && width >= 0.0
      modifies weights
      ensures forall k :: 0 <= k < count ==> weights[k] == Weight(width, k)
      ensures forall k :: count <= k < weights.Length ==> weights[k] == old(weights[k])
    {
      for i := 0 to count
        invariant forall k :: 0 <= k < i ==> weights[k] == Weight(width, k)
        invariant forall k :: i <= k < weights.Length ==> weights[k] == old(weights[k])
      {
        var frequency := (i + 1) as real * width;
        weights[i] := 1.0 / (frequency + Epsilon);
      }
    }

    /** The filtering and energy loops: the first min(L, MAX_WAVEFORM) centred samples run
        through the filter, then the RMS of the outputs. */
    method FilteredEnergy(waveform: seq<Byte>, sqrt: real -> real) returns (energy: real)
      requires |waveform| > 0 && maxWaveform > 0
      modifies filter
      ensures var n := Min(|waveform|, maxWaveform);
              energy == RmsEnergy(RunOutputs(old(filter.State()), Centred(waveform, n)), sqrt) &&
              filter.State() == RunState(old(filter.State()), Centred(waveform, n))
    {
      var length := if |waveform| < maxWaveform then |waveform| else maxWaveform;
      var filtered := new real[maxWaveform];
      FilterInto(filtered, waveform, length);
      var filteredEnergy := SumOfSquares(filtered, length);
      energy := sqrt(filteredEnergy / length as real);
    }

    /** The filtering loop: sample i, centred on 128, goes through the filter into slot i. */
    method FilterInto(filtered: array<real>, waveform: seq<Byte>, length: nat)
      requires length <= filtered.Length && length <= |waveform|
      modifies filtered, filter
      ensures filtered[..length] == RunOutputs(old(filter.State()), Centred(waveform, length))
      ensures filter.State() == RunState(old(filter.State()), Centred(waveform, length))
    {
      ghost var xs := Centred(waveform, length);
      ghost var f0 := filter.State();
      for i := 0 to length
        invariant filtered[..i] == RunOutputs(f0, xs[..i])
        invariant filter.State() == RunState(f0, xs[..i])
      {
        RunStep(f0, xs, i);
        filtered[i] := filter.ProcessSample(waveform[i] as real - 128.0);
        assert filtered[..i + 1] == filtered[..i] + [filtered[i]];
      }
      assert xs[..length] == xs;
    }

    /** The spectral-flux loop: compares the first min(L, MAX_SPECTRUM) bins with the
        previous spectrum, overwrites it, and normalises by the weight sum. */
    method SpectralFlux(spectrum: seq<Byte>) returns (flux: real)
      requires Valid()
      modifies previousSpectrum
      ensures Valid()
      ensures var n := Min(|spectrum|, maxSpectrum);
              flux == SpectralFluxOf(spectrum, old(previousSpectrum[..]), weights[..], n) &&
              (forall i :: 0 <= i < n ==> previousSpectrum[i] == spectrum[i] as real) &&
              (forall i :: n <= i < maxSpectrum ==> previousSpectrum[i] == old(previousSpectrum[i]))
      ensures flux >= 0.0
    {
      ghost var prev := previousSpectrum[..];
      ghost var w := weights[..];
      var spectralFlux := 0.0;
      var sumWeights := 0.0;
      var bins := if |spectrum| < maxSpectrum then |spectrum| else maxSpectrum;
      for i := 0 to bins
        invariant spectralFlux == PositiveFlux(spectrum, prev, w, i)
        invariant sumWeights == WeightSum(w, i)
        invariant forall k :: 0 <= k < i ==> previousSpectrum[k] == spectrum[k] as real
        invariant forall k :: i <= k < maxSpectrum ==> previousSpectrum[k] == prev[k]
      {
        var diff := spectrum[i] as real - previousSpectrum[i];
        previousSpectrum[i] := spectrum[i] as real;
        if diff > 0.0 {
          spectralFlux := spectralFlux + diff * weights[i];
        }
        sumWeights := sumWeights + weights[i];
      }
      if sumWeights > 0.0 {
        spectralFlux := spectralFlux / sumWeights;
      }
      flux := spectralFlux;
      SpectralFluxBounds(spectrum, prev, w, bins);
      assert NonNegative(previousSpectrum[..]);
    }

    /** The statics one detectEnergySpike call reads and writes, as values. */
    function Snapshot(): DetectorState
      reads this, previousSpectrum, weights, filter
    {
      DetectorState(avgEnergy, avgFlux, cooldownCounter, spikeDetected, previousSpectrum[..], weights[..],
                    filter.State())
    }

    /** What one detectEnergySpike call leaves behind once the weights exist, from the
        statics `before` it and the filter `filter0` it starts from. The filter has run
        over the first min(L, MAX_WAVEFORM) centred samples whether or not the gate opens;
        `call` is Gated exactly when the RMS of their outputs is below the noise gate, and
        a gated call keeps the averages and the previous spectrum. Past the gate `call`
        carries that RMS and the two ratios, `flux` is the normalised spectral flux, both
        averages move, and the first min(L, MAX_SPECTRUM) bins of the previous spectrum
        become the new ones while the rest keep their value. The flag and the counter
        follow the cooldown rule either way. */
    ghost predicate CallEffect(before: DetectorState, after: DetectorState, filter0: Biquad,
                               waveform: seq<Byte>, spectrum: seq<Byte>, sqrt: real -> real,
                               call: Call, flux: real)
    {
      |waveform| > 0 && maxWaveform > 0 &&
      |before.previousSpectrum| == maxSpectrum && |after.previousSpectrum| == maxSpectrum &&
      |after.weights| == maxSpectrum && after.avgEnergy >= 0.0 && after.avgFlux >= 0.0 &&
      var n := Min(|waveform|, maxWaveform);
      var m := Min(|spectrum|, maxSpectrum);
      var e := RmsEnergy(RunOutputs(filter0, Centred(waveform, n)), sqrt);
      after.filter == RunState(filter0, Centred(waveform, n)) &&
      (call.Gated? <==> e < noiseGate) &&
      after.spikeDetected == Fires(before.cooldownCounter, cooldownPeriod, call) &&
      after.cooldownCounter == NextCounter(before.cooldownCounter, cooldownPeriod, call) &&
      (call.Gated? ==>
         after.avgEnergy == before.avgEnergy && after.avgFlux == before.avgFlux &&
         after.previousSpectrum == before.previousSpectrum) &&
      (call.Open? ==>
         call.energy == e &&
         after.avgEnergy == before.avgEnergy * EnergyAlpha + e * (1.0 - EnergyAlpha) &&
         call.energyRatio == e / (after.avgEnergy + Epsilon) &&
         flux == SpectralFluxOf(spectrum, before.previousSpectrum, after.weights, m) &&
         after.avgFlux == before.avgFlux * FluxAlpha + flux * (1.0 - FluxAlpha) &&
         call.fluxRatio == flux / (after.avgFlux + Epsilon) &&
         (forall i :: 0 <= i < m ==> after.previousSpectrum[i] == spectrum[i] as real) &&
         (forall i :: m <= i < maxSpectrum ==> after.previousSpectrum[i] == before.previousSpectrum[i]))
    }

    /** `detectEnergySpike`. The sample rate is whole; sin, cos and sqrt are parameters.
        The ghost results name what the call computed: `call` is Gated when the noise
        gate stopped it and otherwise carries the energy and the two ratios. The filter
        the call starts from is the one initialisation designs on the first call. */
    method DetectEnergySpike(waveform: seq<Byte>, spectrum: seq<Byte>, sampleRate: nat,
                             sin: real -> real, cos: real -> real, sqrt: real -> real)
      returns (ghost call: Call, ghost flux: real)
      requires Valid()
      requires |waveform| > 0 && |spectrum| > 0 && sampleRate > 0
      requires forall t :: -1.0 <= sin(t) <= 1.0
      requires forall t :: sqrt(t) >= 0.0
      modifies this, previousSpectrum, weights, filter
      ensures Valid() && initialized
      ensures old(initialized) ==>
                maxBin == old(maxBin) && binWidth == old(binWidth) && weights[..] == old(weights[..])
      ensures !old(initialized) ==>
                binWidth == BinWidth(sampleRate, |spectrum|) &&
                maxBin == MaxBinFor(binWidth, |spectrum|, maxSpectrum) &&
                forall i :: 0 <= i < maxBin ==> weights[i] == Weight(binWidth, i)
      ensures CallEffect(old(Snapshot()), Snapshot(),
                         if old(initialized) then old(filter.State()) else InitialFilter(sampleRate, sin, cos),
                         waveform, spectrum, sqrt, call, flux)
    {
      ghost var prev := previousSpectrum[..];
      if !initialized {
        Initialize(|spectrum|, sampleRate, sin, cos);
      }
      assert previousSpectrum[..] == prev;
      call, flux := GateAndDetect(waveform, spectrum, sqrt);
    }

    /** detectEnergySpike once the weights exist: the filtered energy, the noise gate, and
        past the gate the averages, the flux and the cooldown decision. */
    method GateAndDetect(waveform: seq<Byte>, spectrum: seq<Byte>, sqrt: real -> real)
      returns (ghost call: Call, ghost flux: real)
      requires Valid() && initialized && |waveform| > 0
      requires forall t :: sqrt(t) >= 0.0
      modifies this, previousSpectrum, filter
      ensures Valid() && initialized && maxBin == old(maxBin) && binWidth == old(binWidth)
      ensures CallEffect(old(Snapshot()), Snapshot(), old(filter.State()), waveform, spectrum, sqrt, call, flux)
    {
      var currentEnergy := FilteredEnergy(waveform, sqrt);
      if currentEnergy < noiseGate {
        spikeDetected := false;
        call, flux := Gated, 0.0;
        return;
      }
      call, flux := OpenCall(currentEnergy, spectrum);
    }

    /** The part of detectEnergySpike past the noise gate: the two averages, the flux of
        the spectrum against the previous one, and the cooldown decision. */
    method OpenCall(currentEnergy: real, spectrum: seq<Byte>) returns (ghost call: Call, ghost flux: real)
      requires Valid() && currentEnergy >= noiseGate && currentEnergy >= 0.0
      modifies this, previousSpectrum
      ensures Valid()
      ensures initialized == old(initialized) && maxBin == old(maxBin) && binWidth == old(binWidth)
      ensures call.Open? && call.energy == currentEnergy
      ensures spikeDetected == Fires(old(cooldownCounter), cooldownPeriod, call)
      ensures cooldownCounter == NextCounter(old(cooldownCounter), cooldownPeriod, call)
      ensures avgEnergy == old(avgEnergy) * EnergyAlpha + currentEnergy * (1.0 - EnergyAlpha)
      ensures call.energyRatio == currentEnergy / (avgEnergy + Epsilon)
      ensures flux == SpectralFluxOf(spectrum, old(previousSpectrum[..]), weights[..], Min(|spectrum|, maxSpectrum))
      ensures avgFlux == old(avgFlux) * FluxAlpha + flux * (1.0 - FluxAlpha)
      ensures call.fluxRatio == flux / (avgFlux + Epsilon)
      ensures forall i :: 0 <= i < Min(|spectrum|, maxSpectrum) ==> previousSpectrum[i] == spectrum[i] as real
      ensures forall i :: Min(|spectrum|, maxSpectrum) <= i < maxSpectrum ==> previousSpectrum[i] == old(previousSpectrum[i])
    {
      avgEnergy := avgEnergy * EnergyAlpha + currentEnergy * (1.0 - EnergyAlpha);
      var energyRatio := currentEnergy / (avgEnergy + Epsilon);
      var spectralFlux := SpectralFlux(spectrum);
      avgFlux := avgFlux * FluxAlpha + spectralFlux * (1.0 - FluxAlpha);
      var fluxRatio := spectralFlux / (avgFlux + Epsilon);
      call, flux := Open(currentEnergy, energyRatio, fluxRatio), spectralFlux;
      if cooldownCounter >= cooldownPeriod && energyRatio > EnergyThreshold &&
         fluxRatio > FluxThreshold && currentEnergy > MinVolumeThreshold {
        spikeDetected := true;
        cooldownCounter := 0;
      } else {
        spikeDetected := false;
        cooldownCounter := cooldownCounter + 1;
      }
    }
  }
}
