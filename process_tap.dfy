/** The Swift side of the audio capture (Milky/ProcessTap/ProcessTap.swift): its own
    choice of transform size, the conversion of samples and spectrum amplitudes to
    bytes, the throttle that runs the spectrum on every other buffer, and the guards
    of a tap's activation.

    The transform is the parameter of AudioFft: a function from the samples and the
    transform size to fftSize/2 non-negative amplitudes. Core Audio objects, the
    recording file and the dispatch queues are not part of this model. */
module ProcessTap {
  import opened Numeric
  import opened AudioFft

  // ---------------------------------------------------------------------------
  // Transform size: the largest size that fits in the buffer

  /** `filter { $0 <= frameLength }`: the sizes no larger than n, in order. */
  function AtMost(sizes: seq<nat>, n: int): (r: seq<nat>)
    ensures forall x :: x in r <==> x in sizes && x <= n
    decreases |sizes|
  {
    if |sizes| == 0 then []
    else if sizes[0] <= n then [sizes[0]] + AtMost(sizes[1..], n)
    else AtMost(sizes[1..], n)
  }

  /** `max()` of a non-empty sequence. */
  function MaxOf(xs: seq<nat>): (m: nat)
    requires |xs| > 0
    ensures m in xs && forall x :: x in xs ==> x <= m
    decreases |xs|
  {
    if |xs| == 1 then xs[0]
    else
      var rest := MaxOf(xs[1..]);
      assert forall x :: x in xs ==> x == xs[0] || x in xs[1..];
      if xs[0] < rest then rest else xs[0]
  }

  /** The transform size of the Swift `performFFT`: the largest of the sizes that is
      at most frameLength, or 2048 when the buffer is smaller than all of them. */
  function TapFftSize(frameLength: int): (size: nat)
    ensures size in FftSizes
    ensures frameLength >= 128 ==>
              size <= frameLength && forall s :: s in FftSizes && s <= frameLength ==> s <= size
    ensures frameLength < 128 ==> size == LargestFftSize
  {
    var candidates := AtMost(FftSizes, frameLength);
    if |candidates| == 0 then LargestFftSize
    else
      assert 128 in FftSizes;
      MaxOf(candidates)
  }

  /** `min(frameLength, fftSize)`: the samples the transform reads. */
  function TapSampleCount(frameLength: nat): (n: nat)
    ensures n <= frameLength && n <= TapFftSize(frameLength)
    ensures frameLength >= 128 ==> n == TapFftSize(frameLength)
  {
    Min(frameLength, TapFftSize(frameLength))
  }

  /** The Swift `performFFT` on the first channel: the amplitudes of the first
      sampleCount samples, normalised by 2/fftSize, sampleCount/2 of them. */
  function TapSpectrum(channel: seq<real>, frameLength: nat, amplitudesOf: (seq<real>, nat) -> seq<real>)
    : (r: seq<real>)
    requires frameLength <= |channel| && IsTransform(amplitudesOf)
    ensures |r| == TapSampleCount(frameLength) / 2
    ensures forall i :: 0 <= i < |r| ==> r[i] >= 0.0
  {
    var fftSize := TapFftSize(frameLength);
    var sampleCount := TapSampleCount(frameLength);
    var sqrtMagnitudes := amplitudesOf(channel[..sampleCount], fftSize);
    assert |sqrtMagnitudes| == fftSize / 2 && sampleCount / 2 <= fftSize / 2;
    seq(sampleCount / 2, i requires 0 <= i < sampleCount / 2 => Normalised(sqrtMagnitudes[i], fftSize))
  }

  /** `vDSP_vsmul` by `2.0 / fftSize`. */
  function Normalised(amplitude: real, fftSize: nat): (v: real)
    requires fftSize > 0
    ensures amplitude >= 0.0 ==> v >= 0.0
  {
    var factor := 2.0 / fftSize as real;
    assert factor > 0.0;
    amplitude * factor
  }

  // ---------------------------------------------------------------------------
  // Floats to bytes

  /** `UInt8(max(0, min(255, Int(v * 127.5 + 128))))`, with Swift's truncating `Int`. */
  function SampleByte(v: real): (b: Byte)
    ensures -1.0 <= v <= 1.0 ==> b == (v * 127.5 + 128.0).Floor
    ensures v * 127.5 + 128.0 >= 256.0 ==> b == 255
    ensures v * 127.5 + 128.0 < 1.0 ==> b == 0
  {
    ClampByte(Trunc(v * 127.5 + 128.0))
  }

  /** A larger value never gives a smaller byte, and silence is 128. */
  lemma SampleByteMonotone(v: real, w: real)
    requires v <= w
    ensures SampleByte(v) <= SampleByte(w)
    ensures SampleByte(0.0) == 128
  {
    var x, y := v * 127.5 + 128.0, w * 127.5 + 128.0;
    assert x <= y;
    TruncMonotone(x, y);
  }

  lemma TruncMonotone(x: real, y: real)
    requires x <= y
    ensures Trunc(x) <= Trunc(y)
  {
    if x >= 0.0 {
      assert x.Floor <= y.Floor;
    } else if y < 0.0 {
      assert (-y).Floor <= (-x).Floor;
    }
  }

  /** The bytes of a run of values. */
  function SampleBytes(values: seq<real>): (r: seq<Byte>)
    ensures |r| == |values| && forall i :: 0 <= i < |r| ==> r[i] == SampleByte(values[i])
  {
    seq(|values|, i requires 0 <= i < |values| => SampleByte(values[i]))
  }

  /** `performAndProcessFFT`: one byte per spectrum value. */
  method PerformAndProcessFft(fftResult: seq<real>) returns (frequencyBins: seq<Byte>)
    ensures frequencyBins == SampleBytes(fftResult)
  {
    var bins := new Byte[|fftResult|](_ => 0);
    for bin := 0 to |fftResult|
      invariant bins[..bin] == SampleBytes(fftResult)[..bin]
    {
      var scaledValue := fftResult[bin] * 127.5 + 128.0;
      var clampedValue := Max(0, Min(255, Trunc(scaledValue)));
      bins[bin] := clampedValue;
      assert bins[..bin + 1] == SampleBytes(fftResult)[..bin + 1];
    }
    assert bins[..] == bins[..|fftResult|];
    frequencyBins := bins[..];
  }

  /** A non-negative spectrum value gives a byte in [128, 255]. */
  lemma SpectrumBytesUpperHalf(fftResult: seq<real>)
    requires forall i :: 0 <= i < |fftResult| ==> fftResult[i] >= 0.0
    ensures forall i :: 0 <= i < |fftResult| ==> 128 <= SampleBytes(fftResult)[i] <= 255
  {
    forall i | 0 <= i < |fftResult|
      ensures 128 <= SampleBytes(fftResult)[i]
    {
      SampleByteMonotone(0.0, fftResult[i]);
    }
  }

  /** The value processSamples converts for one frame: the average of the first two
      channels when there are several, the first channel otherwise. */
  function Downmixed(left: seq<real>, right: seq<real>, stereo: bool, i: nat): real
    requires i < |left| && (stereo ==> i < |right|)
  {
    if stereo then (left[i] + right[i]) / 2.0 else left[i]
  }

  /** The bytes of frameLength frames. */
  function SamplesOf(left: seq<real>, right: seq<real>, stereo: bool, frameLength: nat): (r: seq<Byte>)
    requires frameLength <= |left| && (stereo ==> frameLength <= |right|)
    ensures |r| == frameLength
  {
    seq(frameLength, i requires 0 <= i < frameLength => SampleByte(Downmixed(left, right, stereo, i)))
  }

  /** Two equal channels downmix to the first one. */
  lemma EqualChannelsDownmixToMono(left: seq<real>, frameLength: nat)
    requires frameLength <= |left|
    ensures SamplesOf(left, left, true, frameLength) == SamplesOf(left, left, false, frameLength)
  {
    forall i | 0 <= i < frameLength
      ensures SamplesOf(left, left, true, frameLength)[i] == SamplesOf(left, left, false, frameLength)[i]
    {
      assert (left[i] + left[i]) / 2.0 == left[i];
    }
  }

  /** `processSamples`: frameLength bytes, downmixed to mono when the buffer has more
      than one channel. */
  method ProcessSamples(left: seq<real>, right: seq<real>, channelCount: nat, frameLength: nat)
      returns (samples: seq<Byte>)
    requires frameLength <= |left| && (channelCount > 1 ==> frameLength <= |right|)
    ensures samples == SamplesOf(left, right, channelCount > 1, frameLength)
  {
    var out := new Byte[frameLength](_ => 0);
    ghost var target := SamplesOf(left, right, channelCount > 1, frameLength);
    if channelCount > 1 {
      for frame := 0 to frameLength
        invariant out[..frame] == target[..frame]
      {
        var averageValue := (left[frame] + right[frame]) / 2.0;
        out[frame] := ClampByte(Trunc(averageValue * 127.5 + 128.0));
        assert out[..frame + 1] == target[..frame + 1];
      }
    } else {
      for frame := 0 to frameLength
        invariant out[..frame] == target[..frame]
      {
        out[frame] := ClampByte(Trunc(left[frame] * 127.5 + 128.0));
        assert out[..frame + 1] == target[..frame + 1];
      }
    }
    assert out[..] == out[..frameLength];
    samples := out[..];
  }

  // ---------------------------------------------------------------------------
  // The every-other-buffer throttle

  /** The number of spectrum runs in the next n buffers when updateCounter is c. */
  function SpectrumRuns(c: nat, n: nat): nat
  {
    if n == 0 then 0 else SpectrumRuns(c, n - 1) + (if (c + n) % 2 == 0 then 1 else 0)
  }

  /** From a fresh counter, n buffers run the spectrum n/2 times. */
  lemma {:induction false} SpectrumRunsHalf(n: nat)
    ensures SpectrumRuns(0, n) == n / 2
  {
    if n > 0 {
      SpectrumRunsHalf(n - 1);
    }
  }

  /** The published data of `ProcessTapRecorder` and its update counter. */
  class Recorder {
    var updateCounter: nat
    var samplesData: seq<Byte>
    var fftData: seq<Byte>
    /** The number of buffers whose spectrum has been published. */
    ghost var spectrumRuns: nat

    /** Every even count, and only those, published a spectrum. */
    ghost predicate Valid()
      reads this
    {
      spectrumRuns == SpectrumRuns(0, updateCounter)
    }

    constructor ()
      ensures Valid() && updateCounter == 0 && spectrumRuns == 0 && samplesData == [] && fftData == []
    {
      updateCounter := 0;
      spectrumRuns := 0;
      samplesData := [];
      fftData := [];
    }

    /** `updateSamplesAndFFT` on a buffer of frameLength frames whose first channel is
        left and, when channelCount > 1, second channel right. The main-queue and
        background dispatches are taken to run before the next buffer arrives. */
    method UpdateSamplesAndFft(left: seq<real>, right: seq<real>, channelCount: nat, frameLength: nat,
                               amplitudesOf: (seq<real>, nat) -> seq<real>)
      requires frameLength <= |left| && (channelCount > 1 ==> frameLength <= |right|)
      requires Valid() && IsTransform(amplitudesOf)
      modifies this
      ensures Valid() && updateCounter == old(updateCounter) + 1 && spectrumRuns == updateCounter / 2
      ensures samplesData == SamplesOf(left, right, channelCount > 1, frameLength)
      ensures updateCounter % 2 == 0 ==> fftData == SampleBytes(TapSpectrum(left, frameLength, amplitudesOf))
      ensures updateCounter % 2 != 0 ==> fftData == old(fftData)
      ensures forall i :: 0 <= i < |fftData| && updateCounter % 2 == 0 ==> 128 <= fftData[i] <= 255
    {
      updateCounter := updateCounter + 1;
      if updateCounter % 2 == 0 {
        spectrumRuns := spectrumRuns + 1;
      }
      SpectrumRunsHalf(updateCounter);
      var samples := ProcessSamples(left, right, channelCount, frameLength);
      samplesData := samples;
      if updateCounter % 2 != 0 {
        return;
      }
      var spectrum := TapSpectrum(left, frameLength, amplitudesOf);
      var frequencyBins := PerformAndProcessFft(spectrum);
      SpectrumBytesUpperHalf(spectrum);
      fftData := frequencyBins;
    }
  }

  // ---------------------------------------------------------------------------
  // Activation of a tap

  /** The state of a `ProcessTap` its guards look at: whether it is activated, whether
      its tap and aggregate device exist, and whether an invalidation handler is set. */
  class Tap {
    var activated: bool
    var tapValid: bool
    var aggregateValid: bool
    var hasInvalidationHandler: bool

    /** An inactive tap holds no Core Audio object and no handler. */
    ghost predicate Valid()
      reads this
    {
      !activated ==> !tapValid && !aggregateValid && !hasInvalidationHandler
    }

    constructor ()
      ensures Valid() && !activated && !tapValid && !aggregateValid && !hasInvalidationHandler
    {
      activated, tapValid, aggregateValid, hasInvalidationHandler := false, false, false, false;
    }

    /** `activate`: a no-op when already activated; otherwise marks the tap activated
        and prepares it, where tapCreated and aggregateCreated say which Core Audio
        objects `prepare` managed to create. */
    method Activate(tapCreated: bool, aggregateCreated: bool)
      requires Valid()
      modifies this
      ensures Valid()
      ensures old(activated) ==>
                activated && tapValid == old(tapValid) && aggregateValid == old(aggregateValid) &&
                hasInvalidationHandler == old(hasInvalidationHandler)
      ensures !old(activated) ==>
                activated && tapValid == (old(tapValid) || tapCreated) &&
                aggregateValid == (old(aggregateValid) || (tapCreated && aggregateCreated)) &&
                hasInvalidationHandler == old(hasInvalidationHandler)
    {
      if activated {
        return;
      }
      activated := true;
      if tapCreated {
        tapValid := true;
        if aggregateCreated {
          aggregateValid := true;
        }
      }
    }

    /** `run`: installs the invalidation handler of an activated tap. */
    method Run()
      requires Valid() && activated && !hasInvalidationHandler
      modifies this
      ensures Valid() && hasInvalidationHandler && activated
      ensures tapValid == old(tapValid) && aggregateValid == old(aggregateValid)
    {
      hasInvalidationHandler := true;
    }

    /** `invalidate`: a no-op when not activated; otherwise calls and drops the handler,
        destroys the aggregate device and the tap, and always ends deactivated. */
    method Invalidate()
      requires Valid()
      modifies this
      ensures Valid()
      ensures !old(activated) ==>
                !activated && tapValid == old(tapValid) && aggregateValid == old(aggregateValid) &&
                hasInvalidationHandler == old(hasInvalidationHandler)
      ensures old(activated) ==> !activated && !tapValid && !aggregateValid && !hasInvalidationHandler
    {
      if !activated {
        return;
      }
      hasInvalidationHandler := false;
      if aggregateValid {
        aggregateValid := false;
      }
      if tapValid {
        tapValid := false;
      }
      activated := false;
    }

    /** `cleanup`: invalidates an activated tap. */
    method Cleanup()
      requires Valid()
      modifies this
      ensures Valid()
      ensures !activated
      ensures !old(activated) ==> tapValid == old(tapValid) && aggregateValid == old(aggregateValid)
      ensures old(activated) ==> !tapValid && !aggregateValid && !hasInvalidationHandler
    {
      if activated {
        Invalidate();
      }
    }
  }
}
