/** The spectrum step of the Core Audio capture (Milky/DSP/audio.cpp): choosing the
    transform size for a buffer of samples, turning amplitudes into 8-bit bins centred
    on 128, and the I/O callback that converts the buffer to an 8-bit waveform,
    publishes waveform and spectrum, and counts callbacks per second.

    The transform itself (vDSP packing, the FFT, squared magnitudes and their square
    root) is a parameter: a function from the samples and the transform size to
    non-negative amplitudes. */
module AudioFft {
  import opened Numeric
  import opened Video

  // ---------------------------------------------------------------------------
  // Transform size

  /** `fftSizes`: the transform sizes set up in advance, smallest first. */
  const FftSizes: seq<nat> := [128, 256, 512, 1024, 2048]

  /** The size used when none of FftSizes holds the samples. */
  const LargestFftSize: nat := 2048

  /** The size search of `performFFT`: the first, hence smallest, size that holds
      sampleCount samples, or the largest size when none does. */
  method SelectFftSize(sampleCount: int) returns (fftSize: nat, index: nat)
    ensures index < |FftSizes| && fftSize == FftSizes[index]
    ensures sampleCount <= LargestFftSize ==>
              sampleCount <= fftSize &&
              forall i :: 0 <= i < |FftSizes| && sampleCount <= FftSizes[i] ==> fftSize <= FftSizes[i]
    ensures sampleCount > LargestFftSize ==> fftSize == LargestFftSize
  {
    var i := 0;
    while i < |FftSizes| && FftSizes[i] < sampleCount
      invariant 0 <= i <= |FftSizes|
      invariant forall j :: 0 <= j < i ==> FftSizes[j] < sampleCount
    {
      i := i + 1;
    }
    if i < |FftSizes| {
      fftSize, index := FftSizes[i], i;
    } else {
      fftSize, index := FftSizes[|FftSizes| - 1], |FftSizes| - 1;
    }
  }

  // ---------------------------------------------------------------------------
  // Amplitudes to bins

  /** `scaledValue`: an amplitude normalised by 2/fftSize, scaled to half the byte
      range and offset to its middle. */
  function Scaled(amplitude: real, fftSize: nat): (v: real)
    requires fftSize > 0
    ensures amplitude >= 0.0 ==> v >= 128.0
  {
    amplitude * (2.0 / fftSize as real) * 127.5 + 128.0
  }

  /** `clampedValue`: 0 below 0, 255 above 255, the truncated value otherwise. */
  function Bin(amplitude: real, fftSize: nat): (b: Byte)
    requires fftSize > 0
    ensures Scaled(amplitude, fftSize) < 0.0 ==> b == 0
    ensures Scaled(amplitude, fftSize) > 255.0 ==> b == 255
    ensures 0.0 <= Scaled(amplitude, fftSize) <= 255.0 ==> b == Scaled(amplitude, fftSize).Floor
  {
    var v := Scaled(amplitude, fftSize);
    if v < 0.0 then 0 else if v > 255.0 then 255 else Trunc(v)
  }

  /** A non-negative amplitude gives a bin in the upper half of the byte range. */
  lemma BinUpperHalf(amplitude: real, fftSize: nat)
    requires fftSize > 0 && amplitude >= 0.0
    ensures 128 <= Bin(amplitude, fftSize) <= 255
  {
  }

  /** The bins of the first n amplitudes. */
  function Bins(amplitudes: seq<real>, n: nat, fftSize: nat): (bins: seq<Byte>)
    requires n <= |amplitudes| && fftSize > 0
    ensures |bins| == n && forall i :: 0 <= i < n ==> bins[i] == Bin(amplitudes[i], fftSize)
  {
    seq(n, i requires 0 <= i < n => Bin(amplitudes[i], fftSize))
  }

  /** Every bin of non-negative amplitudes lies in [128, 255]. */
  lemma BinsUpperHalf(amplitudes: seq<real>, n: nat, fftSize: nat)
    requires n <= |amplitudes| && fftSize > 0
    requires forall i :: 0 <= i < |amplitudes| ==> amplitudes[i] >= 0.0
    ensures forall i :: 0 <= i < n ==> 128 <= Bins(amplitudes, n, fftSize)[i] <= 255
  {
    forall i | 0 <= i < n
      ensures 128 <= Bins(amplitudes, n, fftSize)[i] <= 255
    {
      BinUpperHalf(amplitudes[i], fftSize);
    }
  }

  // ---------------------------------------------------------------------------
  // The square-root count

  /** The element count `performFFT` passes to vvsqrtf: `sampleCount`, as written. */
  function SqrtCountAsWritten(sampleCount: nat): nat
  {
    sampleCount
  }

  /** The magnitude arrays `magnitudes` and `sqrtMagnitudes` hold fftSize/2 floats. */
  function MagnitudeCapacity(fftSize: nat): nat
  {
    fftSize / 2
  }

  /** For every buffer of more than 64 samples that a transform size holds, the size
      chosen (the smallest that holds it) is below twice the sample count, so vvsqrtf
      reads and writes past the fftSize/2 floats of the magnitude arrays: 512 samples,
      for one, select size 512, arrays of 256 floats, and a count of 512. */
  lemma {:induction false} SqrtCountAsWrittenOverruns(sampleCount: nat, fftSize: nat)
    requires 64 < sampleCount <= fftSize && fftSize in FftSizes
    requires forall i :: 0 <= i < |FftSizes| && sampleCount <= FftSizes[i] ==> fftSize <= FftSizes[i]
    ensures SqrtCountAsWritten(sampleCount) > MagnitudeCapacity(fftSize)
  {
    if fftSize == 256 {
      assert FftSizes[0] == 128;
    } else if fftSize == 512 {
      assert FftSizes[1] == 256;
    } else if fftSize == 1024 {
      assert FftSizes[2] == 512;
    } else if fftSize == 2048 {
      assert FftSizes[3] == 1024;
    }
  }

  /** The count the magnitudes are computed for: the sampleCount/2 values vDSP_zvmags
      produced and the bins loop reads. */
  function SqrtCount(sampleCount: nat): (n: nat)
    ensures n == BinCount(sampleCount)
  {
    sampleCount / 2
  }

  /** `sampleCount / 2`: the number of bins written. */
  function BinCount(sampleCount: nat): nat
  {
    sampleCount / 2
  }

  /** With the corrected count, whenever the chosen size holds the samples the square
      root stays within the arrays. */
  lemma SqrtCountFits(sampleCount: nat, fftSize: nat)
    requires sampleCount <= fftSize
    ensures SqrtCount(sampleCount) <= MagnitudeCapacity(fftSize)
  {
  }

  // ---------------------------------------------------------------------------
  // performFFT

  /** The transform: the amplitudes of the samples at a given transform size. */
  ghost predicate IsTransform(amplitudesOf: (seq<real>, nat) -> seq<real>)
  {
    forall s: seq<real>, n: nat :: |amplitudesOf(s, n)| == n / 2 &&
      forall i :: 0 <= i < |amplitudesOf(s, n)| ==> amplitudesOf(s, n)[i] >= 0.0
  }

  /** `performFFT`: selects the transform size, takes the amplitudes of the samples and
      writes sampleCount/2 bins. A buffer larger than the largest transform overruns
      the magnitude arrays, so it is excluded. */
  method PerformFft(samples: seq<real>, sampleCount: nat, frequencyBins: array<Byte>,
                    amplitudesOf: (seq<real>, nat) -> seq<real>)
      returns (fftSize: nat)
    requires sampleCount <= |samples| && sampleCount <= LargestFftSize
    requires BinCount(sampleCount) <= frequencyBins.Length
    requires IsTransform(amplitudesOf)
    modifies frequencyBins
    ensures fftSize in FftSizes && sampleCount <= fftSize
    ensures SqrtCount(sampleCount) <= MagnitudeCapacity(fftSize)
    ensures frequencyBins[..BinCount(sampleCount)] ==
              Bins(amplitudesOf(samples[..sampleCount], fftSize), BinCount(sampleCount), fftSize)
    ensures frequencyBins[BinCount(sampleCount)..] == old(frequencyBins[BinCount(sampleCount)..])
    ensures forall i :: 0 <= i < BinCount(sampleCount) ==> 128 <= frequencyBins[i] <= 255
  {
    var index;
    fftSize, index := SelectFftSize(sampleCount);
    SqrtCountFits(sampleCount, fftSize);
    var sqrtMagnitudes := amplitudesOf(samples[..sampleCount], fftSize);
    var n := BinCount(sampleCount);
    BinsUpperHalf(sqrtMagnitudes, n, fftSize);
    for i := 0 to n
      invariant frequencyBins[..i] == Bins(sqrtMagnitudes, n, fftSize)[..i]
      invariant frequencyBins[n..] == old(frequencyBins[n..])
    {
      var scaledValue := Scaled(sqrtMagnitudes[i], fftSize);
      var clampedValue := if scaledValue < 0.0 then 0 else if scaledValue > 255.0 then 255 else Trunc(scaledValue);
      frequencyBins[i] := clampedValue;
      assert frequencyBins[..i + 1] == Bins(sqrtMagnitudes, n, fftSize)[..i + 1];
    }
    assert frequencyBins[..n] == Bins(sqrtMagnitudes, n, fftSize)[..n];
  }

  // ---------------------------------------------------------------------------
  // The I/O callback

  /** The 8-bit waveform sample of a float sample in [-1, 1]: `(uint8_t)((x + 1) * 127.5)`. */
  function WaveformByte(x: real): (b: Byte)
    ensures -1.0 <= x <= 1.0 ==> b == ((x + 1.0) * 127.5).Floor
  {
    FloatToUint8((x + 1.0) * 127.5)
  }

  /** The waveform of the first n samples. */
  function WaveformOf(samples: seq<real>, n: nat): (w: seq<Byte>)
    requires n <= |samples|
    ensures |w| == n && forall i :: 0 <= i < n ==> w[i] == WaveformByte(samples[i])
  {
    seq(n, i requires 0 <= i < n => WaveformByte(samples[i]))
  }

  /** The callback's frame-rate statics `lastTime` and `frameCounter`. */
  class CaptureState {
    var lastTime: real
    var frameCounter: nat

    constructor ()
      ensures lastTime == 0.0 && frameCounter == 0
    {
      lastTime := 0.0;
      frameCounter := 0;
    }

    /** `AudioDeviceIOProcCallback` at time currentTime (seconds), with an input buffer
        of byteSize bytes holding samples when present. `logged` tells whether the
        callback rate is printed. */
    method Callback(currentTime: real, input: bool, byteSize: nat, samples: seq<real>,
                    amplitudesOf: (seq<real>, nat) -> seq<real>, data: AudioData)
        returns (logged: bool)
      requires input ==> byteSize / 4 <= |samples| && byteSize / 4 <= LargestFftSize
      requires IsTransform(amplitudesOf)
      modifies this, data
      ensures logged <==> currentTime - old(lastTime) >= 1.0
      ensures logged ==> lastTime == currentTime && frameCounter == 1
      ensures !logged ==> lastTime == old(lastTime) && frameCounter == old(frameCounter) + 1
      ensures !input ==> data.waveform == old(data.waveform) && data.spectrum == old(data.spectrum)
      ensures input ==> data.waveform == WaveformOf(samples, byteSize / 4)
      ensures input ==> |data.spectrum| == BinCount(byteSize / 4) &&
                        forall i :: 0 <= i < |data.spectrum| ==> 128 <= data.spectrum[i] <= 255
    {
      var deltaTime := currentTime - lastTime;
      logged := deltaTime >= 1.0;
      if logged {
        lastTime := currentTime;
        frameCounter := 0;
      }
      if input {
        var sampleCount := byteSize / 4;
        var waveform := new Byte[sampleCount];
        var frequencyBins := new Byte[BinCount(sampleCount)];
        for i := 0 to sampleCount
          modifies waveform
          invariant waveform[..i] == WaveformOf(samples, sampleCount)[..i]
        {
          waveform[i] := WaveformByte(samples[i]);
          assert waveform[..i + 1] == WaveformOf(samples, sampleCount)[..i + 1];
        }
        assert waveform[..] == WaveformOf(samples, sampleCount);
        var _ := PerformFft(samples, sampleCount, frequencyBins, amplitudesOf);
        data.UpdateAudioData(waveform[..], frequencyBins[..]);
      }
      frameCounter := frameCounter + 1;
    }
  }
}
