# Milky visualizer core in Dafny

This project models the buffer-level core of the Milky audio visualizer. The core is the
C renderer under `Milky/Visualizer`, the Core Audio glue under `Milky/DSP`, and the Swift
process tap in `Milky/ProcessTap/ProcessTap.swift`. It then proves properties of that model.

The model covers these parts, one Dafny module per source file:

- `Numeric` (numeric.dfy): the C and Swift scalar semantics the other modules share.
  These are size_t wrap-around, truncating and rounding float-to-int conversion, and byte
  clamping.
- `Draw` (draw.c): `clearFrame`, the bounds-checked `setPixel`, and Bresenham's
  `drawLine` with its per-step clamping. The line is modelled as the path of points it
  visits, and the painted canvas is a fold of that path.
- `Palette` (palette.c): the 256-entry palette table as a class over an `array2`, the
  four palette families, the regeneration rule, and the red-channel remap of the canvas.
- `Energy` (energy.c): the biquad filter, as a value and as a mutable class. Also the
  spike detector's static state, its one-time initialisation, the noise gate, the moving
  averages, the weighted spectral flux, and the cooldown counter.
- `Sound` (sound.c): bass-emphasis smoothing and its average offset, `fpart`/`rfpart`,
  Xiaolin Wu's anti-aliased line, and the cached, every-other-frame waveform renderer.
- `Transform` (transform.c): `rotate` and `scale`. Both are stated as a resampling
  through an inverse coordinate map, followed by a blend or a copy-back. The rotation's
  target-angle state is covered too.
- `Video` (video.c): the double-buffer flags, the published audio data, the buffer
  reservation rule, `render`'s frame-to-frame state, and the frame it draws as a pipeline
  of stages over the history.
- `Scheduler` (DSP/video.cpp): the millisecond clock, the frame-rate measurement, the
  log throttle, and the adaptive sleep time of the render thread. The double buffer is
  `Video`'s, because both files define the same three functions.
- `AudioFft` (DSP/audio.cpp): the transform-size search, the 8-bit spectrum bins, and
  the Core Audio I/O callback.
- `ProcessTap` (ProcessTap.swift): the Swift transform-size choice, sample and spectrum
  bytes, the every-other-buffer spectrum throttle, and the tap's activation guards.

Floats become reals. The values the program takes from outside are parameters of the
operations that use them:

- `sin`, `cos` and `sqrt`;
- the values `rand()` returns;
- clock readings;
- the FFT amplitudes;
- the stages whose source is not part of this model: `blurFrame`, `preserveMassFade`,
  `renderChasers` and `reduceBitDepth`. The model only requires that each keeps the
  length of its buffer.

The four constants of `energy.h` are constructor parameters of
`Energy.SpikeDetector`. They are the cooldown period, the noise gate, and the maximum
spectrum and waveform lengths. `energy.h` is not part of this model. The 500 Hz cutoff
is taken from the comments at energy.c:16, 114 and 117.

The bass-emphasis smoothing weights each sample as `0.1 * w[i] + 0.2 * w[i+2]`
(sound.c:22).

## Model

| member | source | states |
|---|---|---|
| Numeric.SizeSub | Milky/Visualizer/video/palette.c:94 | the size_t difference `a - b` is `a - b` when a ≥ b and wraps to 2^64 - (b - a) otherwise |
| Numeric.AsSize | Milky/Visualizer/audio/sound.c:188-192 | an int converted to size_t is unchanged when in range and becomes 2^64 + v when negative |
| Numeric.Trunc | Milky/Visualizer/video/transform.c:51-52 | `(int)x` truncates toward zero: the floor for x ≥ 0, the ceiling for x < 0 |
| Numeric.RoundF | Milky/Visualizer/video/transform.c:109-110 | `roundf` is within 0.5 of x, and halves round away from zero |
| Numeric.ClampByte | Milky/ProcessTap/ProcessTap.swift:312-313 | `max(0, min(255, v))` is v in [0, 255], 0 below, 255 above |
| Numeric.FloatToUint8 | Milky/DSP/audio.cpp:135 | a `(uint8_t)` cast of a float in [0, 256) is its floor |
| Draw.ClearFrame | Milky/Visualizer/video/draw.c:10-12 | every byte below frameSize is 0 and every later byte is unchanged |
| Draw.SecondGuardNeverFires | Milky/Visualizer/video/draw.c:34-35 | once x < width and y < height, `index + 3 < width * height * 4`, so the second guard never returns |
| Draw.SetPixelSpec | Milky/Visualizer/video/draw.c:29-42 | out of bounds the frame is unchanged; in bounds exactly bytes (y·w+x)·4 .. +3 hold r, g, b, a and all others are unchanged |
| Draw.SetPixel | Milky/Visualizer/video/draw.c:29-42 | the frame after setPixel is SetPixelSpec of the frame before |
| Draw.PitchOffset | Milky/Visualizer/video/draw.c:73-80 | drawLine's `y * pitch + x * 4` is the same byte offset setPixel computes |
| Draw.StepProgress | Milky/Visualizer/video/draw.c:88-105 | one loop step keeps the error-term invariant, strictly decreases the distance \|x1-x\|+\|y1-y\| to the end point, and moves each coordinate by at most 1 |
| Draw.AxisMove | Milky/Visualizer/video/draw.c:90-105 | with in-canvas endpoints a step stays between the endpoints, so the clamping never changes it |
| Draw.Line | Milky/Visualizer/video/draw.c:75-106 | every point the loop visits lies in [0, width-1] × [0, height-1] |
| Draw.LinePathEnds | Milky/Visualizer/video/draw.c:75-86 | the path starts at (x0, y0), ends at (x1, y1), reaches (x1, y1) only at its last point, and has at most dx + dy + 1 points, so the loop terminates |
| Draw.LinePathInBox | Milky/Visualizer/video/draw.c:88-105 | every visited point lies in the bounding box of the two endpoints and in the canvas |
| Draw.LinePathConnected | Milky/Visualizer/video/draw.c:88-105 | consecutive visited points are 8-neighbours |
| Draw.LineFacts | Milky/Visualizer/video/draw.c:64-107 | the line starts at the start point, ends at the end point, is connected, stays in the canvas and has at most dx + dy + 1 points |
| Draw.PaintPathUnchanged | Milky/Visualizer/video/draw.c:80-84 | a byte outside the 4-byte groups of the visited pixels keeps its value |
| Draw.PaintPathWritten | Milky/Visualizer/video/draw.c:80-84 | a byte inside a visited pixel's group holds the matching channel of the colour |
| Draw.PixelGroupUnique | Milky/Visualizer/video/draw.c:80 | two in-canvas pixels whose groups share a byte have the same offset |
| Draw.DrawLine | Milky/Visualizer/video/draw.c:64-107 | the screen after drawLine is the old screen painted along Line |
| Draw.CopyBytes | Milky/Visualizer/video.c:279 | `memcpy` of n bytes: the first n bytes equal the source and the rest are unchanged |
| Palette.Sqrt8 | Milky/Visualizer/video/palette.c:37 | `(uint8_t)(sqrtf(a) * 8)` is the integer square root of 64a, at most 63 for a < 64 |
| Palette.FamilyEntryDim | Milky/Visualizer/video/palette.c:33-78 | every component of every entry of every family is at most MILKY_MAX_COLOR (63) |
| Palette.EntryZeroBlack | Milky/Visualizer/video/palette.c:36-72 | entry 0 of every family is black |
| Palette.Square64Monotone | Milky/Visualizer/video/palette.c:37 | `a * a / 64` is non-decreasing in a |
| Palette.Sqrt8Monotone | Milky/Visualizer/video/palette.c:37 | `sqrtf(a) * 8` truncated is non-decreasing in a |
| Palette.GradientMonotone | Milky/Visualizer/video/palette.c:36-72 | in every family the first 64 entries brighten component-wise |
| Palette.FadeMonotone | Milky/Visualizer/video/palette.c:62-65 | the amber fade `(256 - a) * 63 / 192` is 63 at a = 64, 0 at a = 255 and non-increasing |
| Palette.UpperIsBrightest | Milky/Visualizer/video/palette.c:40-42 | in families 0, 1 and 3 entries 64..255 are (63, 63, 63), and no entry exceeds them |
| Palette.FirstCallRegenerates | Milky/Visualizer/video/palette.c:94-97 | with no previous generation the palette is regenerated |
| Palette.RegenerateIff | Milky/Visualizer/video/palette.c:94 | after an earlier generation, regeneration happens iff a spike was detected and more than 10000 ms have passed |
| Palette.BackwardsClockRegenerates | Milky/Visualizer/video/palette.c:94 | a clock behind the last generation time wraps the size_t difference and regenerates on a spike |
| Palette.RemappedStep | Milky/Visualizer/video/palette.c:100-108 | pixel i reads its still-unchanged red byte and becomes palette[red] with alpha 255 |
| Palette.RemapReadsRedOnly | Milky/Visualizer/video/palette.c:100-108 | the remapped canvas depends only on each pixel's old red byte |
| Palette.RemapWithGeneratedIsDim | Milky/Visualizer/video/palette.c:100-108 | after a remap with a generated palette every pixel's RGB is at most 63 and its alpha is 255 |
| Palette.PaletteTable.constructor | Milky/Visualizer/video/palette.c:4-5 | the table starts all zero and the last generation time at 0 |
| Palette.PaletteTable.SetRGB | Milky/Visualizer/video/palette.c:15-19 | entry index becomes (r, g, b) and every other entry is unchanged |
| Palette.PaletteTable.Generate | Milky/Visualizer/video/palette.c:25-79 | every entry equals the entry of family `rand % 4` |
| Palette.PaletteTable.Recolour | Milky/Visualizer/video/palette.c:99-108 | the canvas becomes the remap of the old canvas through the table |
| Palette.PaletteTable.ApplyToCanvas | Milky/Visualizer/video/palette.c:90-109 | the table is regenerated and the time recorded exactly when the rule fires, and otherwise both are unchanged; the canvas is then remapped |
| Energy.RunOutputs | Milky/Visualizer/audio/energy.c:77-82 | filtering a run of samples keeps its length |
| Energy.RunStateHistory | Milky/Visualizer/audio/energy.c:63-65 | after a run, z1 is the last input and z2 the one before, and the coefficients are unchanged |
| Energy.RunOutputsClosedForm | Milky/Visualizer/audio/energy.c:58-68 | each output is a0·x[i] + (a1−b1)·x[i−1] + (a2−b2)·x[i−2]: since z holds inputs, the filter is a 3-tap FIR |
| Energy.ConstantPassesThrough | Milky/Visualizer/audio/energy.c:58-68 | with unity gain and delay elements holding v, a constant run of v is output unchanged |
| Energy.LowPassDesignFacts | Milky/Visualizer/audio/energy.c:23-49 | the designed filter has a2 = a0, a1 = 2·a0, z1 = z2 = 0 and unity gain on a constant signal |
| Energy.BiquadFilter.constructor | Milky/Visualizer/audio/energy.c:109 | the static filter starts with all fields 0 |
| Energy.BiquadFilter.Init | Milky/Visualizer/audio/energy.c:23-49 | the filter becomes the normalised low-pass design for ω = 2π·cutoff/sampleRate, with zero delay elements |
| Energy.BiquadFilter.ProcessSample | Milky/Visualizer/audio/energy.c:58-68 | the output is a0·in + a1·z1 + a2·z2 − b1·z1 − b2·z2; then z2 := old z1 and z1 := in |
| Energy.BiquadFilter.ApplyLowPass | Milky/Visualizer/audio/energy.c:77-82 | the first length samples are replaced by the filtered run, left to right; the rest and the length are unchanged |
| Energy.RunStep | Milky/Visualizer/audio/energy.c:79-81 | one more sample appends one processSample output and shifts the state |
| Energy.BinWidth | Milky/Visualizer/audio/energy.c:112 | the bin width times 2·spectrumLength is the sample rate |
| Energy.MaxBinExact | Milky/Visualizer/audio/energy.c:118-120 | bin i is below maxBin iff (i+1)·binWidth ≤ 500 Hz, i < spectrumLength and i < MAX_SPECTRUM |
| Energy.Weight | Milky/Visualizer/audio/energy.c:124-125 | every weight `1 / (frequency + 1e-6)` is positive |
| Energy.WeightDecreasing | Milky/Visualizer/audio/energy.c:123-126 | higher bins get strictly smaller weights |
| Energy.SumSquares | Milky/Visualizer/audio/energy.c:139-143 | the accumulated energy is non-negative |
| Energy.SumOfSquares | Milky/Visualizer/audio/energy.c:139-143 | the loop computes the sum of squares of the first n filtered samples |
| Energy.FluxTermBounds | Milky/Visualizer/audio/energy.c:166-173 | a flux term lies between 0 and 255 times its weight |
| Energy.WeightSumNonNegative | Milky/Visualizer/audio/energy.c:175 | the sum of non-negative weights is non-negative |
| Energy.PositiveFluxRange | Milky/Visualizer/audio/energy.c:164-176 | the positive flux lies between 0 and 255 times the sum of weights |
| Energy.PositiveFluxZero | Milky/Visualizer/audio/energy.c:164-176 | a spectrum nowhere above the previous one has zero flux |
| Energy.SpectralFluxBounds | Milky/Visualizer/audio/energy.c:160-179 | the normalised flux is non-negative, at most 255 when the weights sum to more than 0, and 0 when no bin rose |
| Energy.CounterAfterConcat | Milky/Visualizer/audio/energy.c:186-200 | the cooldown counter after two runs of calls is the counter after the first, carried through the second |
| Energy.CounterGrowth | Milky/Visualizer/audio/energy.c:186-200 | the counter stays non-negative and grows by at most one per non-gated call |
| Energy.FiresSeparated | Milky/Visualizer/audio/energy.c:186-200 | between two spikes there are at least COOLDOWN non-gated calls |
| Energy.GatedKeepCounter | Milky/Visualizer/audio/energy.c:149-152 | gated calls leave the cooldown counter unchanged |
| Energy.FirstOpenCallFiresIff | Milky/Visualizer/audio/energy.c:186-189 | since the counter starts at COOLDOWN, the first non-gated call fires iff energyRatio > 1.3, fluxRatio > 1.4 and energy > 0.15 |
| Energy.SpikeDetector.constructor | Milky/Visualizer/audio/energy.c:3-13 | the statics start at 0, the counter at COOLDOWN, and uninitialised |
| Energy.SpikeDetector.Initialize | Milky/Visualizer/audio/energy.c:110-128 | sets the bin width, the filter, maxBin = min(⌊500/binWidth⌋, spectrumLength, MAX) and weights below maxBin; the averages, counter and flag are untouched |
| Energy.SpikeDetector.FillWeights | Milky/Visualizer/audio/energy.c:123-126 | weights below count are set and all other weights stay as they were |
| Energy.SpikeDetector.FilteredEnergy | Milky/Visualizer/audio/energy.c:130-146 | the energy is the RMS of the filtered, centred first min(L, MAX) samples, and the filter state advances over them |
| Energy.SpikeDetector.FilterInto | Milky/Visualizer/audio/energy.c:131-136 | the buffer holds the filter's outputs on the centred samples |
| Energy.SpikeDetector.SpectralFlux | Milky/Visualizer/audio/energy.c:159-179 | returns the normalised weighted positive flux, overwrites previousSpectrum[0..bins) with the spectrum, and leaves the rest |
| Energy.SpikeDetector.DetectEnergySpike | Milky/Visualizer/audio/energy.c:94-201 | initialises (bin width, maxBin, weights, filter) only on the first call; the filter runs over the first min(L, MAX) centred samples either way; the call is gated exactly when their RMS is below the noise gate, and then the averages and previous spectrum are kept; otherwise it carries the RMS and both ratios, both EMAs move and the first min(L, MAX) bins of the previous spectrum become the new ones while the rest are kept; the flag and counter follow the cooldown rule |
| Energy.SpikeDetector.GateAndDetect | Milky/Visualizer/audio/energy.c:130-200 | after initialisation, the same CallEffect as DetectEnergySpike from the static filter: filter state, gate iff RMS < noise gate, averages, flux, previous spectrum and cooldown |
| Energy.SpikeDetector.OpenCall | Milky/Visualizer/audio/energy.c:154-200 | past the gate: the energy EMA and ratio, the flux, its EMA and ratio, the overwrite, and the fire/counter rule |
| Sound.Smoothed | Milky/Visualizer/audio/sound.c:21-23 | the output has exactly L − 2 values |
| Sound.TotalOffsetIsDifference | Milky/Visualizer/audio/sound.c:19-25 | the accumulated offset is the sum of the smoothed values minus the sum of the raw samples |
| Sound.ConstantWaveformOffset | Milky/Visualizer/audio/sound.c:19-27 | on a constant waveform c the average offset is (0.3·volumeScale − 1)·c |
| Sound.ConstantTotalOffset | Milky/Visualizer/audio/sound.c:19-25 | on a constant waveform the offset after n steps is n·(0.3·volumeScale − 1)·c |
| Sound.SmoothedBounds | Milky/Visualizer/audio/sound.c:22 | every smoothed value lies in [0, 76.5·volumeScale] |
| Sound.FPart | Milky/Visualizer/audio/sound.c:145-147 | fpart(x) lies in [0, 1) |
| Sound.RFPart | Milky/Visualizer/audio/sound.c:150-152 | rfpart(x) lies in (0, 1] and fpart(x) + rfpart(x) = 1 |
| Sound.FPartPeriodic | Milky/Visualizer/audio/sound.c:145-147 | fpart is unchanged by adding an integer |
| Sound.Orient | Milky/Visualizer/audio/sound.c:157-171 | steep iff \|dy\| > \|dx\|; after the swaps x0 ≤ x1 and the line is shallow |
| Sound.OrientSameSegment | Milky/Visualizer/audio/sound.c:157-171 | the swaps keep the same two endpoints, transposed when steep |
| Sound.GradientBounded | Milky/Visualizer/audio/sound.c:173-175 | the gradient lies in [−1, 1], so the main loop moves at most one row per column |
| Sound.InteryStep | Milky/Visualizer/audio/sound.c:224 | stepping intery by the gradient shifts the column index by one |
| Sound.MainPlotsShape | Milky/Visualizer/audio/sound.c:216-235 | the main loop plots columns xpxl1+1 .. xpxl2−1, two pixels per column, at rows ⌊intery + j·gradient⌋ and one below |
| Sound.MainPlotsLength | Milky/Visualizer/audio/sound.c:218 | the main loop plots 2·max(0, xEnd − x) pixels |
| Sound.WuPlotsCount | Milky/Visualizer/audio/sound.c:177-235 | the whole line plots 4 endpoint pixels plus two per interior column |
| Sound.PlotPixel | Milky/Visualizer/video/draw.c:29-42 | plotting through setPixel keeps the canvas length |
| Sound.NegativeCoordinateIgnored | Milky/Visualizer/audio/sound.c:222-223 | a negative int coordinate becomes a huge size_t and setPixel drops it |
| Sound.ApplyPlotsUnchanged | Milky/Visualizer/audio/sound.c:155-236 | bytes no plotted pixel covers keep their value |
| Sound.PlotPixelAt | Milky/Visualizer/audio/sound.c:222-223 | one setPixel call on int coordinates equals PlotPixel |
| Sound.PlotEndpoint | Milky/Visualizer/audio/sound.c:177-214 | returns xpxl = round(x) and yend, and paints the two endpoint pixels |
| Sound.DrawLineWu | Milky/Visualizer/audio/sound.c:155-236 | the frame after drawLineWu is the old frame with the endpoint and main-loop plots applied in order |
| Sound.Swap | Milky/Visualizer/audio/sound.c:157-171 | the swapped locals are Orient of the inputs: axes exchanged iff the line is steep, then ordered left to right |
| Sound.PlotMainLoop | Milky/Visualizer/audio/sound.c:216-235 | the loop applies exactly the main plots |
| Sound.PlotColumn | Milky/Visualizer/audio/sound.c:216-234 | one loop iteration paints the two pixels of its column, rows ⌊intery⌋ and one below, swapped back when steep: exactly the next two plots of the main loop |
| Sound.CapX | Milky/Visualizer/audio/sound.c:261 | x is kept when below the width; otherwise the result is below the width and not above x |
| Sound.ClampY | Milky/Visualizer/audio/sound.c:265 | y is kept inside [0, height) and clamped to 0 or height − 1 outside it |
| Sound.SegmentEnds | Milky/Visualizer/audio/sound.c:258-273 | both segment endpoints have x below the width and y in [0, height) |
| Sound.SegmentPlotsAre | Milky/Visualizer/audio/sound.c:258-279 | segment i is Wu's line between its clamped endpoints in white with alpha (1 − s/255)·globalAlpha |
| Sound.RefreshCountHalf | Milky/Visualizer/audio/sound.c:253-256 | over n calls the cache is refreshed ⌈n/2⌉ times from an even counter and ⌊n/2⌋ from an odd one |
| Sound.WaveformState.constructor | Milky/Visualizer/audio/sound.c:4-10 | the offset and the frame counter start at 0 |
| Sound.WaveformState.SmoothBassEmphasizedWaveform | Milky/Visualizer/audio/sound.c:12-28 | writes exactly indices 0..L−3 with volumeScale·(0.1·w[i] + 0.2·w[i+2]) and stores the average offset |
| Sound.WaveformState.RenderWaveformSimple | Milky/Visualizer/audio/sound.c:238-281 | the counter grows by exactly 1; the cache is refreshed only when the old counter is even; the frame gets every segment |
| Sound.WaveformState.DrawCached | Milky/Visualizer/audio/sound.c:258-280 | draws the L − 1 segments of the cached waveform |
| Sound.WaveformState.DrawSegment | Milky/Visualizer/audio/sound.c:259-279 | one iteration draws the plots of segment i |
| Sound.CopyInto | Milky/Visualizer/audio/sound.c:254 | `memcpy` of the waveform into the cache: its prefix equals the waveform and the rest is kept |
| Transform.ByteAt | Milky/Visualizer/video/transform.c:57-58 | the index of channel c of an in-canvas pixel lies inside the canvas |
| Transform.OffsetDecompose | Milky/Visualizer/video/transform.c:57-58 | a byte index determines its pixel x, y and channel |
| Transform.EveryByteIsAPixel | Milky/Visualizer/video/transform.c:67-70 | each canvas byte is a channel of one in-canvas pixel |
| Transform.ResampledPixel | Milky/Visualizer/video/transform.c:100-125 | a destination pixel copies its source pixel when the source is in bounds and is 0 otherwise |
| Transform.IdentityResample | Milky/Visualizer/video/transform.c:100-125 | an inverse map that is the identity reproduces the canvas |
| Transform.RoundOfInteger | Milky/Visualizer/video/transform.c:109-110 | rounding an integral value returns it |
| Transform.ScaleByOneIsIdentity | Milky/Visualizer/video/transform.c:104-123 | with scale factor 1 the resampled canvas equals the input |
| Transform.RotateByZeroIsIdentity | Milky/Visualizer/video/transform.c:46-63 | with θ = 0 the rotated canvas equals the input |
| Transform.CopyPixel | Milky/Visualizer/video/transform.c:60 | the 4-byte memcpy writes the source pixel at dstIndex and nothing else |
| Transform.ResamplePixel | Milky/Visualizer/video/transform.c:104-123 | one inner-loop step fills one more pixel of temp |
| Transform.ResampleRow | Milky/Visualizer/video/transform.c:101-124 | one row of the loop fills one more row of temp |
| Transform.Resample | Milky/Visualizer/video/transform.c:92-125 | after the clear and the loops, temp is the resampled canvas and bytes past the canvas are untouched |
| Transform.BlendBetween | Milky/Visualizer/video/transform.c:69 | `trunc(0.3·f + 0.7·t)` lies between f and t |
| Transform.BlendSame | Milky/Visualizer/video/transform.c:69 | blending a byte with itself keeps it |
| Transform.BlendedBetween | Milky/Visualizer/video/transform.c:66-70 | every blended byte lies between its two inputs, and equal inputs are kept |
| Transform.BlendInto | Milky/Visualizer/video/transform.c:66-70 | the first w·h·4 frame bytes become the blend and later bytes are untouched |
| Transform.TargetDegrees | Milky/Visualizer/video/transform.c:30 | `rand() % 90 - 45` lies in [−45, 44] |
| Transform.Retarget | Milky/Visualizer/video/transform.c:28-31 | the target is redrawn only when \|last − target\| < 0.01, and then lies in [−45°, 44°] |
| Transform.NextTheta | Milky/Visualizer/video/transform.c:34 | the remaining distance to the target shrinks by the factor 0.995 |
| Transform.AdvanceApproaches | Milky/Visualizer/video/transform.c:28-35 | far from the target, one call keeps it and multiplies the distance by 0.995 |
| Transform.AdvanceAllApproaches | Milky/Visualizer/video/transform.c:28-35 | while the distance stays ≥ 0.01, n calls multiply it by 0.995^n |
| Transform.Rotator.constructor | Milky/Visualizer/video/transform.c:4-5 | both angles start at 0 |
| Transform.Rotator.Rotate | Milky/Visualizer/video/transform.c:22-71 | the angles advance; temp is the rotation resample of the old frame; the frame becomes the 0.3/0.7 blend; nothing past w·h·4 changes |
| Transform.Scale | Milky/Visualizer/video/transform.c:84-130 | temp is the scaling resample of the old frame, and the frame equals temp byte for byte |
| Video.Toggled | Milky/Visualizer/video.c:37-43 | display := old write flag, write := its negation |
| Video.ToggledTimesSeparates | Milky/Visualizer/video.c:24-43 | from the initial flags, write and display agree iff no toggle happened, and write alternates |
| Video.DoubleBuffer.constructor | Milky/Visualizer/video.c:22-25 | both flags start set |
| Video.DoubleBuffer.GetDisplayBuffer | Milky/Visualizer/video.c:29-34 | returns buffer A iff the display flag is set |
| Video.DoubleBuffer.GetWriteBuffer | Milky/Visualizer/video.c:46-48 | returns buffer A iff the write flag is set |
| Video.DoubleBuffer.ToggleBuffer | Milky/Visualizer/video.c:37-43 | the flags become Toggled of the old flags |
| Video.ToggledBuffersDiffer | Milky/Visualizer/video.c:37-48 | after at least one toggle the write buffer and the display buffer differ |
| Video.AudioData.constructor | Milky/Visualizer/video.c:14-17 | no audio data is published at first |
| Video.AudioData.UpdateAudioData | Milky/Visualizer/video.c:51-58 | the published waveform and spectrum become the given ones |
| Video.ReservationFor | Milky/Visualizer/video.c:294-345 | buffers are reallocated iff the dimensions changed; they are kept iff the dimensions are the same and the buffers exist and are large enough |
| Video.Reserved | Milky/Visualizer/video.c:294-345 | afterwards the buffers exist, hold frameSize bytes and record the dimensions; kept buffers are unchanged |
| Video.ReserveSettles | Milky/Visualizer/video.c:294-345 | a second reservation with the same size changes nothing |
| Video.TimeFrame | Milky/Visualizer/video.c:230 | 0.01 on the first frame, otherwise the size_t difference of the times in seconds |
| Video.NextFps | Milky/Visualizer/video.c:203-209 | the rate is recomputed only after an earlier frame and a positive delta, and is then 1000/delta |
| Video.Staged | Milky/Visualizer/video.c:252-271 | every drawing stage of render keeps the canvas length |
| Video.Drawn | Milky/Visualizer/video.c:252-271 | a pipeline of stages keeps the canvas length |
| Video.DrawnSnoc | Milky/Visualizer/video.c:252-271 | running one more stage after a pipeline is the longer pipeline |
| Video.StagedPair | Milky/Visualizer/video.c:256-257 | two stages run one after the other are the two-stage pipeline |
| Video.DrawnAppend | Milky/Visualizer/video.c:252-271 | two pipelines run one after the other are their concatenation |
| Video.WaveformStages | Milky/Visualizer/video.c:256-259 | the four passes are four stages that can run |
| Video.PairsDrawn | Milky/Visualizer/video.c:256-259 | two pairs of passes run one after the other are the four-pass pipeline |
| Video.TransformStages | Milky/Visualizer/video.c:264-271 | chasers, rotate and scale are three stages that can run |
| Video.RenderStages | Milky/Visualizer/video.c:252-271 | render's stages are eight stages that can run |
| Video.RenderStagesDrawn | Milky/Visualizer/video.c:252-271 | the remap and passes followed by the transforms are render's whole pipeline |
| Video.CacheAfterPass | Milky/Visualizer/audio/sound.c:253-255 | after a pass the cache is the waveform over the old tail when the pass refreshes it, and unchanged otherwise |
| Video.RefreshesAfterFour | Milky/Visualizer/video.c:256-259 | four passes keep the even parity of the shared counter |
| Video.RefreshAgain | Milky/Visualizer/audio/sound.c:253-255 | refreshing the cache a second time with the same waveform changes nothing |
| Video.Renderer.constructor | Milky/Visualizer/video.c:143-159 | the render statics start uninitialised, at time 0, with speed scalar 0.01 and no buffers |
| Video.Renderer.ReserveAndUpdateMemory | Milky/Visualizer/video.c:294-345 | a dimension change clears the frame and allocates fresh buffers; unchanged dimensions with large enough buffers change nothing |
| Video.Renderer.ReplaceBuffers | Milky/Visualizer/video.c:296-319 | fresh buffers of frameSize bytes and the new dimensions |
| Video.Renderer.GrowBuffers | Milky/Visualizer/video.c:321-344 | missing or too small buffers are reallocated and others are kept |
| Video.Renderer.RestoreHistory | Milky/Visualizer/video.c:232-250 | on the first frame, frame and history are cleared and the speed scalar is kept; later, speed is added and frame and temp equal the blurred history |
| Video.Renderer.DrawStages | Milky/Visualizer/video.c:252-271 | the scene's palette, counter, detector and angles follow StagesEffect of the old scene (regenerated palette, counter + 4, one detectEnergySpike call, rotation advanced once); the cache holds the emphasized waveform over the old tail; the frame is the eight render stages (palette remap, four passes, chasers, rotate, scale) drawn on the old frame with the new palette, cache and angle |
| Video.Renderer.PaintAndDetect | Milky/Visualizer/video.c:252-262 | PaintEffect of the old scene (palette, counter + 4, one detector call) with the angles and offset kept; the frame is the remap and the four passes drawn on the old frame |
| Video.Renderer.PaintWaveforms | Milky/Visualizer/video.c:252-259 | the palette is regenerated exactly when applyPaletteToCanvas decides so; the counter grows by 4 and keeps its parity; the cache holds the emphasized waveform over the old tail; the frame is the remap followed by the four passes |
| Video.Renderer.DrawWaveformPasses | Milky/Visualizer/video.c:256-259 | the counter grows by 4 and keeps its parity; the frame is the four passes with alphas 0.85, 0.95, 5.0, 0.95 at offsets 2, 1, 0, −1, the first from the cache as it was unless that pass refreshed it and the rest from the refreshed cache |
| Video.Renderer.DrawPassPair | Milky/Visualizer/video.c:256-257 | two consecutive passes: the counter grows by 2, the cache is refreshed, and the frame is the two-stage pipeline of the two passes |
| Video.Renderer.DrawPass | Milky/Visualizer/audio/sound.c:238-256 | one pass: the counter grows by 1, the cache is refreshed exactly on an even count, and the frame is that pass drawn from the cache the refresh leaves |
| Video.Renderer.ApplyTransforms | Milky/Visualizer/video.c:264-271 | the rotation advances once, and the frame is chasers (with the speed scalar), the rotate blend at the new angle, then the 1.35 zoom, drawn on the old frame |
| Video.Renderer.Render | Milky/Visualizer/video.c:177-284 | empty waveform or spectrum: frame, scene and statics unchanged; otherwise the buffers are reserved, the speed scalar advances except on the first frame, the scene follows FrameEffect, the first n frame bytes are the bit-depth stage of the eight render stages drawn on the history (zero on the first frame, the blurred previous frame otherwise), the history equals the frame, and the time and size are recorded |
| Video.Renderer.RenderFrame | Milky/Visualizer/video.c:202-283 | the frame of render once both inputs are non-empty: reservation, FrameEffect on the scene, and the frame drawn from the history then finished |
| Video.Renderer.BeginFrame | Milky/Visualizer/video.c:202-221 | the frame-rate estimate, the first history size and the reservation |
| Video.Renderer.ComposeAndEnd | Milky/Visualizer/video.c:223-283 | after the reservation: FrameEffect on the scene, the frame drawn from the history and finished by the bit-depth stage, and the history, time and size recorded |
| Video.Renderer.ComposeFrame | Milky/Visualizer/video.c:223-271 | the cache holds the bass-emphasized waveform of the input and the offset its average; the scene follows FrameEffect; the frame is the eight render stages drawn on the history; buffers and timing are kept and the speed scalar advances except on the first frame |
| Video.Renderer.RestoreAndDraw | Milky/Visualizer/video.c:232-271 | the history block then the drawing stages: StagesEffect on the scene, and the frame is the eight render stages drawn on the history |
| Video.Renderer.EndFrame | Milky/Visualizer/video.c:273-283 | the first frameSize bytes become the bit-depth stage of themselves (run only when bitDepth < 32), the rest and the scene are unchanged; afterwards history = frame, prevTime = currentTime and prevFrameSize = frameSize |
| Scheduler.CurrentTimeMillis | Milky/DSP/video.cpp:114-118 | `tv_sec·1000 + tv_usec/1000`: the seconds and the truncated milliseconds of the timeval |
| Scheduler.MillisMonotone | Milky/DSP/video.cpp:114-118 | a later timeval never gives fewer milliseconds |
| Scheduler.AdjustSleep | Milky/DSP/video.cpp:92-103 | too slow and above 1 ms: ⌊0.95·sleep⌋ but not below 1 ms; too fast and below 33 ms: ⌊1.05·sleep⌋ but not above 33 ms; otherwise unchanged; the range is kept |
| Scheduler.SleepAfterInRange | Milky/DSP/video.cpp:93-103 | from a sleep time in [1000, 33000] µs any sequence of measured rates keeps it in range |
| Scheduler.FrameRate | Milky/DSP/video.cpp:61-64 | the rate times the millisecond delta is 1000 |
| Scheduler.MeasuredFps | Milky/DSP/video.cpp:60-65 | the rate is recomputed when the size_t delta is positive and kept otherwise |
| Scheduler.LogDue | Milky/DSP/video.cpp:68-71 | the log fires iff at least 1000 ms have passed, and also when the clock went backwards |
| Scheduler.Step | Milky/DSP/video.cpp:59-103 | one iteration records the time, the measured rate, the log time and the adjusted sleep |
| Scheduler.StepAllSleep | Milky/DSP/video.cpp:54-103 | a run's sleep time is the adjustment over its measured rates and stays in [1000, 33000] µs from the initial 33000 |
| Scheduler.RenderLoop.constructor | Milky/DSP/video.cpp:53-57 | the loop starts with both times at the start time, sleep 33000 µs and rate 0 |
| Scheduler.RenderLoop.Iterate | Milky/DSP/video.cpp:59-108 | one loop body: the state becomes Step of the old state, the log fires iff due, and the buffers toggle |
| Scheduler.RenderLoop.Run | Milky/DSP/video.cpp:59-109 | n iterations give StepAll and n toggles |
| AudioFft.SelectFftSize | Milky/DSP/audio.cpp:52-67 | the smallest size ≥ sampleCount when one exists, else 2048 |
| AudioFft.Scaled | Milky/DSP/audio.cpp:84-86 | a non-negative amplitude scales to at least 128 |
| AudioFft.Bin | Milky/DSP/audio.cpp:86-87 | 0 below 0, 255 above 255, the truncated value otherwise |
| AudioFft.BinUpperHalf | Milky/DSP/audio.cpp:84-88 | a non-negative amplitude gives a bin in [128, 255] |
| AudioFft.Bins | Milky/DSP/audio.cpp:85-89 | exactly n bins, each the clamp of its amplitude |
| AudioFft.BinsUpperHalf | Milky/DSP/audio.cpp:84-89 | every bin lies in [128, 255] |
| AudioFft.SqrtCountAsWrittenOverruns | Milky/DSP/audio.cpp:76-81 | for every buffer of more than 64 samples the square-root count exceeds the fftSize/2 floats of the magnitude arrays |
| AudioFft.SqrtCountFits | Milky/DSP/audio.cpp:76-85 | with the count sampleCount/2 the square root stays within the arrays |
| AudioFft.PerformFft | Milky/DSP/audio.cpp:51-90 | selects a size that holds the samples and writes exactly sampleCount/2 bins, each the clamp of its amplitude and in [128, 255]; later bytes are untouched |
| AudioFft.WaveformByte | Milky/DSP/audio.cpp:135 | a sample in [−1, 1] becomes ⌊(x + 1)·127.5⌋ |
| AudioFft.WaveformOf | Milky/DSP/audio.cpp:134-136 | n bytes, each the conversion of its sample |
| AudioFft.CaptureState.constructor | Milky/DSP/audio.cpp:8-9 | lastTime and frameCounter start at 0 |
| AudioFft.CaptureState.Callback | Milky/DSP/audio.cpp:100-149 | the rate is logged iff a second has passed, which resets the counter; the counter otherwise grows by 1; with input, a waveform of byteSize/4 samples and a spectrum of half that many bins in [128, 255] are published |
| ProcessTap.AtMost | Milky/ProcessTap/ProcessTap.swift:39 | `filter { $0 <= n }` keeps exactly the sizes ≤ n |
| ProcessTap.MaxOf | Milky/ProcessTap/ProcessTap.swift:39 | `max()` is an element and bounds all others |
| ProcessTap.TapFftSize | Milky/ProcessTap/ProcessTap.swift:11-39 | the largest size ≤ frameLength, or 2048 when the buffer is below 128 |
| ProcessTap.TapSampleCount | Milky/ProcessTap/ProcessTap.swift:48 | `min(frameLength, fftSize)` equals fftSize once frameLength ≥ 128 |
| ProcessTap.TapSpectrum | Milky/ProcessTap/ProcessTap.swift:37-77 | sampleCount/2 non-negative normalised magnitudes |
| ProcessTap.Normalised | Milky/ProcessTap/ProcessTap.swift:72-75 | scaling by `2.0 / fftSize` keeps a non-negative amplitude non-negative |
| ProcessTap.SampleByte | Milky/ProcessTap/ProcessTap.swift:311-313 | a value in [−1, 1] becomes ⌊v·127.5 + 128⌋, and values out of range clamp to 0 or 255 |
| ProcessTap.SampleByteMonotone | Milky/ProcessTap/ProcessTap.swift:311-313 | the conversion is monotone and silence maps to 128 |
| ProcessTap.SampleBytes | Milky/ProcessTap/ProcessTap.swift:307-315 | one byte per value, in order |
| ProcessTap.PerformAndProcessFft | Milky/ProcessTap/ProcessTap.swift:305-316 | the loop yields SampleBytes of the transform result |
| ProcessTap.SpectrumBytesUpperHalf | Milky/ProcessTap/ProcessTap.swift:305-316 | non-negative magnitudes give bytes in [128, 255] |
| ProcessTap.SamplesOf | Milky/ProcessTap/ProcessTap.swift:395-418 | exactly frameLength bytes |
| ProcessTap.EqualChannelsDownmixToMono | Milky/ProcessTap/ProcessTap.swift:399-416 | two equal channels give the same bytes as one channel |
| ProcessTap.ProcessSamples | Milky/ProcessTap/ProcessTap.swift:395-418 | frameLength bytes of the (left + right)/2 downmix when there are several channels, of the first channel otherwise |
| ProcessTap.SpectrumRunsHalf | Milky/ProcessTap/ProcessTap.swift:285-293 | from a fresh counter, n buffers run the spectrum ⌊n/2⌋ times |
| ProcessTap.Recorder.constructor | Milky/ProcessTap/ProcessTap.swift:262-264 | no data, a zero counter and no spectrum runs at first |
| ProcessTap.Recorder.UpdateSamplesAndFft | Milky/ProcessTap/ProcessTap.swift:285-303 | the counter grows by 1 and the spectrum has run ⌊counter/2⌋ times; the samples are always published; the spectrum only when the counter is even, with bytes in [128, 255] |
| ProcessTap.Tap.constructor | Milky/ProcessTap/ProcessTap.swift:97-109 | not activated, with no tap, aggregate device or handler, so the invariant (deactivated ⇒ no objects and no handler) holds |
| ProcessTap.Tap.Activate | Milky/ProcessTap/ProcessTap.swift:112-126 | keeps the invariant; a no-op when already activated; otherwise activated, with the objects prepare created |
| ProcessTap.Tap.Run | Milky/ProcessTap/ProcessTap.swift:229-244 | keeps the invariant and installs the invalidation handler of an activated tap |
| ProcessTap.Tap.Invalidate | Milky/ProcessTap/ProcessTap.swift:128-161 | keeps the invariant; a no-op when not activated; otherwise drops the handler and destroys both objects, ending deactivated |
| ProcessTap.Tap.Cleanup | Milky/ProcessTap/ProcessTap.swift:163-168 | keeps the invariant; always ends deactivated, with both objects destroyed if it was activated |

## Findings

| source | as written | input that shows it | evidently intended | confidence | as-written member | corrected member |
|---|---|---|---|---|---|---|
| Milky/DSP/audio.cpp:81 | `vvsqrtf(sqrtMagnitudes, magnitudes, &sampleCount)` takes the square root of `sampleCount` floats. `magnitudes` and `sqrtMagnitudes` hold only `fftSize / 2` floats, and only `sampleCount / 2` of them were computed at line 77 | sampleCount = 512 selects fftSize 512: the arrays hold 256 floats and vvsqrtf reads and writes 512 | a count of `sampleCount / 2`, as ProcessTap.swift:69 passes | high, not executed | AudioFft.SqrtCountAsWrittenOverruns | AudioFft.SqrtCountFits |

## Left out

- Core Audio, AVFoundation and vDSP are not modelled:
  - the creation of FFT setups, processors and the manager, and their release (audio.cpp:12-49);
  - `StartAudioCapture` and `StopAudioDeviceWithIOProc`;
  - `ProcessTap.prepare`, whose outcome becomes the two booleans of `ProcessTap.Tap.Activate`;
  - the recorder's file writing, `start`, `stop` and `handleInvalidation`.
- The FFT, squared magnitudes and square root are not modelled. They are a parameter
  that returns fftSize/2 non-negative amplitudes.
- The Swift `performFFT` returns `[]` when a setup or buffer is missing. That branch is
  left out because every size has a setup once creation succeeds.
- Threads, mutexes and scheduling are not modelled: `startContinuousRender` in both files,
  the priority, QoS and affinity settings, and lock/unlock, which have no effect in a
  sequential model. The dispatches in `updateSamplesAndFFT` are taken to complete before
  the next buffer arrives.
- video.c `renderLoop` (60-93) is not modelled as a loop. It renders, sleeps a fixed
  16 ms and toggles, and `Video.Renderer.Render` and `Video.DoubleBuffer.ToggleBuffer`
  model those steps.
- Scheduler.RenderLoop.Iterate: the `render` call inside the loop body is
  `Video.Renderer.Render`, not repeated here. `usleep` and the log output are not
  modelled.
- Printing and logging are not modelled.
- Floats are modelled as reals, without single-precision rounding. sin, cos and sqrt are
  parameters. The sleep time is a natural number rather than a 32-bit `useconds_t`;
  within [1000, 33000] the two agree.
- `rand()`, `srand(time)`, `gettimeofday` and `clock_gettime` are parameters.
- `blurFrame`, `preserveMassFade`, `renderChasers` and `reduceBitDepth` are
  length-preserving parameters, and the `energy.h` constants are constructor
  parameters. None of their sources is part of this model.
- `preserveMassFade`'s output in the temporary buffer is overwritten by the memcpy at
  video.c:248. The model keeps that overwrite.
- The commented-out NEON renderer (sound.c:30-143) is not modelled.
- Draw.DrawLine: requires both endpoints inside the canvas. With an endpoint outside it,
  clamping can keep the loop from reaching that endpoint, and the source then never
  terminates.
- Sound.WaveformState.SmoothBassEmphasizedWaveform: requires at least 3 samples. For
  shorter input the source underflows `waveformLength - 2` or divides by zero.
- Energy.SpikeDetector.DetectEnergySpike: requires a non-empty waveform, a non-empty
  spectrum and a positive sample rate. Otherwise the source divides by zero; `render`
  guards the two lengths.
- Energy.SpikeDetector.DetectEnergySpike: the readings of a call (energy, ratios,
  flux) are ghost results that name what the C function computes internally; the
  function itself returns nothing and publishes only the spike flag.
- Video.Renderer.Render: when both inputs are non-empty, requires at most 2048 waveform
  samples, because the cache at sound.c:7 holds 2048 floats, and at least 3, for the
  smoothing above.
- Video.Renderer.Render: the drawing stages are specified through `Video.Drawn` of
  `Video.RenderStages`; what the palette remap and the waveform passes put in each pixel
  is stated in the Palette and Sound modules, while `renderChasers` and `reduceBitDepth`
  are parameters whose only stated property is that they keep the length.
- Video.Renderer.ReserveAndUpdateMemory: allocation is taken to succeed; the `malloc`
  failure returns are not modelled.
- Video.Renderer.ComposeFrame: the emphasized waveform comes from a fresh buffer whose
  last two entries `smoothBassEmphasizedWaveform` never writes, so the cache receives
  unspecified values there, as from the uninitialised array in the source; the model
  states nothing about those two entries.
- Video.AudioData.UpdateAudioData: publishes copies of the data. The source stores
  pointers, which the audio.cpp callback takes from arrays on its own stack. That
  aliasing is not modelled.
- AudioFft.PerformFft: requires at most 2048 samples. Larger buffers overrun the
  1024-float split-complex buffers in the source. The square root uses the corrected
  count (see Findings).
- AudioFft.CaptureState.Callback: requires at most 2048 samples, as above. It states the
  published spectrum's length and byte range, and `AudioFft.PerformFft` states its
  content.
- AudioFft.PerformFft: the split-complex buffers persist from call to call
  (audio.cpp:16-17). `vDSP_ctoz` fills only sampleCount/2 of their entries (audio.cpp:70),
  while the in-place transform reads all fftSize/2 (audio.cpp:73). When sampleCount <
  fftSize the upper entries still hold the previous call's output. The model's
  `amplitudesOf` sees only the current samples, so that carry-over is not modelled.
- ProcessTap.TapSpectrum: the Swift buffers are allocated uninitialised
  (ProcessTap.swift:25-30). When frameLength < 128 the size falls back to 2048 and the
  unfilled entries are read. The model's `amplitudesOf` sees only the current samples.
- Sound.WaveformState.RenderWaveformSimple: the frame counter is a C `int` incremented
  four times per frame (sound.c:256). The model's counter is an unbounded `nat`, so the
  overflow, which is undefined behaviour in C, is not modelled.
- Energy.SpikeDetector.OpenCall: the cooldown counter is a C `int` incremented on every
  call that does not fire (energy.c:199). After an overflow to a negative value, the `>=`
  test at energy.c:186 would stay false until the counter climbed back. The model's
  counter is an unbounded `int`, so that is not modelled.
- Transform.Scale: requires a non-zero factor, because the source divides by it.
- Transform.Rotator.Rotate: the value `speed * angle` is always overwritten before use,
  so it is not modelled.
- ProcessTap.Tap.Run: requires an activated tap without a handler, which the Swift
  asserts check. Creating and starting the I/O proc is left out.
- ProcessTap.SampleByte: Swift's `Int(_:)` traps on values out of Int range. That trap
  is not modelled.
