/** Frame orchestration of the visualizer (Milky/Visualizer/video.c): the double buffer
    shared between the render thread and the display, the published audio data, the
    reservation of the history and scratch canvases, and `render`, which runs the stages
    of one frame in order and keeps the state that links one frame to the next.

    Stages whose source is not part of this model (blurFrame, preserveMassFade,
    renderChasers, reduceBitDepth) are parameters: functions from the bytes they read to
    the bytes they write. */
module Video {
  import opened Numeric
  import opened Draw
  import opened Palette
  import opened Energy
  import opened Sound
  import opened Transform

  // ---------------------------------------------------------------------------
  // The double buffer

  /** The two flags `isWritingToBufferA` and `displayBufferA`. */
  datatype Flags = Flags(writingA: bool, displayA: bool)

  /** Both flags start at 1. */
  const InitialFlags: Flags := Flags(true, true)

  /** `toggleBuffer`: the buffer just written becomes the one displayed, and writing
      moves to the other one. */
  function Toggled(f: Flags): (g: Flags)
    ensures g.displayA == f.writingA && g.writingA == !f.writingA
  {
    Flags(!f.writingA, f.writingA)
  }

  /** The flags after n toggles. */
  function ToggledTimes(f: Flags, n: nat): Flags
  {
    if n == 0 then f else Toggled(ToggledTimes(f, n - 1))
  }

  /** Before the first toggle, writer and display use the same buffer; after any
      number of toggles from there on they use different ones, and writing alternates. */
  lemma {:induction false} ToggledTimesSeparates(n: nat)
    ensures n == 0 <==> ToggledTimes(InitialFlags, n).writingA == ToggledTimes(InitialFlags, n).displayA
    ensures ToggledTimes(InitialFlags, n).writingA == (n % 2 == 0)
  {
    if n > 0 {
      ToggledTimesSeparates(n - 1);
    }
  }

  /** Pointer selection `flag ? bufferA : bufferB`. */
  function Select(flag: bool, a: array<Byte>, b: array<Byte>): array<Byte>
  {
    if flag then a else b
  }

  /** `bufferA`, `bufferB` and the two flags. */
  class DoubleBuffer {
    const bufferA: array<Byte>
    const bufferB: array<Byte>
    var flags: Flags

    /** `startContinuousRender` storing the two canvases, with both flags at 1. */
    constructor (a: array<Byte>, b: array<Byte>)
      ensures bufferA == a && bufferB == b && flags == InitialFlags
    {
      bufferA, bufferB := a, b;
      flags := InitialFlags;
    }

    /** `getDisplayBuffer` */
    method GetDisplayBuffer() returns (buffer: array<Byte>)
      ensures buffer == Select(flags.displayA, bufferA, bufferB)
    {
      buffer := if flags.displayA then bufferA else bufferB;
    }

    /** `getWriteBuffer` */
    method GetWriteBuffer() returns (buffer: array<Byte>)
      ensures buffer == Select(flags.writingA, bufferA, bufferB)
    {
      buffer := if flags.writingA then bufferA else bufferB;
    }

    /** `toggleBuffer` */
    method ToggleBuffer()
      modifies this
      ensures flags == Toggled(old(flags))
    {
      flags := Flags(!flags.writingA, flags.writingA);
    }
  }

  /** With two distinct canvases, after at least one toggle the render thread never
      writes the canvas being displayed. */
  lemma ToggledBuffersDiffer(a: array<Byte>, b: array<Byte>, n: nat)
    requires a != b && n > 0
    ensures Select(ToggledTimes(InitialFlags, n).writingA, a, b)
            != Select(ToggledTimes(InitialFlags, n).displayA, a, b)
  {
    ToggledTimesSeparates(n);
  }

  // ---------------------------------------------------------------------------
  // The published audio data

  /** `globalWaveform`, `globalSpectrum` and their lengths, as last published. */
  class AudioData {
    var waveform: seq<Byte>
    var spectrum: seq<Byte>

    constructor ()
      ensures waveform == [] && spectrum == []
    {
      waveform, spectrum := [], [];
    }

    /** `updateAudioData`: stores both buffers and their lengths. */
    method UpdateAudioData(waveform: seq<Byte>, spectrum: seq<Byte>)
      modifies this
      ensures this.waveform == waveform && this.spectrum == spectrum
    {
      this.waveform := waveform;
      this.spectrum := spectrum;
    }
  }

  // ---------------------------------------------------------------------------
  // Reserving the history and scratch canvases

  /** What reserveAndUpdateMemory knows about its two buffers: whether they exist, the
      recorded size of the scratch buffer, and the canvas dimensions last seen. */
  datatype Buffers = Buffers(present: bool, size: nat, lastWidth: nat, lastHeight: nat)

  /** The branch of reserveAndUpdateMemory that runs. */
  datatype Reservation = Keep | Resize | Grow

  function ReservationFor(b: Buffers, width: nat, height: nat, frameSize: nat): (r: Reservation)
    ensures r == Resize <==> width != b.lastWidth || height != b.lastHeight
    ensures r == Keep <==> width == b.lastWidth && height == b.lastHeight && b.present && frameSize <= b.size
  {
    if width != b.lastWidth || height != b.lastHeight then Resize
    else if !b.present || b.size < frameSize then Grow
    else Keep
  }

  /** The buffers after reserveAndUpdateMemory. */
  function Reserved(b: Buffers, width: nat, height: nat, frameSize: nat): (b': Buffers)
    ensures b'.present && frameSize <= b'.size
    ensures b'.lastWidth == width && b'.lastHeight == height
    ensures ReservationFor(b, width, height, frameSize) == Keep ==> b' == b
    ensures ReservationFor(b, width, height, frameSize) != Keep ==> b'.size == frameSize
  {
    match ReservationFor(b, width, height, frameSize)
    case Resize => Buffers(true, frameSize, width, height)
    case Grow => b.(present := true, size := frameSize)
    case Keep => b
  }

  /** Once reserved for a canvas, a second call for the same canvas changes nothing. */
  lemma ReserveSettles(b: Buffers, width: nat, height: nat, frameSize: nat)
    ensures ReservationFor(Reserved(b, width, height, frameSize), width, height, frameSize) == Keep
    ensures Reserved(Reserved(b, width, height, frameSize), width, height, frameSize)
            == Reserved(b, width, height, frameSize)
  {
  }

  // ---------------------------------------------------------------------------
  // Frame timing

  /** render's `timeFrame`: 0.01 on the first frame, otherwise the size_t difference of
      the two times in seconds. */
  function TimeFrame(prevTime: nat, currentTime: nat): (t: real)
    requires IsSize(prevTime) && IsSize(currentTime)
    ensures t >= 0.0
    ensures prevTime == 0 ==> t == 0.01
    ensures 0 < prevTime <= currentTime ==> t * 1000.0 == (currentTime - prevTime) as real
    ensures currentTime < prevTime ==> t * 1000.0 == (SizeModulus - (prevTime - currentTime)) as real
  {
    if prevTime == 0 then 0.01 else SizeSub(currentTime, prevTime) as real / 1000.0
  }

  /** render's frame-rate estimate: recomputed from the time since the last frame when
      one was recorded and time has moved forward, kept otherwise. */
  function NextFps(lastFrameTime: real, fps: real, currentTime: nat): (r: real)
    ensures lastFrameTime > 0.0 && currentTime as real > lastFrameTime ==>
              r * (currentTime as real - lastFrameTime) == 1000.0
    ensures !(lastFrameTime > 0.0 && currentTime as real > lastFrameTime) ==> r == fps
  {
    if lastFrameTime > 0.0 then
      var deltaTime := (currentTime as real - lastFrameTime) / 1000.0;
      if deltaTime > 0.0 then 1.0 / deltaTime else fps
    else fps
  }

  // ---------------------------------------------------------------------------
  // Whole-canvas copies

  /** The writes of an in-place stage: the first |out| bytes of buf become out. */
  method OverwritePrefix(buf: array<Byte>, out: seq<Byte>)
    requires |out| <= buf.Length
    modifies buf
    ensures buf[..|out|] == out && buf[|out|..] == old(buf[|out|..])
  {
    for i := 0 to |out|
      invariant buf[..i] == out[..i] && buf[|out|..] == old(buf[|out|..])
    {
      buf[i] := out[i];
      assert buf[..i + 1] == out[..i + 1];
    }
  }

  /** A stage whose source is not part of this model, applied to the first n bytes. */
  ghost predicate KeepsLength(effect: seq<Byte> -> seq<Byte>)
  {
    forall s: seq<Byte> :: |effect(s)| == |s|
  }

  // ---------------------------------------------------------------------------
  // render

  /** Requirements of the stages run by render on a canvas and its audio data. */
  predicate RenderableInput(waveform: seq<Byte>, spectrum: seq<Byte>)
  {
    |waveform| == 0 || |spectrum| == 0 || 3 <= |waveform| <= CacheLength
  }

  /** The zoom factor of render's scale stage. */
  const ZoomFactor: real := 1.35

  /** One stage of render's drawing pipeline, as a change to the canvas: the palette
      remap, a renderWaveformSimple pass one pixel to the right, the chasers, the rotate
      stage and the scale stage. */
  datatype Stage =
    | Recolour(entries: seq<Rgb>)
    | Pass(cache: seq<real>, length: nat, offset: real, alpha: real, yOffset: int)
    | Chase(scalar: real, chasers: (real, seq<Byte>) -> seq<Byte>)
    | Rotate(sinTheta: real, cosTheta: real)
    | Zoom(factor: real)

  /** What a stage needs of its arguments to run. */
  ghost predicate Runs(st: Stage)
  {
    match st
    case Recolour(entries) => |entries| == PaletteSize
    case Pass(cache, length, _, _, _) => 0 < length <= |cache|
    case Chase(_, chasers) => forall r: real, t: seq<Byte> :: |chasers(r, t)| == |t|
    case Rotate(_, _) => true
    case Zoom(factor) => factor != 0.0
  }

  /** Canvas s after one stage; only its first w·h·4 bytes change. Rotate blends the
      rotated canvas into it 0.3/0.7; scale replaces it by its zoom. */
  function Staged(st: Stage, s: seq<Byte>, width: nat, height: nat): (r: seq<Byte>)
    requires CanvasBytes(width, height) <= |s| && IsSize(width) && IsSize(height) && Runs(st)
    ensures |r| == |s|
  {
    var n := CanvasBytes(width, height);
    match st
    case Recolour(entries) => Remapped(s, entries, width * height)
    case Pass(cache, length, offset, alpha, yOffset) =>
      Rendered(s, width, height, cache, length, offset, alpha, yOffset, 1, length - 1)
    case Chase(scalar, chasers) => chasers(scalar, s[..n]) + s[n..]
    case Rotate(sinTheta, cosTheta) =>
      Blended(s[..n], Resampled(s, width, height, Rotation(sinTheta, cosTheta))) + s[n..]
    case Zoom(factor) => Resampled(s, width, height, Scaling(factor)) + s[n..]
  }

  /** Canvas s after the stages, in order: a pipeline of two or more stages runs its last
      stage on what the others leave. */
  function Drawn(stages: seq<Stage>, s: seq<Byte>, width: nat, height: nat): (r: seq<Byte>)
    requires CanvasBytes(width, height) <= |s| && IsSize(width) && IsSize(height)
    requires forall i :: 0 <= i < |stages| ==> Runs(stages[i])
    ensures |r| == |s|
    decreases |stages|
  {
    if |stages| == 0 then s
    else if |stages| == 1 then Staged(stages[0], s, width, height)
    else Drawn([stages[|stages| - 1]], Drawn(stages[..|stages| - 1], s, width, height), width, height)
  }

  /** One more stage runs on what the pipeline before it leaves. */
  lemma DrawnSnoc(stages: seq<Stage>, st: Stage, s: seq<Byte>, width: nat, height: nat)
    requires CanvasBytes(width, height) <= |s| && IsSize(width) && IsSize(height)
    requires forall i :: 0 <= i < |stages| ==> Runs(stages[i])
    requires Runs(st)
    ensures Drawn(stages + [st], s, width, height) == Staged(st, Drawn(stages, s, width, height), width, height)
  {
    if |stages| == 0 {
      assert stages + [st] == [st];
    } else {
      assert (stages + [st])[..|stages|] == stages;
    }
  }

  /** Two stages run one after the other are the two-stage pipeline. */
  lemma StagedPair(s0: seq<Byte>, s1: seq<Byte>, s2: seq<Byte>, width: nat, height: nat, p1: Stage, p2: Stage)
    requires CanvasBytes(width, height) <= |s0| && IsSize(width) && IsSize(height) && Runs(p1) && Runs(p2)
    requires s1 == Staged(p1, s0, width, height)
    requires s2 == Staged(p2, s1, width, height)
    ensures s2 == Drawn([p1, p2], s0, width, height)
  {
    DrawnSnoc([p1], p2, s0, width, height);
    assert [p1] + [p2] == [p1, p2];
  }

  /** Two pipelines run one after the other are one pipeline. */
  lemma {:induction false} DrawnAppend(a: seq<Stage>, b: seq<Stage>, s: seq<Byte>, width: nat, height: nat)
    requires CanvasBytes(width, height) <= |s| && IsSize(width) && IsSize(height)
    requires forall i :: 0 <= i < |a| ==> Runs(a[i])
    requires forall i :: 0 <= i < |b| ==> Runs(b[i])
    ensures Drawn(a + b, s, width, height) == Drawn(b, Drawn(a, s, width, height), width, height)
    decreases |b|
  {
    if |b| == 0 {
      assert a + b == a;
    } else {
      var init, last := b[..|b| - 1], b[|b| - 1];
      assert b == init + [last];
      assert a + b == (a + init) + [last];
      DrawnAppend(a, init, s, width, height);
      DrawnSnoc(a + init, last, s, width, height);
      DrawnSnoc(init, last, Drawn(a, s, width, height), width, height);
    }
  }

  /** The four waveform passes of render: alpha 0.85, 0.95, 5.0 and 0.95 at vertical
      offsets 2, 1, 0 and -1. The first pass draws from `first`, the other three from
      `cache`. */
  function WaveformStages(first: seq<real>, cache: seq<real>, length: nat, offset: real): (stages: seq<Stage>)
    requires 0 < length <= |first| && length <= |cache|
    ensures |stages| == 4 && forall i :: 0 <= i < |stages| ==> Runs(stages[i])
  {
    [Pass(first, length, offset, 0.85, 2), Pass(cache, length, offset, 0.95, 1),
     Pass(cache, length, offset, 5.0, 0), Pass(cache, length, offset, 0.95, -1)]
  }

  /** Two two-stage pipelines, one after the other, are the four-stage pipeline. */
  lemma PairsDrawn(s0: seq<Byte>, s1: seq<Byte>, s2: seq<Byte>, width: nat, height: nat,
                   p1: Stage, p2: Stage, p3: Stage, p4: Stage)
    requires CanvasBytes(width, height) <= |s0| && IsSize(width) && IsSize(height)
    requires Runs(p1) && Runs(p2) && Runs(p3) && Runs(p4)
    requires s1 == Drawn([p1, p2], s0, width, height)
    requires s2 == Drawn([p3, p4], s1, width, height)
    ensures s2 == Drawn([p1, p2, p3, p4], s0, width, height)
  {
    DrawnAppend([p1, p2], [p3, p4], s0, width, height);
    assert [p1, p2] + [p3, p4] == [p1, p2, p3, p4];
  }

  /** The chasers, rotate and scale stages of render. */
  function TransformStages(scalar: real, chasers: (real, seq<Byte>) -> seq<Byte>,
                           sinTheta: real, cosTheta: real): (stages: seq<Stage>)
    requires forall r: real, t: seq<Byte> :: |chasers(r, t)| == |t|
    ensures |stages| == 3 && forall i :: 0 <= i < |stages| ==> Runs(stages[i])
  {
    [Chase(scalar, chasers), Rotate(sinTheta, cosTheta), Zoom(ZoomFactor)]
  }

  /** Every stage render draws on its base canvas: the palette remap through `entries`,
      the four waveform passes over the cache, then chasers, rotate and scale. */
  function RenderStages(entries: seq<Rgb>, cache: seq<real>, length: nat, offset: real, scalar: real,
                        chasers: (real, seq<Byte>) -> seq<Byte>, sinTheta: real, cosTheta: real)
    : (stages: seq<Stage>)
    requires |entries| == PaletteSize && 0 < length <= |cache|
    requires forall r: real, t: seq<Byte> :: |chasers(r, t)| == |t|
    ensures |stages| == 8 && forall i :: 0 <= i < |stages| ==> Runs(stages[i])
  {
    [Recolour(entries)] + WaveformStages(cache, cache, length, offset) +
    TransformStages(scalar, chasers, sinTheta, cosTheta)
  }

  /** The palette remap and the waveform passes, then the transforms, are render's stages. */
  lemma RenderStagesDrawn(c0: seq<Byte>, c1: seq<Byte>, c2: seq<Byte>, width: nat, height: nat,
                          entries: seq<Rgb>, cache: seq<real>, length: nat, offset: real, scalar: real,
                          chasers: (real, seq<Byte>) -> seq<Byte>, sinTheta: real, cosTheta: real)
    requires CanvasBytes(width, height) <= |c0| && IsSize(width) && IsSize(height)
    requires |entries| == PaletteSize && 0 < length <= |cache|
    requires forall r: real, t: seq<Byte> :: |chasers(r, t)| == |t|
    requires c1 == Drawn([Recolour(entries)] + WaveformStages(cache, cache, length, offset), c0, width, height)
    requires c2 == Drawn(TransformStages(scalar, chasers, sinTheta, cosTheta), c1, width, height)
    ensures c2 == Drawn(RenderStages(entries, cache, length, offset, scalar, chasers, sinTheta, cosTheta),
                        c0, width, height)
  {
    DrawnAppend([Recolour(entries)] + WaveformStages(cache, cache, length, offset),
                TransformStages(scalar, chasers, sinTheta, cosTheta), c0, width, height);
  }

  /** The bit-depth stage at the end of render: run only below 32 bits. */
  function Finished(s: seq<Byte>, bitDepth: Byte, reduceBitDepth: (seq<Byte>, Byte) -> seq<Byte>): seq<Byte>
  {
    if bitDepth < 32 then reduceBitDepth(s, bitDepth) else s
  }

  /** The cache after one waveform pass: the waveform over its first |e| entries when the
      pass refreshes it, as it was otherwise. */
  lemma CacheAfterPass(after: seq<real>, before: seq<real>, e: seq<real>, refreshes: bool)
    requires |e| <= |before| == |after|
    requires refreshes ==> after[..|e|] == e && after[|e|..] == before[|e|..]
    requires !refreshes ==> after == before
    ensures after == (if refreshes then e + before[|e|..] else before)
  {
    if refreshes {
      assert after == after[..|e|] + after[|e|..];
    }
  }

  /** Four passes keep the parity of the shared frame counter. */
  lemma RefreshesAfterFour(counter: nat)
    requires Refreshes(counter)
    ensures Refreshes(counter + 4)
  {
  }

  /** Refreshing the cache a second time with the same waveform changes nothing. */
  lemma RefreshAgain(cache: seq<real>, e: seq<real>)
    requires |e| <= |cache|
    ensures e + (e + cache[|e|..])[|e|..] == e + cache[|e|..]
  {
    assert (e + cache[|e|..])[|e|..] == cache[|e|..];
  }

  /** render's frame-to-frame statics: the first-frame flag, the time and size of the
      previous frame, the speed scalar, and the frame-rate estimate. */
  datatype FrameTiming = FrameTiming(initialized: bool, prevTime: nat, prevFrameSize: nat,
                                     speedScalar: real, lastFrameTime: real, fps: real)

  /** The statics of the stages render drives, as values: the palette and the time it was
      made, the waveform cache, offset and pass counter, the energy detector, and the
      rotator's angles. */
  datatype Scene = Scene(lastInitTime: nat, entries: seq<Rgb>, cache: seq<real>, averageOffset: real,
                         frameCounter: nat, initialized: bool, detector: DetectorState, angles: Angles)

  /** The statics of video.c and of every stage render drives. */
  class Renderer {
    var isLastFrameInitialized: bool
    var prevTime: nat
    var prevFrameSize: nat
    var speedScalar: real
    var tempBuffer: array?<Byte>
    var prevFrame: array?<Byte>
    var tempBufferSize: nat
    var lastWidth: nat
    var lastHeight: nat
    var lastFrameTime: real
    var fps: real

    const palette: PaletteTable
    const sound: WaveformState
    const detector: SpikeDetector
    const rotator: Rotator

    /** The reservation state of the two buffers. */
    function BufferState(): Buffers
      reads this
    {
      Buffers(prevFrame != null, tempBufferSize, lastWidth, lastHeight)
    }

    /** The statics that carry over from one frame to the next. */
    function Timing(): FrameTiming
      reads this
    {
      FrameTiming(isLastFrameInitialized, prevTime, prevFrameSize, speedScalar, lastFrameTime, fps)
    }

    /** The two buffers exist together, are distinct, and have the recorded size. */
    ghost predicate BuffersValid()
      reads this
    {
      (prevFrame == null <==> tempBuffer == null) &&
      (prevFrame != null ==>
         prevFrame != tempBuffer && prevFrame.Length == tempBufferSize && tempBuffer.Length == tempBufferSize)
    }

    ghost predicate Valid()
      reads this, palette, sound, detector, detector.previousSpectrum, detector.weights
    {
      palette.Valid() && sound.Valid() && detector.Valid() && IsSize(prevTime) && BuffersValid() &&
      sound.cachedWaveform != detector.previousSpectrum && sound.cachedWaveform != detector.weights
    }

    /** Between two render calls, the history size is recorded only once a frame was drawn,
        and the shared waveform counter is even: render makes four passes per frame. */
    ghost predicate BetweenFrames()
      reads this, sound
    {
      (!isLastFrameInitialized ==> prevFrameSize == 0) && Refreshes(sound.frameCounter)
    }

    /** The stages' statics now. */
    function CurrentScene(): Scene
      requires palette.Valid()
      reads palette, palette.table, sound, sound.cachedWaveform, detector, detector.previousSpectrum
      reads detector.weights, detector.filter, rotator
    {
      Scene(palette.lastInitTime, palette.Entries(), sound.cachedWaveform[..], sound.averageOffset,
            sound.frameCounter, detector.initialized, detector.Snapshot(), rotator.State())
    }

    /** What the palette, the waveform passes and the energy detector do to the stages'
        statics in one render call: the palette is regenerated when applyPaletteToCanvas
        decides so, the waveform counter advances by the four passes, and the detector makes
        one detectEnergySpike call (from its static filter, or from the one its first call
        sets up). */
    ghost predicate PaintEffect(s0: Scene, s1: Scene, waveform: seq<Byte>, spectrum: seq<Byte>,
                                currentTime: nat, sampleRate: nat, sin: real -> real, cos: real -> real,
                                sqrt: real -> real, paletteRand: nat, call: Call, flux: real)
      requires IsSize(currentTime) && IsSize(s0.lastInitTime)
      requires sampleRate > 0 && forall t :: -1.0 <= sin(t) <= 1.0
    {
      var regenerate := ShouldRegenerate(s0.detector.spikeDetected, currentTime, s0.lastInitTime);
      s1.lastInitTime == (if regenerate then currentTime else s0.lastInitTime) &&
      s1.entries == (if regenerate then Family(paletteRand % 4) else s0.entries) &&
      s1.frameCounter == s0.frameCounter + 4 &&
      s1.initialized &&
      detector.CallEffect(s0.detector, s1.detector,
                          if s0.initialized then s0.detector.filter else InitialFilter(sampleRate, sin, cos),
                          waveform, spectrum, sqrt, call, flux)
    }

    /** What the drawing stages of one render call do to the stages' statics: the paint
        effect, and the rotator advances. */
    ghost predicate StagesEffect(s0: Scene, s1: Scene, waveform: seq<Byte>, spectrum: seq<Byte>,
                                 currentTime: nat, sampleRate: nat, sin: real -> real, cos: real -> real,
                                 sqrt: real -> real, paletteRand: nat, rotateRand: nat, call: Call, flux: real)
      requires IsSize(currentTime) && IsSize(s0.lastInitTime)
      requires sampleRate > 0 && forall t :: -1.0 <= sin(t) <= 1.0
    {
      PaintEffect(s0, s1, waveform, spectrum, currentTime, sampleRate, sin, cos, sqrt, paletteRand, call, flux) &&
      s1.angles == Advance(s0.angles, rotateRand)
    }

    /** What one render call with audio data does to the stages' statics: the drawing
        stages' effect, with the cache holding the bass-emphasized waveform (its last two
        entries left as they were) and the offset its average. */
    ghost predicate FrameEffect(s0: Scene, s1: Scene, waveform: seq<Byte>, spectrum: seq<Byte>,
                                currentTime: nat, sampleRate: nat, sin: real -> real, cos: real -> real,
                                sqrt: real -> real, paletteRand: nat, rotateRand: nat, call: Call, flux: real)
      requires IsSize(currentTime) && IsSize(s0.lastInitTime)
      requires sampleRate > 0 && forall t :: -1.0 <= sin(t) <= 1.0
      requires |waveform| >= 3
    {
      StagesEffect(s0, s1, waveform, spectrum, currentTime, sampleRate, sin, cos, sqrt,
                   paletteRand, rotateRand, call, flux) &&
      |s1.cache| == |s0.cache| && |waveform| <= |s1.cache| &&
      s1.cache[..|waveform| - 2] == Smoothed(waveform, 0.7) &&
      s1.cache[|waveform|..] == s0.cache[|waveform|..] &&
      s1.averageOffset == AverageOffset(waveform, 0.7)
    }

    constructor (cooldownPeriod: nat, noiseGate: real, maxSpectrum: nat, maxWaveform: nat)
      requires cooldownPeriod > 0 && maxSpectrum > 0 && maxWaveform > 0
      ensures Valid() && BetweenFrames()
      ensures !isLastFrameInitialized && prevTime == 0 && prevFrameSize == 0 && speedScalar == 0.01
      ensures prevFrame == null && BufferState() == Buffers(false, 0, 0, 0)
      ensures lastFrameTime == 0.0 && fps == 0.0
    {
      isLastFrameInitialized := false;
      prevTime, prevFrameSize := 0, 0;
      speedScalar := 0.01;
      tempBuffer, prevFrame := null, null;
      tempBufferSize, lastWidth, lastHeight := 0, 0, 0;
      lastFrameTime, fps := 0.0, 0.0;
      palette := new PaletteTable();
      sound := new WaveformState();
      detector := new SpikeDetector(cooldownPeriod, noiseGate, maxSpectrum, maxWaveform);
      rotator := new Rotator();
    }

    /** `reserveAndUpdateMemory`. Allocation is taken to succeed. */
    method ReserveAndUpdateMemory(width: nat, height: nat, frame: array<Byte>, frameSize: nat)
      requires Valid() && frameSize <= frame.Length && frame != prevFrame && frame != tempBuffer
      modifies this, frame
      ensures Valid() && prevFrame != null && frame != prevFrame && frame != tempBuffer
      ensures BufferState() == Reserved(old(BufferState()), width, height, frameSize)
      ensures ReservationFor(old(BufferState()), width, height, frameSize) == Resize ==>
                (forall k :: 0 <= k < frameSize ==> frame[k] == 0) && frame[frameSize..] == old(frame[frameSize..])
      ensures ReservationFor(old(BufferState()), width, height, frameSize) != Resize ==> frame[..] == old(frame[..])
      ensures ReservationFor(old(BufferState()), width, height, frameSize) == Keep ==>
                prevFrame == old(prevFrame) && tempBuffer == old(tempBuffer)
      ensures ReservationFor(old(BufferState()), width, height, frameSize) != Keep ==>
                fresh(prevFrame) && fresh(tempBuffer)
      ensures Timing() == old(Timing())
    {
      if width != lastWidth || height != lastHeight {
        ClearFrame(frame, frameSize);
        ReplaceBuffers(width, height, frameSize);
      }
      GrowBuffers(frameSize);
    }

    /** The block that runs on a change of dimensions, after the canvas is cleared. */
    method ReplaceBuffers(width: nat, height: nat, frameSize: nat)
      requires BuffersValid()
      modifies this
      ensures BuffersValid() && fresh(prevFrame) && fresh(tempBuffer)
      ensures BufferState() == Buffers(true, frameSize, width, height)
      ensures Timing() == old(Timing())
    {
      prevFrame := new Byte[frameSize];
      lastWidth := width;
      lastHeight := height;
      tempBuffer := new Byte[frameSize];
      tempBufferSize := frameSize;
    }

    /** The two blocks that (re)allocate a missing or too small buffer. */
    method GrowBuffers(frameSize: nat)
      requires BuffersValid()
      modifies this
      ensures BuffersValid() && prevFrame != null
      ensures old(prevFrame) == null || old(tempBufferSize) < frameSize ==>
                fresh(prevFrame) && fresh(tempBuffer) &&
                BufferState() == old(BufferState()).(present := true, size := frameSize)
      ensures old(prevFrame) != null && frameSize <= old(tempBufferSize) ==>
                prevFrame == old(prevFrame) && tempBuffer == old(tempBuffer) && BufferState() == old(BufferState())
      ensures Timing() == old(Timing())
    {
      if prevFrame == null || tempBufferSize < frameSize {
        prevFrame := new Byte[frameSize];
      }
      if tempBuffer == null || tempBufferSize < frameSize {
        tempBuffer := new Byte[frameSize];
        tempBufferSize := frameSize;
      }
    }

    /** The first-frame / later-frame block of render: the first frame clears the canvas
        and the history; every later one advances the speed scalar and takes the blurred,
        faded history as the base of the new frame. */
    method RestoreHistory(frame: array<Byte>, frameSize: nat, speed: real,
                          blur: seq<Byte> -> seq<Byte>, fade: seq<Byte> -> seq<Byte>)
      requires Valid() && prevFrame != null && frame != prevFrame && frame != tempBuffer
      requires frameSize <= frame.Length && frameSize <= tempBufferSize
      requires !isLastFrameInitialized ==> prevFrameSize == frameSize
      requires KeepsLength(blur) && KeepsLength(fade)
      modifies this, frame, prevFrame, tempBuffer
      ensures Valid() && isLastFrameInitialized
      ensures prevFrame == old(prevFrame) && tempBuffer == old(tempBuffer) && BufferState() == old(BufferState())
      ensures prevTime == old(prevTime) && prevFrameSize == old(prevFrameSize)
      ensures lastFrameTime == old(lastFrameTime) && fps == old(fps)
      ensures !old(isLastFrameInitialized) ==>
                speedScalar == old(speedScalar) &&
                (forall k :: 0 <= k < frameSize ==> frame[k] == 0 && prevFrame[k] == 0) &&
                tempBuffer[..] == old(tempBuffer[..])
      ensures old(isLastFrameInitialized) ==>
                speedScalar == old(speedScalar) + speed &&
                prevFrame[..frameSize] == blur(old(prevFrame[..frameSize])) &&
                tempBuffer[..frameSize] == prevFrame[..frameSize] &&
                frame[..frameSize] == prevFrame[..frameSize]
      ensures frame[frameSize..] == old(frame[frameSize..])
    {
      if !isLastFrameInitialized {
        ClearFrame(frame, frameSize);
        ClearFrame(prevFrame, prevFrameSize);
        isLastFrameInitialized := true;
      } else {
        speedScalar := speedScalar + speed;
        OverwritePrefix(prevFrame, blur(prevFrame[..frameSize]));
        OverwritePrefix(tempBuffer, fade(prevFrame[..frameSize]));
        CopyBytes(tempBuffer, prevFrame, frameSize);
        CopyBytes(frame, tempBuffer, frameSize);
      }
    }

    /** The drawing stages of render: palette, the four waveform passes, the energy
        detector, the chasers, rotate and scale. The ghost results are the detector's. */
    method DrawStages(frame: array<Byte>, width: nat, height: nat, waveform: seq<Byte>, spectrum: seq<Byte>,
                      emphasized: seq<real>, timeFrame: real, speed: real, currentTime: nat, sampleRate: nat,
                      sin: real -> real, cos: real -> real, sqrt: real -> real,
                      chasers: (real, seq<Byte>) -> seq<Byte>, paletteRand: nat, rotateRand: nat,
                      ghost s0: Scene)
      returns (ghost call: Call, ghost flux: real, ghost s1: Scene)
      requires Valid() && Refreshes(sound.frameCounter)
      requires prevFrame != null && frame != prevFrame && frame != tempBuffer
      requires IsSize(width) && IsSize(height) && IsSize(currentTime)
      requires CanvasBytes(width, height) <= frame.Length && CanvasBytes(width, height) <= tempBufferSize
      requires 0 < |emphasized| <= CacheLength && |waveform| > 0 && |spectrum| > 0 && sampleRate > 0
      requires forall t :: -1.0 <= sin(t) <= 1.0
      requires forall t :: sqrt(t) >= 0.0
      requires forall r: real, s: seq<Byte> :: |chasers(r, s)| == |s|
      requires s0 == CurrentScene()
      modifies frame, tempBuffer, palette, palette.table, sound, sound.cachedWaveform
      modifies detector, detector.previousSpectrum, detector.weights, detector.filter, rotator
      ensures Valid() && s1 == CurrentScene()
      ensures Refreshes(sound.frameCounter)
      ensures StagesEffect(s0, s1, waveform, spectrum, currentTime, sampleRate, sin, cos, sqrt,
                           paletteRand, rotateRand, call, flux)
      ensures s1.cache == emphasized + s0.cache[|emphasized|..] && s1.averageOffset == s0.averageOffset
      ensures frame[..] == Drawn(RenderStages(s1.entries, s1.cache, |emphasized|, s1.averageOffset, speedScalar,
                                              chasers, sin(s1.angles.last), cos(s1.angles.last)),
                                 old(frame[..]), width, height)
    {
      ghost var canvas0 := frame[..];
      ghost var mid;
      call, flux, mid := PaintAndDetect(frame, width, height, waveform, spectrum, emphasized, timeFrame,
                                        currentTime, sampleRate, sin, cos, sqrt, paletteRand, s0);
      ghost var canvas1 := frame[..];
      ApplyTransforms(frame, width, height, timeFrame, currentTime, sin, cos, chasers, rotateRand);
      s1 := CurrentScene();
      assert s1 == mid.(angles := Advance(mid.angles, rotateRand));
      RenderStagesDrawn(canvas0, canvas1, frame[..], width, height, s1.entries, s1.cache, |emphasized|,
                        s1.averageOffset, speedScalar, chasers, sin(s1.angles.last), cos(s1.angles.last));
    }

    /** The palette remap and the waveform passes, then the energy detector. */
    method PaintAndDetect(frame: array<Byte>, width: nat, height: nat, waveform: seq<Byte>, spectrum: seq<Byte>,
                          emphasized: seq<real>, timeFrame: real, currentTime: nat, sampleRate: nat,
                          sin: real -> real, cos: real -> real, sqrt: real -> real, paletteRand: nat,
                          ghost s0: Scene)
      returns (ghost call: Call, ghost flux: real, ghost s1: Scene)
      requires Valid() && Refreshes(sound.frameCounter)
      requires IsSize(width) && IsSize(height) && IsSize(currentTime) && CanvasBytes(width, height) <= frame.Length
      requires 0 < |emphasized| <= CacheLength && |waveform| > 0 && |spectrum| > 0 && sampleRate > 0
      requires forall t :: -1.0 <= sin(t) <= 1.0
      requires forall t :: sqrt(t) >= 0.0
      requires s0 == CurrentScene()
      modifies frame, palette, palette.table, sound, sound.cachedWaveform
      modifies detector, detector.previousSpectrum, detector.weights, detector.filter
      ensures Valid() && s1 == CurrentScene()
      ensures Refreshes(sound.frameCounter)
      ensures PaintEffect(s0, s1, waveform, spectrum, currentTime, sampleRate, sin, cos, sqrt, paletteRand,
                          call, flux)
      ensures s1.angles == s0.angles && s1.averageOffset == s0.averageOffset
      ensures s1.cache == emphasized + s0.cache[|emphasized|..]
      ensures frame[..] == Drawn([Recolour(s1.entries)] +
                                 WaveformStages(s1.cache, s1.cache, |emphasized|, s1.averageOffset),
                                 old(frame[..]), width, height)
    {
      PaintWaveforms(frame, width, height, emphasized, timeFrame, currentTime, paletteRand);
      call, flux := detector.DetectEnergySpike(waveform, spectrum, sampleRate, sin, cos, sqrt);
      s1 := CurrentScene();
    }

    /** The palette remap and the four waveform passes of render. The remap uses the
        palette as applyPaletteToCanvas leaves it. */
    method PaintWaveforms(frame: array<Byte>, width: nat, height: nat, emphasized: seq<real>, timeFrame: real,
                          currentTime: nat, paletteRand: nat)
      requires palette.Valid() && sound.Valid() && IsSize(width) && IsSize(height) && IsSize(currentTime)
      requires CanvasBytes(width, height) <= frame.Length && 0 < |emphasized| <= CacheLength
      modifies frame, palette, palette.table, sound, sound.cachedWaveform
      ensures palette.Valid() && sound.Valid()
      ensures sound.frameCounter == old(sound.frameCounter) + 4 && sound.averageOffset == old(sound.averageOffset)
      ensures Refreshes(old(sound.frameCounter)) ==> Refreshes(sound.frameCounter)
      ensures var regenerate := ShouldRegenerate(detector.spikeDetected, currentTime, old(palette.lastInitTime));
              palette.lastInitTime == (if regenerate then currentTime else old(palette.lastInitTime)) &&
              palette.Entries() == (if regenerate then Family(paletteRand % 4) else old(palette.Entries()))
      ensures sound.cachedWaveform[..] == emphasized + old(sound.cachedWaveform[|emphasized|..])
      ensures frame[..] == Drawn([Recolour(palette.Entries())] +
                                 WaveformStages(if Refreshes(old(sound.frameCounter)) then sound.cachedWaveform[..]
                                                else old(sound.cachedWaveform[..]),
                                                sound.cachedWaveform[..], |emphasized|, sound.averageOffset),
                                 old(frame[..]), width, height)
    {
      ghost var s0 := frame[..];
      palette.ApplyToCanvas(currentTime, frame, width, height, detector.spikeDetected, paletteRand);
      ghost var entries := palette.Entries();
      DrawWaveformPasses(frame, width, height, emphasized, timeFrame);
      ghost var first := if Refreshes(old(sound.frameCounter)) then sound.cachedWaveform[..]
                         else old(sound.cachedWaveform[..]);
      DrawnAppend([Recolour(entries)],
                  WaveformStages(first, sound.cachedWaveform[..], |emphasized|, sound.averageOffset),
                  s0, width, height);
    }

    /** The four renderWaveformSimple calls of render. The first pass draws the cache as it
        was unless that pass refreshes it; every later pass sees the refreshed cache. */
    method DrawWaveformPasses(frame: array<Byte>, width: nat, height: nat, emphasized: seq<real>, timeFrame: real)
      requires sound.Valid() && IsSize(width) && IsSize(height)
      requires CanvasBytes(width, height) <= frame.Length && 0 < |emphasized| <= CacheLength
      modifies frame, sound, sound.cachedWaveform
      ensures sound.Valid()
      ensures sound.frameCounter == old(sound.frameCounter) + 4 && sound.averageOffset == old(sound.averageOffset)
      ensures Refreshes(old(sound.frameCounter)) ==> Refreshes(sound.frameCounter)
      ensures sound.cachedWaveform[..] == emphasized + old(sound.cachedWaveform[|emphasized|..])
      ensures frame[..] == Drawn(WaveformStages(if Refreshes(old(sound.frameCounter)) then sound.cachedWaveform[..]
                                                else old(sound.cachedWaveform[..]),
                                                sound.cachedWaveform[..], |emphasized|, sound.averageOffset),
                                 old(frame[..]), width, height)
    {
      ghost var s0 := frame[..];
      ghost var cache0 := sound.cachedWaveform[..];
      var first := DrawPassPair(frame, width, height, emphasized, timeFrame, 0.85, 2, 0.95, 1);
      ghost var cache1 := sound.cachedWaveform[..];
      ghost var s1 := frame[..];
      var again := DrawPassPair(frame, width, height, emphasized, timeFrame, 5.0, 0, 0.95, -1);
      if Refreshes(old(sound.frameCounter)) {
        RefreshesAfterFour(old(sound.frameCounter));
      }
      RefreshAgain(cache0, emphasized);
      assert again == cache1 == sound.cachedWaveform[..];
      var n, offset := |emphasized|, sound.averageOffset;
      PairsDrawn(s0, s1, frame[..], width, height, Pass(first, n, offset, 0.85, 2), Pass(cache1, n, offset, 0.95, 1),
                 Pass(cache1, n, offset, 5.0, 0), Pass(cache1, n, offset, 0.95, -1));
    }

    /** Two consecutive renderWaveformSimple calls one pixel to the right. Their counters
        differ in parity, so exactly one of them refreshes the cache: the first pass draws
        the cache as it was unless it refreshes it, the second sees the refreshed cache. */
    method DrawPassPair(frame: array<Byte>, width: nat, height: nat, emphasized: seq<real>, timeFrame: real,
                        alpha1: real, yOffset1: int, alpha2: real, yOffset2: int)
      returns (ghost first: seq<real>)
      requires sound.Valid() && IsSize(width) && IsSize(height)
      requires CanvasBytes(width, height) <= frame.Length && 0 < |emphasized| <= CacheLength
      modifies frame, sound, sound.cachedWaveform
      ensures sound.Valid()
      ensures sound.frameCounter == old(sound.frameCounter) + 2 && sound.averageOffset == old(sound.averageOffset)
      ensures sound.cachedWaveform[..] == emphasized + old(sound.cachedWaveform[|emphasized|..])
      ensures first == if Refreshes(old(sound.frameCounter)) then sound.cachedWaveform[..]
                       else old(sound.cachedWaveform[..])
      ensures var n := |emphasized|;
              frame[..] == Drawn([Pass(first, n, sound.averageOffset, alpha1, yOffset1),
                                  Pass(sound.cachedWaveform[..], n, sound.averageOffset, alpha2, yOffset2)],
                                 old(frame[..]), width, height)
    {
      ghost var s0 := frame[..];
      DrawPass(frame, width, height, emphasized, timeFrame, alpha1, yOffset1);
      first := sound.cachedWaveform[..];
      ghost var s1 := frame[..];
      DrawPass(frame, width, height, emphasized, timeFrame, alpha2, yOffset2);
      var n, offset := |emphasized|, sound.averageOffset;
      StagedPair(s0, s1, frame[..], width, height, Pass(first, n, offset, alpha1, yOffset1),
                 Pass(sound.cachedWaveform[..], n, offset, alpha2, yOffset2));
    }

    /** One renderWaveformSimple call one pixel to the right: it refreshes the cache on an
        even count, then draws the cache as the refresh leaves it. */
    method DrawPass(frame: array<Byte>, width: nat, height: nat, emphasized: seq<real>, timeFrame: real,
                    alpha: real, yOffset: int)
      requires sound.Valid() && IsSize(width) && IsSize(height)
      requires CanvasBytes(width, height) <= frame.Length && 0 < |emphasized| <= CacheLength
      modifies frame, sound, sound.cachedWaveform
      ensures sound.Valid()
      ensures sound.frameCounter == old(sound.frameCounter) + 1 && sound.averageOffset == old(sound.averageOffset)
      ensures sound.cachedWaveform[..] == if Refreshes(old(sound.frameCounter))
                                          then emphasized + old(sound.cachedWaveform[|emphasized|..])
                                          else old(sound.cachedWaveform[..])
      ensures frame[..] == Staged(Pass(sound.cachedWaveform[..], |emphasized|, sound.averageOffset, alpha, yOffset),
                                  old(frame[..]), width, height)
    {
      ghost var cache0 := sound.cachedWaveform[..];
      ghost var refreshes := Refreshes(sound.frameCounter);
      sound.RenderWaveformSimple(timeFrame, frame, width, height, emphasized, alpha, yOffset, 1);
      CacheAfterPass(sound.cachedWaveform[..], cache0, emphasized, refreshes);
    }

    /** The chasers, rotate and scale stages of render. */
    method ApplyTransforms(frame: array<Byte>, width: nat, height: nat, timeFrame: real, currentTime: nat,
                           sin: real -> real, cos: real -> real, chasers: (real, seq<Byte>) -> seq<Byte>,
                           rotateRand: nat)
      requires tempBuffer != null && frame != tempBuffer && IsSize(width) && IsSize(height)
      requires CanvasBytes(width, height) <= frame.Length && CanvasBytes(width, height) <= tempBuffer.Length
      requires forall r: real, s: seq<Byte> :: |chasers(r, s)| == |s|
      modifies frame, tempBuffer, rotator
      ensures rotator.State() == Advance(old(rotator.State()), rotateRand)
      ensures frame[..] == Drawn(TransformStages(speedScalar, chasers, sin(rotator.lastTheta), cos(rotator.lastTheta)),
                                 old(frame[..]), width, height)
    {
      var frameSize := width * height * 4;
      assert frameSize == CanvasBytes(width, height);
      var scalar := speedScalar;
      ghost var s0 := frame[..];
      OverwritePrefix(frame, chasers(scalar, frame[..frameSize]));
      ghost var chased := frame[..];
      ghost var chase := Chase(scalar, chasers);
      assert chased == Staged(chase, s0, width, height) by {
        assert chased == chased[..frameSize] + chased[frameSize..];
      }
      rotator.Rotate(timeFrame, tempBuffer, frame, 0.02 * currentTime as real, 0.85, width, height,
                     sin, cos, rotateRand);
      ghost var rotated := frame[..];
      ghost var rotate := Rotate(sin(rotator.lastTheta), cos(rotator.lastTheta));
      assert rotated == Staged(rotate, chased, width, height) by {
        assert rotated == rotated[..frameSize] + rotated[frameSize..];
      }
      Scale(frame, tempBuffer, ZoomFactor, width, height);
      assert frame[..] == Staged(Zoom(ZoomFactor), rotated, width, height) by {
        assert frame[..] == frame[..frameSize] + frame[frameSize..];
      }
      DrawnSnoc([chase], rotate, s0, width, height);
      DrawnSnoc([chase, rotate], Zoom(ZoomFactor), s0, width, height);
      assert [chase, rotate] + [Zoom(ZoomFactor)] == TransformStages(scalar, chasers, sin(rotator.lastTheta), cos(rotator.lastTheta));
    }

    /** `render`. The time, the values rand() would return and the stages outside this
        model are parameters. The ghost results name the history the frame was drawn on
        and what the energy detector computed. */
    method Render(frame: array<Byte>, width: nat, height: nat, waveform: seq<Byte>, spectrum: seq<Byte>,
                  bitDepth: Byte, speed: real, currentTime: nat, sampleRate: nat,
                  sin: real -> real, cos: real -> real, sqrt: real -> real,
                  blur: seq<Byte> -> seq<Byte>, fade: seq<Byte> -> seq<Byte>,
                  chasers: (real, seq<Byte>) -> seq<Byte>, reduceBitDepth: (seq<Byte>, Byte) -> seq<Byte>,
                  paletteRand: nat, rotateRand: nat)
      returns (ghost history: seq<Byte>, ghost call: Call, ghost flux: real)
      requires Valid() && BetweenFrames() && frame != prevFrame && frame != tempBuffer
      requires IsSize(width) && IsSize(height) && IsSize(currentTime)
      requires CanvasBytes(width, height) <= frame.Length
      requires RenderableInput(waveform, spectrum) && sampleRate > 0
      requires forall t :: -1.0 <= sin(t) <= 1.0
      requires forall t :: sqrt(t) >= 0.0
      requires KeepsLength(blur) && KeepsLength(fade)
      requires forall r: real, s: seq<Byte> :: |chasers(r, s)| == |s|
      requires forall s: seq<Byte>, d: Byte :: |reduceBitDepth(s, d)| == |s|
      modifies this, frame, prevFrame, tempBuffer, palette, palette.table, sound, sound.cachedWaveform
      modifies detector, detector.previousSpectrum, detector.weights, detector.filter, rotator
      ensures Valid() && BetweenFrames()
      ensures |waveform| == 0 || |spectrum| == 0 ==>
                frame[..] == old(frame[..]) && CurrentScene() == old(CurrentScene()) &&
                isLastFrameInitialized == old(isLastFrameInitialized) &&
                prevTime == old(prevTime) && prevFrameSize == old(prevFrameSize) &&
                speedScalar == old(speedScalar) && lastFrameTime == old(lastFrameTime) && fps == old(fps) &&
                BufferState() == old(BufferState())
      ensures |waveform| > 0 && |spectrum| > 0 ==>
                isLastFrameInitialized &&
                BufferState() == Reserved(old(BufferState()), width, height, CanvasBytes(width, height)) &&
                speedScalar == (if old(isLastFrameInitialized) then old(speedScalar) + speed else old(speedScalar)) &&
                fps == NextFps(old(lastFrameTime), old(fps), currentTime) &&
                lastFrameTime == currentTime as real &&
                prevFrame != null && prevFrame[..CanvasBytes(width, height)] == frame[..CanvasBytes(width, height)] &&
                prevTime == currentTime && prevFrameSize == CanvasBytes(width, height)
      ensures |waveform| > 0 && |spectrum| > 0 ==>
                FrameEffect(old(CurrentScene()), CurrentScene(), waveform, spectrum, currentTime, sampleRate,
                            sin, cos, sqrt, paletteRand, rotateRand, call, flux)
      ensures |waveform| > 0 && |spectrum| > 0 ==>
                var n := CanvasBytes(width, height);
                var s := CurrentScene();
                |history| == n &&
                (!old(isLastFrameInitialized) ==> forall k :: 0 <= k < n ==> history[k] == 0) &&
                (old(isLastFrameInitialized) && ReservationFor(old(BufferState()), width, height, n) == Keep ==>
                   history == blur(old(prevFrame[..n]))) &&
                frame[..n] == Finished(Drawn(RenderStages(s.entries, s.cache, |waveform|, s.averageOffset,
                                                          speedScalar, chasers, sin(s.angles.last),
                                                          cos(s.angles.last)),
                                             history + old(frame[n..]), width, height)[..n],
                                       bitDepth, reduceBitDepth)
    {
      history, call, flux := [], Gated, 0.0;
      if |waveform| == 0 {
        return;
      }
      if |spectrum| == 0 {
        return;
      }
      ghost var s1;
      history, call, flux, s1 := RenderFrame(frame, width, height, waveform, spectrum, bitDepth, speed,
                                             currentTime, sampleRate, sin, cos, sqrt, blur, fade, chasers,
                                             reduceBitDepth, paletteRand, rotateRand, CurrentScene());
    }

    /** render for a frame with audio data: begin, then compose and end. */
    method RenderFrame(frame: array<Byte>, width: nat, height: nat, waveform: seq<Byte>, spectrum: seq<Byte>,
                       bitDepth: Byte, speed: real, currentTime: nat, sampleRate: nat,
                       sin: real -> real, cos: real -> real, sqrt: real -> real,
                       blur: seq<Byte> -> seq<Byte>, fade: seq<Byte> -> seq<Byte>,
                       chasers: (real, seq<Byte>) -> seq<Byte>, reduceBitDepth: (seq<Byte>, Byte) -> seq<Byte>,
                       paletteRand: nat, rotateRand: nat, ghost s0: Scene)
      returns (ghost history: seq<Byte>, ghost call: Call, ghost flux: real, ghost s1: Scene)
      requires Valid() && BetweenFrames() && frame != prevFrame && frame != tempBuffer
      requires IsSize(width) && IsSize(height) && IsSize(currentTime)
      requires CanvasBytes(width, height) <= frame.Length
      requires 3 <= |waveform| <= CacheLength && |spectrum| > 0 && sampleRate > 0
      requires forall t :: -1.0 <= sin(t) <= 1.0
      requires forall t :: sqrt(t) >= 0.0
      requires KeepsLength(blur) && KeepsLength(fade)
      requires forall r: real, s: seq<Byte> :: |chasers(r, s)| == |s|
      requires forall s: seq<Byte>, d: Byte :: |reduceBitDepth(s, d)| == |s|
      requires s0 == CurrentScene()
      modifies this, frame, prevFrame, tempBuffer, palette, palette.table, sound, sound.cachedWaveform
      modifies detector, detector.previousSpectrum, detector.weights, detector.filter, rotator
      ensures Valid() && BetweenFrames() && s1 == CurrentScene()
      ensures isLastFrameInitialized &&
              BufferState() == Reserved(old(BufferState()), width, height, CanvasBytes(width, height)) &&
              speedScalar == (if old(isLastFrameInitialized) then old(speedScalar) + speed else old(speedScalar)) &&
              fps == NextFps(old(lastFrameTime), old(fps), currentTime) &&
              lastFrameTime == currentTime as real &&
              prevFrame != null && prevFrame[..CanvasBytes(width, height)] == frame[..CanvasBytes(width, height)] &&
              prevTime == currentTime && prevFrameSize == CanvasBytes(width, height)
      ensures FrameEffect(s0, s1, waveform, spectrum, currentTime, sampleRate, sin, cos, sqrt,
                          paletteRand, rotateRand, call, flux)
      ensures var n := CanvasBytes(width, height);
              |history| == n &&
              (!old(isLastFrameInitialized) ==> forall k :: 0 <= k < n ==> history[k] == 0) &&
              (old(isLastFrameInitialized) && ReservationFor(old(BufferState()), width, height, n) == Keep ==>
                 history == blur(old(prevFrame[..n]))) &&
              frame[..n] == Finished(Drawn(RenderStages(s1.entries, s1.cache, |waveform|, s1.averageOffset,
                                                        speedScalar, chasers, sin(s1.angles.last),
                                                        cos(s1.angles.last)),
                                           history + old(frame[n..]), width, height)[..n],
                                     bitDepth, reduceBitDepth)
    {
      BeginFrame(frame, width, height, currentTime);
      history, call, flux, s1 := ComposeAndEnd(frame, width, height, waveform, spectrum, bitDepth, speed,
                                               currentTime, sampleRate, sin, cos, sqrt, blur, fade, chasers,
                                               reduceBitDepth, paletteRand, rotateRand, s0);
    }

    /** The rest of render once the buffers are reserved: compose, then end. */
    method ComposeAndEnd(frame: array<Byte>, width: nat, height: nat, waveform: seq<Byte>, spectrum: seq<Byte>,
                         bitDepth: Byte, speed: real, currentTime: nat, sampleRate: nat,
                         sin: real -> real, cos: real -> real, sqrt: real -> real,
                         blur: seq<Byte> -> seq<Byte>, fade: seq<Byte> -> seq<Byte>,
                         chasers: (real, seq<Byte>) -> seq<Byte>, reduceBitDepth: (seq<Byte>, Byte) -> seq<Byte>,
                         paletteRand: nat, rotateRand: nat, ghost s0: Scene)
      returns (ghost history: seq<Byte>, ghost call: Call, ghost flux: real, ghost s1: Scene)
      requires Valid() && Refreshes(sound.frameCounter)
      requires prevFrame != null && frame != prevFrame && frame != tempBuffer
      requires IsSize(width) && IsSize(height) && IsSize(currentTime)
      requires CanvasBytes(width, height) <= frame.Length && CanvasBytes(width, height) <= tempBufferSize
      requires !isLastFrameInitialized ==> prevFrameSize == CanvasBytes(width, height)
      requires 3 <= |waveform| <= CacheLength && |spectrum| > 0 && sampleRate > 0
      requires forall t :: -1.0 <= sin(t) <= 1.0
      requires forall t :: sqrt(t) >= 0.0
      requires KeepsLength(blur) && KeepsLength(fade)
      requires forall r: real, s: seq<Byte> :: |chasers(r, s)| == |s|
      requires forall s: seq<Byte>, d: Byte :: |reduceBitDepth(s, d)| == |s|
      requires s0 == CurrentScene()
      modifies this, frame, prevFrame, tempBuffer, palette, palette.table, sound, sound.cachedWaveform
      modifies detector, detector.previousSpectrum, detector.weights, detector.filter, rotator
      ensures Valid() && BetweenFrames() && s1 == CurrentScene()
      ensures isLastFrameInitialized && BufferState() == old(BufferState()) && prevFrame == old(prevFrame) &&
              speedScalar == (if old(isLastFrameInitialized) then old(speedScalar) + speed else old(speedScalar)) &&
              fps == old(fps) && lastFrameTime == old(lastFrameTime) &&
              prevFrame[..CanvasBytes(width, height)] == frame[..CanvasBytes(width, height)] &&
              prevTime == currentTime && prevFrameSize == CanvasBytes(width, height)
      ensures FrameEffect(s0, s1, waveform, spectrum, currentTime, sampleRate, sin, cos, sqrt,
                          paletteRand, rotateRand, call, flux)
      ensures var n := CanvasBytes(width, height);
              |history| == n &&
              (!old(isLastFrameInitialized) ==> forall k :: 0 <= k < n ==> history[k] == 0) &&
              (old(isLastFrameInitialized) ==> history == blur(old(prevFrame[..n]))) &&
              frame[..n] == Finished(Drawn(RenderStages(s1.entries, s1.cache, |waveform|, s1.averageOffset,
                                                        speedScalar, chasers, sin(s1.angles.last),
                                                        cos(s1.angles.last)),
                                           history + old(frame[n..]), width, height)[..n],
                                     bitDepth, reduceBitDepth)
    {
      var frameSize := width * height * 4;
      history, call, flux, s1 := ComposeFrame(frame, width, height, waveform, spectrum, speed, currentTime,
                                              sampleRate, sin, cos, sqrt, blur, fade, chasers, paletteRand,
                                              rotateRand, s0);
      ghost var composed := frame[..];
      EndFrame(frame, frameSize, bitDepth, reduceBitDepth, currentTime);
    }

    /** The start of render for a frame with audio data: the frame-rate estimate, the
        first history size, and the buffer reservation. */
    method BeginFrame(frame: array<Byte>, width: nat, height: nat, currentTime: nat)
      requires Valid() && BetweenFrames() && frame != prevFrame && frame != tempBuffer
      requires CanvasBytes(width, height) <= frame.Length
      modifies this, frame
      ensures Valid() && prevFrame != null && frame != prevFrame && frame != tempBuffer
      ensures BufferState() == Reserved(old(BufferState()), width, height, CanvasBytes(width, height))
      ensures fps == NextFps(old(lastFrameTime), old(fps), currentTime) && lastFrameTime == currentTime as real
      ensures prevFrameSize == (if old(prevFrameSize) == 0 then CanvasBytes(width, height) else old(prevFrameSize))
      ensures !isLastFrameInitialized ==> prevFrameSize == CanvasBytes(width, height)
      ensures isLastFrameInitialized == old(isLastFrameInitialized) && prevTime == old(prevTime)
      ensures speedScalar == old(speedScalar)
      ensures ReservationFor(old(BufferState()), width, height, CanvasBytes(width, height)) == Keep ==>
                prevFrame == old(prevFrame) && tempBuffer == old(tempBuffer)
      ensures (prevFrame == old(prevFrame) && tempBuffer == old(tempBuffer)) || (fresh(prevFrame) && fresh(tempBuffer))
      ensures frame[CanvasBytes(width, height)..] == old(frame[CanvasBytes(width, height)..])
    {
      fps := NextFps(lastFrameTime, fps, currentTime);
      lastFrameTime := currentTime as real;
      var frameSize := width * height * 4;
      if prevFrameSize == 0 {
        prevFrameSize := frameSize;
      }
      ReserveAndUpdateMemory(width, height, frame, frameSize);
    }

    /** The middle of render: the bass-emphasized waveform, the history block and the
        drawing stages. The buffer for the emphasized waveform is fresh and its last two
        entries are never written, so the cache receives unspecified values there. */
    method ComposeFrame(frame: array<Byte>, width: nat, height: nat, waveform: seq<Byte>, spectrum: seq<Byte>,
                        speed: real, currentTime: nat, sampleRate: nat,
                        sin: real -> real, cos: real -> real, sqrt: real -> real,
                        blur: seq<Byte> -> seq<Byte>, fade: seq<Byte> -> seq<Byte>,
                        chasers: (real, seq<Byte>) -> seq<Byte>, paletteRand: nat, rotateRand: nat,
                        ghost s0: Scene)
      returns (ghost history: seq<Byte>, ghost call: Call, ghost flux: real, ghost s1: Scene)
      requires Valid() && Refreshes(sound.frameCounter)
      requires prevFrame != null && frame != prevFrame && frame != tempBuffer
      requires IsSize(width) && IsSize(height) && IsSize(currentTime)
      requires CanvasBytes(width, height) <= frame.Length && CanvasBytes(width, height) <= tempBufferSize
      requires !isLastFrameInitialized ==> prevFrameSize == CanvasBytes(width, height)
      requires 3 <= |waveform| <= CacheLength && |spectrum| > 0 && sampleRate > 0
      requires forall t :: -1.0 <= sin(t) <= 1.0
      requires forall t :: sqrt(t) >= 0.0
      requires KeepsLength(blur) && KeepsLength(fade)
      requires forall r: real, s: seq<Byte> :: |chasers(r, s)| == |s|
      requires s0 == CurrentScene()
      modifies this, frame, prevFrame, tempBuffer, palette, palette.table, sound, sound.cachedWaveform
      modifies detector, detector.previousSpectrum, detector.weights, detector.filter, rotator
      ensures Valid() && isLastFrameInitialized && s1 == CurrentScene()
      ensures Refreshes(sound.frameCounter)
      ensures prevFrame == old(prevFrame) && tempBuffer == old(tempBuffer) && BufferState() == old(BufferState())
      ensures prevTime == old(prevTime) && prevFrameSize == old(prevFrameSize)
      ensures lastFrameTime == old(lastFrameTime) && fps == old(fps)
      ensures speedScalar == (if old(isLastFrameInitialized) then old(speedScalar) + speed else old(speedScalar))
      ensures FrameEffect(s0, s1, waveform, spectrum, currentTime, sampleRate, sin, cos, sqrt,
                          paletteRand, rotateRand, call, flux)
      ensures var n := CanvasBytes(width, height);
              |history| == n &&
              (!old(isLastFrameInitialized) ==> forall k :: 0 <= k < n ==> history[k] == 0) &&
              (old(isLastFrameInitialized) ==> history == blur(old(prevFrame[..n]))) &&
              frame[..] == Drawn(RenderStages(s1.entries, s1.cache, |waveform|, s1.averageOffset, speedScalar,
                                              chasers, sin(s1.angles.last), cos(s1.angles.last)),
                                 history + old(frame[n..]), width, height)
    {
      var emphasizedWaveform := new real[|waveform|];
      sound.SmoothBassEmphasizedWaveform(waveform, emphasizedWaveform, width, 0.7);
      ghost var mid := CurrentScene();
      assert mid == s0.(averageOffset := mid.averageOffset);
      ghost var emphasized := emphasizedWaveform[..];
      history, call, flux, s1 := RestoreAndDraw(frame, width, height, waveform, spectrum, emphasizedWaveform[..],
                                                speed, currentTime, sampleRate, sin, cos, sqrt, blur, fade,
                                                chasers, paletteRand, rotateRand, mid);
      assert s1.cache[..|waveform|] == emphasized;
    }

    /** The history block of render, then its drawing stages. */
    method RestoreAndDraw(frame: array<Byte>, width: nat, height: nat, waveform: seq<Byte>, spectrum: seq<Byte>,
                          emphasized: seq<real>, speed: real, currentTime: nat, sampleRate: nat,
                          sin: real -> real, cos: real -> real, sqrt: real -> real,
                          blur: seq<Byte> -> seq<Byte>, fade: seq<Byte> -> seq<Byte>,
                          chasers: (real, seq<Byte>) -> seq<Byte>, paletteRand: nat, rotateRand: nat,
                          ghost s0: Scene)
      returns (ghost history: seq<Byte>, ghost call: Call, ghost flux: real, ghost s1: Scene)
      requires Valid() && Refreshes(sound.frameCounter)
      requires prevFrame != null && frame != prevFrame && frame != tempBuffer
      requires IsSize(width) && IsSize(height) && IsSize(currentTime)
      requires CanvasBytes(width, height) <= frame.Length && CanvasBytes(width, height) <= tempBufferSize
      requires !isLastFrameInitialized ==> prevFrameSize == CanvasBytes(width, height)
      requires 0 < |emphasized| <= CacheLength && |waveform| > 0 && |spectrum| > 0 && sampleRate > 0
      requires forall t :: -1.0 <= sin(t) <= 1.0
      requires forall t :: sqrt(t) >= 0.0
      requires KeepsLength(blur) && KeepsLength(fade)
      requires forall r: real, s: seq<Byte> :: |chasers(r, s)| == |s|
      requires s0 == CurrentScene()
      modifies this, frame, prevFrame, tempBuffer, palette, palette.table, sound, sound.cachedWaveform
      modifies detector, detector.previousSpectrum, detector.weights, detector.filter, rotator
      ensures Valid() && isLastFrameInitialized && s1 == CurrentScene()
      ensures Refreshes(sound.frameCounter)
      ensures prevFrame == old(prevFrame) && tempBuffer == old(tempBuffer) && BufferState() == old(BufferState())
      ensures prevTime == old(prevTime) && prevFrameSize == old(prevFrameSize)
      ensures lastFrameTime == old(lastFrameTime) && fps == old(fps)
      ensures speedScalar == (if old(isLastFrameInitialized) then old(speedScalar) + speed else old(speedScalar))
      ensures StagesEffect(s0, s1, waveform, spectrum, currentTime, sampleRate, sin, cos, sqrt,
                           paletteRand, rotateRand, call, flux)
      ensures s1.cache == emphasized + s0.cache[|emphasized|..] && s1.averageOffset == s0.averageOffset
      ensures var n := CanvasBytes(width, height);
              |history| == n &&
              (!old(isLastFrameInitialized) ==> forall k :: 0 <= k < n ==> history[k] == 0) &&
              (old(isLastFrameInitialized) ==> history == blur(old(prevFrame[..n]))) &&
              frame[..] == Drawn(RenderStages(s1.entries, s1.cache, |emphasized|, s1.averageOffset, speedScalar,
                                              chasers, sin(s1.angles.last), cos(s1.angles.last)),
                                 history + old(frame[n..]), width, height)
    {
      var frameSize := width * height * 4;
      var timeFrame := TimeFrame(prevTime, currentTime);
      RestoreHistory(frame, frameSize, speed, blur, fade);
      history := frame[..frameSize];
      assert frame[..] == history + old(frame[frameSize..]);
      call, flux, s1 := DrawStages(frame, width, height, waveform, spectrum, emphasized, timeFrame, speed,
                                   currentTime, sampleRate, sin, cos, sqrt, chasers, paletteRand, rotateRand, s0);
    }

    /** The end of render: the bit-depth reduction, the copy of the frame into the
        history, and the time and size of this frame. */
    method EndFrame(frame: array<Byte>, frameSize: nat, bitDepth: Byte,
                    reduceBitDepth: (seq<Byte>, Byte) -> seq<Byte>, currentTime: nat)
      requires Valid() && prevFrame != null && frame != prevFrame && frame != tempBuffer && isLastFrameInitialized
      requires Refreshes(sound.frameCounter)
      requires frameSize <= frame.Length && frameSize <= tempBufferSize && IsSize(currentTime)
      requires forall s: seq<Byte>, d: Byte :: |reduceBitDepth(s, d)| == |s|
      modifies this, frame, prevFrame
      ensures Valid() && BetweenFrames()
      ensures CurrentScene() == old(CurrentScene())
      ensures frame[..frameSize] == Finished(old(frame[..frameSize]), bitDepth, reduceBitDepth)
      ensures frame[frameSize..] == old(frame[frameSize..])
      ensures prevFrame == old(prevFrame) && prevFrame[..frameSize] == frame[..frameSize]
      ensures prevTime == currentTime && prevFrameSize == frameSize
      ensures isLastFrameInitialized && speedScalar == old(speedScalar)
      ensures lastFrameTime == old(lastFrameTime) && fps == old(fps) && BufferState() == old(BufferState())
    {
      if bitDepth < 32 {
        var reduced := reduceBitDepth(frame[..frameSize], bitDepth);
        OverwritePrefix(frame, reduced);
      }
      CopyBytes(prevFrame, frame, frameSize);
      prevTime := currentTime;
      prevFrameSize := frameSize;
    }
  }
}
