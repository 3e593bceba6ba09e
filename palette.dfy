/** The colour palette (Milky/Visualizer/video/palette.c): 256 RGB entries chosen from
    one of four gradient families, regenerated on an energy spike at most every ten
    seconds, and applied to the canvas by using each pixel's red byte as an index. */
module Palette {
  import opened Numeric

  /** MILKY_PALETTE_SIZE */
  const PaletteSize: nat := 256
  /** MILKY_MAX_COLOR: the brightest component any generated entry holds. */
  const MaxColor: nat := 63
  /** Number of gradient entries at the bottom of every family. */
  const GradientLength: nat := 64
  /** The minimum time between two spike-triggered regenerations, in milliseconds. */
  const RegenerateInterval: nat := 10 * 1000

  datatype Rgb = Rgb(r: Byte, g: Byte, b: Byte)

  /** Integer square root. */
  function ISqrt(n: nat): (r: nat)
    ensures r * r <= n < (r + 1) * (r + 1)
    decreases n
  {
    if n < 4 then (if n == 0 then 0 else 1)
    else
      var h := ISqrt(n / 4);
      RootDoubles(n, h);
      if (2 * h + 1) * (2 * h + 1) <= n then 2 * h + 1 else 2 * h
  }

  /** The root of n lies between twice the root of n / 4 and two more than that. */
  lemma RootDoubles(n: nat, h: nat)
    requires h * h <= n / 4 < (h + 1) * (h + 1)
    ensures (2 * h) * (2 * h) <= n < (2 * h + 2) * (2 * h + 2)
  {
    var m := n / 4;
    var sq, sq1 := h * h, (h + 1) * (h + 1);
    assert (2 * h) * (2 * h) == 4 * sq;
    assert (2 * h + 2) * (2 * h + 2) == 4 * sq1;
    assert 4 * m <= n < 4 * m + 4;
  }

  /** `(uint8_t)(sqrtf(a) * 8)`, i.e. the floor of 8 * sqrt(a) = sqrt(64 * a). */
  function Sqrt8(a: nat): (r: nat)
    ensures r * r <= 64 * a < (r + 1) * (r + 1)
    ensures a < GradientLength ==> r <= MaxColor
  {
    var r := ISqrt(64 * a);
    assert a < GradientLength ==> r <= MaxColor by {
      if a < GradientLength { SquareBelowBound(r, 64 * a, 64); }
    }
    r
  }

  /** A root whose square lies below b * b is below b. */
  lemma SquareBelowBound(r: nat, n: nat, b: nat)
    requires r * r <= n < b * b
    ensures r < b
  {
    if r >= b {
      MulMonotone(b, r, b);
      MulMonotone(b, r, r);
    }
  }

  lemma MulMonotone(a: nat, b: nat, c: nat)
    requires a <= b
    ensures a * c <= b * c
  {
  }

  /** `a * a / 64` */
  function Square64(a: nat): nat
  {
    a * a / 64
  }

  /** The amber family's fade, `(256 - a) * 63 / (256 - 64)`. */
  function FadeValue(a: nat): nat
    requires a <= PaletteSize
  {
    (PaletteSize - a) * MaxColor / (PaletteSize - GradientLength)
  }

  /** Entry `a` of palette family `family` (purple majik, green lantern II, amber sun,
      frosty), as generatePalette's loops set it. */
  function FamilyEntry(family: nat, a: nat): (e: Rgb)
    requires family < 4 && a < PaletteSize
  {
    if a < GradientLength then
      assert Square64(a) <= 63 by { MulMonotone(a, 63, a); MulMonotone(a, 63, 63); }
      var s := Sqrt8(a);
      if family == 0 then Rgb(a, Square64(a), s)
      else if family == 1 then Rgb(Square64(a), s, a)
      else if family == 2 then Rgb(s, a, Square64(a))
      else Rgb(Square64(a), a, s)
    else if family == 2 then
      var f := FadeValue(a);
      assert f <= MaxColor by { MulMonotone(PaletteSize - a, 192, MaxColor); }
      Rgb(f, f, f)
    else Rgb(MaxColor, MaxColor, MaxColor)
  }

  /** Palette family `family` as a whole table of entries. */
  function Family(family: nat): (p: seq<Rgb>)
    requires family < 4
    ensures |p| == PaletteSize
  {
    seq(PaletteSize, a requires 0 <= a < PaletteSize => FamilyEntry(family, a))
  }

  predicate Dim(e: Rgb)
  {
    e.r <= MaxColor && e.g <= MaxColor && e.b <= MaxColor
  }

  /** No generated entry has a component above MILKY_MAX_COLOR. */
  lemma FamilyEntryDim(family: nat, a: nat)
    requires family < 4 && a < PaletteSize
    ensures Dim(FamilyEntry(family, a))
  {
    if a < GradientLength {
      MulMonotone(a, 63, a);
      MulMonotone(a, 63, 63);
    } else if family == 2 {
      MulMonotone(PaletteSize - a, 192, MaxColor);
    }
  }

  /** Entry 0 of every family is black. */
  lemma EntryZeroBlack(family: nat)
    requires family < 4
    ensures FamilyEntry(family, 0) == Rgb(0, 0, 0)
  {
    assert ISqrt(0) == 0;
  }

  /** `a * a / 64` is non-decreasing. */
  lemma Square64Monotone(a: nat, b: nat)
    requires a <= b
    ensures Square64(a) <= Square64(b)
  {
    MulMonotone(a, b, a);
    MulMonotone(a, b, b);
  }

  /** floor(8 * sqrt(a)) is non-decreasing. */
  lemma Sqrt8Monotone(a: nat, b: nat)
    requires a <= b
    ensures Sqrt8(a) <= Sqrt8(b)
  {
    var ra, rb := Sqrt8(a), Sqrt8(b);
    MulMonotone(64, 64, a);
    SquareBelowBound(ra, 64 * a, rb + 1);
  }

  predicate Below(e: Rgb, f: Rgb)
  {
    e.r <= f.r && e.g <= f.g && e.b <= f.b
  }

  /** Within the gradient part every family brightens in every component. */
  lemma GradientMonotone(family: nat, a: nat, b: nat)
    requires family < 4 && a <= b < GradientLength
    ensures Below(FamilyEntry(family, a), FamilyEntry(family, b))
  {
    Square64Monotone(a, b);
    Sqrt8Monotone(a, b);
  }

  /** The amber family fades from MILKY_MAX_COLOR at entry 64 to black at entry 255,
      never brightening on the way. */
  lemma FadeMonotone(a: nat, b: nat)
    requires GradientLength <= a <= b < PaletteSize
    ensures FadeValue(b) <= FadeValue(a)
    ensures FadeValue(GradientLength) == MaxColor && FadeValue(PaletteSize - 1) == 0
  {
    MulMonotone(PaletteSize - b, PaletteSize - a, MaxColor);
  }

  /** The upper entries of the non-amber families are the brightest entries there are:
      every entry of the family lies below them. */
  lemma UpperIsBrightest(family: nat, a: nat, b: nat)
    requires family < 4 && family != 2
    requires a < PaletteSize && GradientLength <= b < PaletteSize
    ensures FamilyEntry(family, b) == Rgb(MaxColor, MaxColor, MaxColor)
    ensures Below(FamilyEntry(family, a), FamilyEntry(family, b))
  {
    FamilyEntryDim(family, a);
  }

  /** The regeneration rule of applyPaletteToCanvas: on a spike once more than ten
      seconds have elapsed by the unsigned clock difference, or whenever the recorded
      time is still 0. */
  function ShouldRegenerate(spikeDetected: bool, currentTime: nat, lastInitTime: nat): bool
    requires IsSize(currentTime) && IsSize(lastInitTime)
  {
    (spikeDetected && SizeSub(currentTime, lastInitTime) > RegenerateInterval) || lastInitTime == 0
  }

  /** The first call always generates a palette, spike or not. */
  lemma FirstCallRegenerates(spikeDetected: bool, currentTime: nat)
    requires IsSize(currentTime)
    ensures ShouldRegenerate(spikeDetected, currentTime, 0)
  {
  }

  /** Once a non-zero time is recorded, regeneration happens exactly on a spike more than
      ten seconds after it, when the clock has not gone backwards. */
  lemma RegenerateIff(spikeDetected: bool, currentTime: nat, lastInitTime: nat)
    requires IsSize(currentTime) && IsSize(lastInitTime)
    requires 0 < lastInitTime <= currentTime
    ensures ShouldRegenerate(spikeDetected, currentTime, lastInitTime) <==>
            spikeDetected && currentTime - lastInitTime > RegenerateInterval
  {
  }

  /** When the clock reads less than the recorded time (by less than 2^64 - 10000), the
      unsigned difference wraps around and any spike regenerates the palette at once. */
  lemma BackwardsClockRegenerates(currentTime: nat, lastInitTime: nat)
    requires IsSize(currentTime) && IsSize(lastInitTime)
    requires currentTime < lastInitTime < currentTime + (SizeModulus - RegenerateInterval)
    ensures ShouldRegenerate(true, currentTime, lastInitTime)
  {
  }

  /** Byte `k mod 4` of a pixel recoloured with palette entry e: R, G, B, then opaque alpha. */
  function RemappedByte(e: Rgb, j: nat): Byte
    requires j < 4
  {
    if j == 0 then e.r else if j == 1 then e.g else if j == 2 then e.b else 255
  }

  /** The canvas after applying palette `pal` to its first n pixels: each of them takes the
      entry its red byte indexes, with alpha 255; every other byte is kept. */
  function Remapped(s: seq<Byte>, pal: seq<Rgb>, n: nat): (r: seq<Byte>)
    requires |pal| == PaletteSize && 4 * n <= |s|
    ensures |r| == |s|
  {
    seq(|s|, k requires 0 <= k < |s| =>
      if k < 4 * n then RemappedByte(pal[s[k / 4 * 4]], k % 4) else s[k])
  }

  /** Four consecutive bytes replaced. */
  function SetQuad(s: seq<Byte>, k: nat, b0: Byte, b1: Byte, b2: Byte, b3: Byte): (r: seq<Byte>)
    requires k + 3 < |s|
    ensures |r| == |s|
  {
    s[k := b0][k + 1 := b1][k + 2 := b2][k + 3 := b3]
  }

  /** Recolouring one more pixel writes its four bytes and nothing else. */
  lemma RemappedStep(s: seq<Byte>, pal: seq<Rgb>, i: nat)
    requires |pal| == PaletteSize && 4 * (i + 1) <= |s|
    ensures Remapped(s, pal, i)[4 * i] == s[4 * i]
    ensures Remapped(s, pal, i + 1)
            == SetQuad(Remapped(s, pal, i), 4 * i, pal[s[4 * i]].r, pal[s[4 * i]].g, pal[s[4 * i]].b, 255)
  {
    var e := pal[s[4 * i]];
    var lhs := Remapped(s, pal, i + 1);
    var rhs := SetQuad(Remapped(s, pal, i), 4 * i, e.r, e.g, e.b, 255);
    forall k | 0 <= k < |s|
      ensures lhs[k] == rhs[k]
    {
      if 4 * i <= k < 4 * i + 4 {
        assert k / 4 * 4 == 4 * i;
      }
    }
  }

  /** Recolouring reads only the red bytes: two canvases that agree on them and on the
      bytes past the n pixels come out the same. */
  lemma {:induction false} RemapReadsRedOnly(s: seq<Byte>, t: seq<Byte>, pal: seq<Rgb>, n: nat)
    requires |pal| == PaletteSize && 4 * n <= |s| && |s| == |t|
    requires forall i :: 0 <= i < n ==> s[4 * i] == t[4 * i]
    requires s[4 * n..] == t[4 * n..]
    ensures Remapped(s, pal, n) == Remapped(t, pal, n)
  {
    forall k | 0 <= k < |s|
      ensures Remapped(s, pal, n)[k] == Remapped(t, pal, n)[k]
    {
      if k < 4 * n {
        var i := k / 4;
        assert k / 4 * 4 == 4 * i;
        assert s[4 * i] == t[4 * i];
      } else {
        assert s[k] == s[4 * n..][k - 4 * n];
      }
    }
  }

  /** With a generated palette every recoloured pixel is dim, so recolouring the canvas a
      second time only ever indexes the 64 gradient entries. */
  lemma RemapWithGeneratedIsDim(s: seq<Byte>, pal: seq<Rgb>, n: nat, i: nat)
    requires |pal| == PaletteSize && 4 * n <= |s|
    requires forall a :: 0 <= a < PaletteSize ==> Dim(pal[a])
    requires i < n
    ensures Remapped(s, pal, n)[4 * i] < GradientLength
    ensures Remapped(s, pal, n)[4 * i + 1] <= MaxColor && Remapped(s, pal, n)[4 * i + 2] <= MaxColor
    ensures Remapped(s, pal, n)[4 * i + 3] == 255
  {
    var k := 4 * i;
    assert k / 4 * 4 == k && (k + 1) / 4 * 4 == k && (k + 2) / 4 * 4 == k && (k + 3) / 4 * 4 == k;
    assert Dim(pal[s[k]]);
  }

  /** The palette table `milky_palettePalette` and the time it was last generated. */
  class PaletteTable {
    const table: array2<Byte>
    var lastInitTime: nat

    ghost predicate Valid()
      reads this
    {
      table.Length0 == PaletteSize && table.Length1 == 3 && IsSize(lastInitTime)
    }

    /** The static storage before the first call: every entry black, no time recorded. */
    constructor ()
      ensures Valid() && lastInitTime == 0
      ensures forall a :: 0 <= a < PaletteSize ==> Entry(a) == Rgb(0, 0, 0)
    {
      table := new Byte[PaletteSize, 3]((i, j) => 0);
      lastInitTime := 0;
    }

    function Entry(a: nat): Rgb
      requires Valid() && a < PaletteSize
      reads this, table
    {
      Rgb(table[a, 0], table[a, 1], table[a, 2])
    }

    /** The whole table as a sequence of entries. */
    function Entries(): (p: seq<Rgb>)
      requires Valid()
      reads this, table
      ensures |p| == PaletteSize
      ensures forall a :: 0 <= a < PaletteSize ==> p[a] == Entry(a)
    {
      seq(PaletteSize, a requires 0 <= a < table.Length0 && 3 <= table.Length1 reads table =>
        Rgb(table[a, 0], table[a, 1], table[a, 2]))
    }

    /** `setRGB`: entry `index` becomes (r, g, b); no other entry changes. */
    method SetRGB(index: Byte, r: Byte, g: Byte, b: Byte)
      requires Valid()
      modifies table
      ensures Valid()
      ensures Entry(index) == Rgb(r, g, b)
      ensures forall a :: 0 <= a < PaletteSize && a != index ==> Entry(a) == old(Entry(a))
    {
      table[index, 0] := r;
      table[index, 1] := g;
      table[index, 2] := b;
    }

    /** `generatePalette`, with the value of `rand()` as a parameter: family `rand % 4`
        fills entries 0..63 with its gradient and 64..255 with white or, for amber sun,
        the fade to black. */
    method Generate(rand: nat)
      requires Valid()
      modifies table
      ensures Valid()
      ensures forall a :: 0 <= a < PaletteSize ==> Entry(a) == FamilyEntry(rand % 4, a)
    {
      var family := rand % 4;
      for a := 0 to GradientLength
        invariant Valid()
        invariant forall k :: 0 <= k < a ==> Entry(k) == FamilyEntry(family, k)
      {
        assert Square64(a) <= 63 by { MulMonotone(a, 63, a); MulMonotone(a, 63, 63); }
        var sq := a * a / 64;
        var s := Sqrt8(a);
        if family == 0 {
          SetRGB(a, a, sq, s);
        } else if family == 1 {
          SetRGB(a, sq, s, a);
        } else if family == 2 {
          SetRGB(a, s, a, sq);
        } else {
          SetRGB(a, sq, a, s);
        }
      }
      for a := GradientLength to PaletteSize
        invariant Valid()
        invariant forall k :: 0 <= k < a ==> Entry(k) == FamilyEntry(family, k)
      {
        if family == 2 {
          var fadeValue := (PaletteSize - a) * MaxColor / (PaletteSize - GradientLength);
          assert fadeValue <= MaxColor by { MulMonotone(PaletteSize - a, 192, MaxColor); }
          SetRGB(a, fadeValue, fadeValue, fadeValue);
        } else {
          SetRGB(a, MaxColor, MaxColor, MaxColor);
        }
      }
    }

    /** The recolouring loop of applyPaletteToCanvas over the first n pixels. */
    method Recolour(canvas: array<Byte>, n: nat)
      requires Valid() && 4 * n <= canvas.Length
      modifies canvas
      ensures canvas[..] == Remapped(old(canvas[..]), Entries(), n)
    {
      ghost var pal := Entries();
      ghost var s := canvas[..];
      for i := 0 to n
        invariant canvas[..] == Remapped(s, pal, i)
      {
        ghost var t := canvas[..];
        RemappedStep(s, pal, i);
        var colorIndex := canvas[i * 4];
        canvas[i * 4] := table[colorIndex, 0];
        canvas[i * 4 + 1] := table[colorIndex, 1];
        canvas[i * 4 + 2] := table[colorIndex, 2];
        canvas[i * 4 + 3] := 255;
        assert canvas[..] == SetQuad(t, 4 * i, pal[s[4 * i]].r, pal[s[4 * i]].g, pal[s[4 * i]].b, 255);
      }
    }

    /** `applyPaletteToCanvas` on a width x height canvas, with the energy detector's spike
        flag and the value `rand()` would return as parameters. */
    method ApplyToCanvas(currentTime: nat, canvas: array<Byte>, width: nat, height: nat,
                         spikeDetected: bool, rand: nat)
      requires Valid() && IsSize(currentTime)
      requires 4 * (width * height) <= canvas.Length
      modifies this, table, canvas
      ensures Valid()
      ensures ShouldRegenerate(spikeDetected, currentTime, old(lastInitTime)) ==>
                lastInitTime == currentTime &&
                forall a :: 0 <= a < PaletteSize ==> Entry(a) == FamilyEntry(rand % 4, a)
      ensures !ShouldRegenerate(spikeDetected, currentTime, old(lastInitTime)) ==>
                lastInitTime == old(lastInitTime) &&
                forall a :: 0 <= a < PaletteSize ==> Entry(a) == old(Entry(a))
      ensures canvas[..] == Remapped(old(canvas[..]), Entries(), width * height)
      ensures var regenerate := ShouldRegenerate(spikeDetected, currentTime, old(lastInitTime));
              lastInitTime == (if regenerate then currentTime else old(lastInitTime)) &&
              Entries() == (if regenerate then Family(rand % 4) else old(Entries()))
    {
      var frameSize := width * height;
      if (spikeDetected && SizeSub(currentTime, lastInitTime) > RegenerateInterval) || lastInitTime == 0 {
        Generate(rand);
        lastInitTime := currentTime;
      }
      Recolour(canvas, frameSize);
    }
  }
}
