/** The two pixel passes of ImageGeneration.py: the noise pass
    (`_add_noise`), which edits an RGB buffer in place, and the gradient
    buffer of `_add_gradient_background`. Pixels are addressed `[x, y]`, as
    PIL's pixel access object addresses them. */
module PostProcess {
  import opened Colors
  import opened Draws

  /** `random.random() < intensity` for the three intensities the generators
      use, as thresholds on the scaled draw: the least integer `k` with
      `k / 2^53` not below the double nearest the intensity. */
  const CharacterNoise: int := 450359962737050   // intensity 0.05
  const WeaponNoise: int := 270215977642230      // intensity 0.03
  const EnvironmentNoise: int := 180143985094820 // intensity 0.02

  /** Every channel moved by the same offset `n`, each clamped to a byte. */
  function Shift(c: Rgb, n: int): (r: Rgb)
    ensures r.Valid()
  {
    Rgb(Clamp(c.r + n), Clamp(c.g + n), Clamp(c.b + n))
  }

  /** On a valid colour a shift never moves a channel against the sign of
      the offset nor further than the offset. */
  lemma ShiftBounded(c: Rgb, n: int)
    requires c.Valid()
    ensures var r := Shift(c, n);
      (n >= 0 ==> c.r <= r.r <= c.r + n && c.g <= r.g <= c.g + n && c.b <= r.b <= c.b + n)
      && (n <= 0 ==> c.r + n <= r.r <= c.r && c.g + n <= r.g <= c.g && c.b + n <= r.b <= c.b)
  {
  }

  /** A shift by zero changes nothing on a valid colour. */
  lemma ShiftZero(c: Rgb)
    requires c.Valid()
    ensures Shift(c, 0) == c
  {
    ShiftBounded(c, 0);
  }

  /** One pixel of the noise pass, read from the draw stream at `p`: it is
      selected when its `random()` draw is below the threshold, and then
      the next draw is one offset in `[-20, 20]` shared by the three
      channels. */
  function NoisePixel(c: Rgb, p: Stream, threshold: int): Rgb {
    if p.Random() < threshold then
      var n := p.Skip(1).RandInt(-20, 20);
      Shift(c, n)
    else c
  }

  /** A pixel whose draw is not below the threshold keeps its colour; any
      other pixel is shifted by one offset in `[-20, 20]`. */
  lemma NoisePixelCases(c: Rgb, p: Stream, threshold: int)
    ensures p.Random() >= threshold ==> NoisePixel(c, p, threshold) == c
    ensures p.Random() < threshold ==> exists n :: -20 <= n <= 20 && NoisePixel(c, p, threshold) == Shift(c, n)
  {
    if p.Random() < threshold {
      var n := p.Skip(1).RandInt(-20, 20);
      assert NoisePixel(c, p, threshold) == Shift(c, n);
    }
  }

  /** Draws one pixel consumes: two when it is selected, one otherwise. */
  function NoiseDraws(p: Stream, threshold: int): nat {
    if p.Random() < threshold then 2 else 1
  }

  /** Where the stream stands before the `k`-th pixel in scan order (column
      by column, top to bottom). Whether a pixel is selected depends on the
      draws only, never on the pixel's colour. */
  function NoiseCursor(s: Stream, threshold: int, k: nat): Stream {
    if k == 0 then s
    else
      var p := NoiseCursor(s, threshold, k - 1);
      p.Skip(NoiseDraws(p, threshold))
  }

  /** The pass reads between one and two draws per pixel, from the same
      sequence. */
  lemma {:induction false} NoiseCursorAdvance(s: Stream, threshold: int, k: nat)
    ensures NoiseCursor(s, threshold, k).draws == s.draws
    ensures s.pos + k <= NoiseCursor(s, threshold, k).pos <= s.pos + 2 * k
  {
    if k > 0 {
      NoiseCursorAdvance(s, threshold, k - 1);
    }
  }

  /** With a threshold of zero or less no pixel is selected: each pixel reads
      exactly one draw and keeps its colour. */
  lemma {:induction false} NoiseCursorUnselected(s: Stream, threshold: int, k: nat)
    requires threshold <= 0
    ensures NoiseCursor(s, threshold, k) == s.Skip(k)
  {
    if k > 0 {
      NoiseCursorUnselected(s, threshold, k - 1);
    }
  }

  /** Position in scan order of the first pixel of column `x`: the pixels
      of the `x` columns of `height` pixels before it. */
  function ColumnStart(x: nat, height: nat): nat {
    if x == 0 then 0 else ColumnStart(x - 1, height) + height
  }

  /** Position of pixel `[x, y]` in scan order over columns of `height` pixels. */
  function ScanIndex(x: nat, y: nat, height: nat): nat {
    ColumnStart(x, height) + y
  }

  /** Scan order runs column by column: pixel `[x, y]` comes `x * height + y`-th. */
  lemma {:induction false} ScanIndexClosedForm(x: nat, y: nat, height: nat)
    ensures ScanIndex(x, y, height) == x * height + y
  {
    if x > 0 {
      ScanIndexClosedForm(x - 1, y, height);
      assert (x - 1) * height + height == x * height;
    }
  }

  /** `_add_noise(img, intensity)`: every pixel, column by column, is
      replaced by its noise value; the buffer keeps its size. */
  method AddNoise(img: array2<Rgb>, rng: DrawSource, threshold: int)
    modifies img, rng
    ensures forall x, y :: 0 <= x < img.Length0 && 0 <= y < img.Length1 ==>
      img[x, y] == NoisePixel(old(img[x, y]), NoiseCursor(old(rng.State()), threshold, ScanIndex(x, y, img.Length1)), threshold)
    ensures rng.State() == NoiseCursor(old(rng.State()), threshold, ScanIndex(img.Length0, 0, img.Length1))
  {
    ghost var s0 := rng.State();
    var width, height := img.Length0, img.Length1;
    for x := 0 to width
      invariant rng.State() == NoiseCursor(s0, threshold, ScanIndex(x, 0, height))
      invariant forall i, j :: 0 <= i < x && 0 <= j < height ==>
        img[i, j] == NoisePixel(old(img[i, j]), NoiseCursor(s0, threshold, ScanIndex(i, j, height)), threshold)
      invariant forall i, j :: x <= i < width && 0 <= j < height ==> img[i, j] == old(img[i, j])
    {
      NoiseColumn(img, rng, x, threshold, s0);
    }
  }

  /** One pass of the outer `for x` loop: column `x`, read from where the
      columns before it left the stream. */
  method NoiseColumn(img: array2<Rgb>, rng: DrawSource, x: nat, threshold: int, ghost s0: Stream)
    requires x < img.Length0
    requires rng.State() == NoiseCursor(s0, threshold, ScanIndex(x, 0, img.Length1))
    modifies img, rng
    ensures forall j :: 0 <= j < img.Length1 ==>
      img[x, j] == NoisePixel(old(img[x, j]), NoiseCursor(s0, threshold, ScanIndex(x, j, img.Length1)), threshold)
    ensures forall i, j :: 0 <= i < img.Length0 && 0 <= j < img.Length1 && i != x ==> img[i, j] == old(img[i, j])
    ensures rng.State() == NoiseCursor(s0, threshold, ScanIndex(x + 1, 0, img.Length1))
  {
    NoisePixels(img, rng, x, threshold, s0, ColumnStart(x, img.Length1));
  }

  /** The inner `for y` loop of the noise pass, over column `x`, whose first
      pixel is pixel `base` in scan order. */
  method NoisePixels(img: array2<Rgb>, rng: DrawSource, x: nat, threshold: int, ghost s0: Stream, ghost base: nat)
    requires x < img.Length0
    requires rng.State() == NoiseCursor(s0, threshold, base)
    modifies img, rng
    ensures forall j :: 0 <= j < img.Length1 ==>
      img[x, j] == NoisePixel(old(img[x, j]), NoiseCursor(s0, threshold, base + j), threshold)
    ensures forall i, j :: 0 <= i < img.Length0 && 0 <= j < img.Length1 && i != x ==> img[i, j] == old(img[i, j])
    ensures rng.State() == NoiseCursor(s0, threshold, base + img.Length1)
  {
    var height := img.Length1;
    for y := 0 to height
      invariant rng.State() == NoiseCursor(s0, threshold, base + y)
      invariant forall j :: 0 <= j < y ==>
        img[x, j] == NoisePixel(old(img[x, j]), NoiseCursor(s0, threshold, base + j), threshold)
      invariant forall j :: y <= j < height ==> img[x, j] == old(img[x, j])
      invariant forall i, j :: 0 <= i < img.Length0 && 0 <= j < height && i != x ==> img[i, j] == old(img[i, j])
    {
      ghost var p := rng.State();
      label BeforePixel:
      NoiseStep(img, rng, x, y, threshold);
      assert NoiseCursor(s0, threshold, base + y + 1) == p.Skip(NoiseDraws(p, threshold));
      forall j | 0 <= j < y + 1
        ensures img[x, j] == NoisePixel(old(img[x, j]), NoiseCursor(s0, threshold, base + j), threshold)
      {
        if j < y {
          assert img[x, j] == old@BeforePixel(img[x, j]);
        } else {
          assert old@BeforePixel(img[x, j]) == old(img[x, j]);
        }
      }
    }
  }

  /** One pass of the inner loop body on pixel `[x, y]`. */
  method NoiseStep(img: array2<Rgb>, rng: DrawSource, x: nat, y: nat, threshold: int)
    requires x < img.Length0 && y < img.Length1
    modifies img, rng
    ensures img[x, y] == NoisePixel(old(img[x, y]), old(rng.State()), threshold)
    ensures forall i, j :: 0 <= i < img.Length0 && 0 <= j < img.Length1 && (i != x || j != y) ==> img[i, j] == old(img[i, j])
    ensures rng.State() == old(rng.State()).Skip(NoiseDraws(old(rng.State()), threshold))
  {
    var u := rng.Random();
    if u < threshold {
      var c := img[x, y];
      var noise := rng.RandInt(-20, 20);
      img[x, y] := Rgb(Clamp(c.r + noise), Clamp(c.g + noise), Clamp(c.b + noise));
    }
  }

  /** The noise pass keeps every channel a byte. */
  lemma NoiseKeepsValid(c: Rgb, p: Stream, threshold: int)
    requires c.Valid()
    ensures NoisePixel(c, p, threshold).Valid()
    ensures -20 <= NoisePixel(c, p, threshold).r - c.r <= 20
    ensures -20 <= NoisePixel(c, p, threshold).g - c.g <= 20
    ensures -20 <= NoisePixel(c, p, threshold).b - c.b <= 20
  {
    if p.Random() < threshold {
      ShiftBounded(c, p.Skip(1).RandInt(-20, 20));
    }
  }

  /** Every offset in `[-20, 20]` can be the one a selected pixel receives. */
  lemma NoiseReachesEveryOffset(c: Rgb, n: int, threshold: int)
    requires -20 <= n <= 20 && threshold > 0
    ensures exists p: Stream :: NoisePixel(c, p, threshold) == Shift(c, n)
  {
    var p := Stream([0, n + 20], 0);
    assert p.Random() == 0;
    assert p.Skip(1).RandInt(-20, 20) == n;
    assert NoisePixel(c, p, threshold) == Shift(c, n);
  }

  /** `Image.new('RGB', (width, height), colors[0])` followed by the
      `putpixel` loops of `_add_gradient_background`: row `y` is filled with
      the interpolated colour of that row. */
  method GradientBackground(top: Rgb, bottom: Rgb, width: nat, height: nat) returns (g: array2<Rgb>)
    ensures fresh(g) && g.Length0 == width && g.Length1 == height
    ensures forall x, y :: 0 <= x < width && 0 <= y < height ==> g[x, y] == GradientRow(top, bottom, y, height)
  {
    g := new Rgb[width, height]((x, y) => top);
    for y := 0 to height
      invariant forall i, j :: 0 <= i < width && 0 <= j < y ==> g[i, j] == GradientRow(top, bottom, j, height)
    {
      var color := GradientRow(top, bottom, y, height);
      for x := 0 to width
        invariant forall i, j :: 0 <= i < width && 0 <= j < y ==> g[i, j] == GradientRow(top, bottom, j, height)
        invariant forall i :: 0 <= i < x ==> g[i, y] == color
      {
        g[x, y] := color;
      }
    }
  }

  /** The colour `GradientBackground` writes across row `y` is a valid
      colour, is the top colour on row 0 and stays between the two colours,
      channel by channel. */
  lemma GradientBufferRows(top: Rgb, bottom: Rgb, y: int, height: int)
    requires top.Valid() && bottom.Valid() && 0 <= y < height
    ensures GradientRow(top, bottom, y, height).Valid()
    ensures y == 0 ==> GradientRow(top, bottom, y, height) == top
    ensures Min(top.r, bottom.r) <= GradientRow(top, bottom, y, height).r <= Max(top.r, bottom.r)
    ensures Min(top.g, bottom.g) <= GradientRow(top, bottom, y, height).g <= Max(top.g, bottom.g)
    ensures Min(top.b, bottom.b) <= GradientRow(top, bottom, y, height).b <= Max(top.b, bottom.b)
  {
    GradientRowBetween(top, bottom, y, height);
    GradientFirstRow(top, bottom, height);
  }
}
