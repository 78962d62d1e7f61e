/** RGB colours, the per-channel clamp of the noise pass and the per-row
    linear interpolation of the gradient passes. */
module Colors {

  datatype Rgb = Rgb(r: int, g: int, b: int) {
    /** Every channel is a byte. */
    predicate Valid() {
      0 <= r <= 255 && 0 <= g <= 255 && 0 <= b <= 255
    }
  }

  const White := Rgb(255, 255, 255)

  /** `max(0, min(255, v))`. */
  function Clamp(v: int): (c: int)
    ensures 0 <= c <= 255
    ensures 0 <= v <= 255 ==> c == v
    ensures v < 0 ==> c == 0
    ensures v > 255 ==> c == 255
  {
    if v < 0 then 0 else if v > 255 then 255 else v
  }

  /** Python's `int()` of the exact quotient `n / d`: rounds toward zero. */
  function TruncDiv(n: int, d: int): (q: int)
    requires d > 0
    ensures n >= 0 ==> q * d <= n < q * d + d
    ensures n < 0 ==> q * d - d < n <= q * d
  {
    if n >= 0 then n / d else -((-n) / d)
  }

  /** `int(c0 * (1 - y/h) + c1 * (y/h))`, computed exactly as
      `(c0 * (h - y) + c1 * y) / h`. */
  function Lerp(c0: int, c1: int, y: int, h: int): int
    requires 0 <= y < h
  {
    TruncDiv(c0 * (h - y) + c1 * y, h)
  }

  /** The colour of row `y` of an `h`-row vertical gradient from `top` to `bottom`. */
  function GradientRow(top: Rgb, bottom: Rgb, y: int, h: int): Rgb
    requires 0 <= y < h
  {
    Rgb(Lerp(top.r, bottom.r, y, h), Lerp(top.g, bottom.g, y, h), Lerp(top.b, bottom.b, y, h))
  }

  function Min(a: int, b: int): int { if a <= b then a else b }
  function Max(a: int, b: int): int { if a <= b then b else a }

  /** Row 0 carries the top colour exactly. */
  lemma LerpFirstRow(c0: int, c1: int, h: int)
    requires h > 0
    ensures Lerp(c0, c1, 0, h) == c0
  {
    assert c0 * (h - 0) + c1 * 0 == c0 * h;
    if c0 < 0 {
      assert -(c0 * h) == (-c0) * h;
      DivBounds((-c0) * h, h, -c0, -c0);
    } else {
      DivBounds(c0 * h, h, c0, c0);
    }
  }

  /** Every row lies between the two endpoint channels. */
  lemma LerpBetween(c0: int, c1: int, y: int, h: int)
    requires 0 <= c0 && 0 <= c1
    requires 0 <= y < h
    ensures Min(c0, c1) <= Lerp(c0, c1, y, h) <= Max(c0, c1)
  {
    var n := c0 * (h - y) + c1 * y;
    var lo, hi := Min(c0, c1), Max(c0, c1);
    MulMonotone(lo, c0, h - y);
    MulMonotone(c0, hi, h - y);
    MulMonotone(lo, c1, y);
    MulMonotone(c1, hi, y);
    assert lo * h == lo * (h - y) + lo * y;
    assert hi * h == hi * (h - y) + hi * y;
    assert (hi + 1) * h == hi * h + h;
    DivBounds(n, h, lo, hi);
  }

  lemma MulMonotone(a: int, b: int, m: int)
    requires m >= 0
    ensures a <= b ==> a * m <= b * m
  {
    assert b * m - a * m == (b - a) * m;
  }

  /** Floor division by a positive `h` lands in `[lo, hi]` when `n` lies in
      `[lo * h, (hi + 1) * h)`. */
  lemma DivBounds(n: int, h: int, lo: int, hi: int)
    requires h > 0 && lo * h <= n < (hi + 1) * h
    ensures lo <= n / h <= hi
  {
    var q := n / h;
    assert q * h <= n < q * h + h;
    assert (q + 1) * h == q * h + h;
    MulMonotone(q + 1, lo, h);
    MulMonotone(hi + 1, q, h);
  }

  /** The last row is within one unit of the bottom colour whenever the two
      endpoints differ by less than the number of rows. */
  lemma LerpLastRow(c0: int, c1: int, h: int)
    requires 0 <= c0 && 0 <= c1 && h > 0
    requires -h < c0 - c1 < h
    ensures c1 - 1 <= Lerp(c0, c1, h - 1, h) <= c1
    ensures c0 >= c1 ==> Lerp(c0, c1, h - 1, h) == c1
  {
    var n := c0 * (h - (h - 1)) + c1 * (h - 1);
    assert n == c1 * h + (c0 - c1) by {
      assert h - (h - 1) == 1;
      assert c1 * (h - 1) == c1 * h - c1;
    }
    assert n >= 0;
    assert Lerp(c0, c1, h - 1, h) == n / h;
    if c0 >= c1 {
      assert (c1 + 1) * h == c1 * h + h;
      DivBounds(n, h, c1, c1);
    } else {
      assert c1 * h == (c1 - 1) * h + h;
      DivBounds(n, h, c1 - 1, c1 - 1);
    }
  }

  lemma GradientFirstRow(top: Rgb, bottom: Rgb, h: int)
    requires h > 0
    ensures GradientRow(top, bottom, 0, h) == top
  {
    LerpFirstRow(top.r, bottom.r, h);
    LerpFirstRow(top.g, bottom.g, h);
    LerpFirstRow(top.b, bottom.b, h);
  }

  /** Each channel of every row lies between the endpoint channels, so a
      gradient between two valid colours only produces valid colours. */
  lemma GradientRowBetween(top: Rgb, bottom: Rgb, y: int, h: int)
    requires top.Valid() && bottom.Valid()
    requires 0 <= y < h
    ensures Min(top.r, bottom.r) <= GradientRow(top, bottom, y, h).r <= Max(top.r, bottom.r)
    ensures Min(top.g, bottom.g) <= GradientRow(top, bottom, y, h).g <= Max(top.g, bottom.g)
    ensures Min(top.b, bottom.b) <= GradientRow(top, bottom, y, h).b <= Max(top.b, bottom.b)
    ensures GradientRow(top, bottom, y, h).Valid()
  {
    LerpBetween(top.r, bottom.r, y, h);
    LerpBetween(top.g, bottom.g, y, h);
    LerpBetween(top.b, bottom.b, y, h);
  }

  /** With at least 256 rows the last row is within one unit of the bottom
      colour on every channel. */
  lemma GradientLastRow(top: Rgb, bottom: Rgb, h: int)
    requires top.Valid() && bottom.Valid() && h >= 256
    ensures var last := GradientRow(top, bottom, h - 1, h);
      bottom.r - 1 <= last.r <= bottom.r && bottom.g - 1 <= last.g <= bottom.g
      && bottom.b - 1 <= last.b <= bottom.b
  {
    LerpLastRow(top.r, bottom.r, h);
    LerpLastRow(top.g, bottom.g, h);
    LerpLastRow(top.b, bottom.b, h);
  }
}
