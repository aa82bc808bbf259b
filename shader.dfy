/** The fragment shader of the dithered background, on real numbers: the
    ordered (Bayer) dither threshold, the shape drawn in each cell, the
    alpha of a pixel and its colour. The noise field (`fbmStable`) and the
    per-mode tone statistics are inputs: they come from `sin`-based hashing,
    which is not part of this model. */
module Shader {
  import opened StringUtil

  // ---------------------------------------------------------------------
  // GLSL built-ins
  // ---------------------------------------------------------------------

  /** `fract(x)`: the part of `x` above its floor. */
  function Fract(x: real): (r: real)
    ensures 0.0 <= r < 1.0
    ensures (x - r).Floor as real == x - r
  {
    x - x.Floor as real
  }

  /** Adding a whole number leaves the fractional part as it is. */
  lemma FractShift(x: real, n: int)
    ensures Fract(x + n as real) == Fract(x)
  {
    assert (x + n as real).Floor == x.Floor + n;
  }

  /** `step(edge, x)`: 1 from the edge on, 0 below it. */
  function Step(edge: real, x: real): (r: real)
    ensures r == 0.0 || r == 1.0
    ensures r == 1.0 <==> edge <= x
  {
    if x < edge then 0.0 else 1.0
  }

  /** `clamp(t, 0.0, 1.0)`. */
  function Clamp01(t: real): (r: real)
    ensures 0.0 <= r <= 1.0
    ensures 0.0 <= t <= 1.0 ==> r == t
    ensures t < 0.0 ==> r == 0.0
    ensures t > 1.0 ==> r == 1.0
  {
    if t < 0.0 then 0.0 else if t > 1.0 then 1.0 else t
  }

  lemma MulNonneg(a: real, b: real)
    requires 0.0 <= a && 0.0 <= b
    ensures 0.0 <= a * b
  {
  }

  lemma MulPos(a: real, b: real)
    requires 0.0 < a && 0.0 < b
    ensures 0.0 < a * b
  {
  }

  /** A share `a` in [0, 1] of a non-negative `k` lies in [0, k]. */
  lemma MulShare(a: real, k: real)
    requires 0.0 <= a <= 1.0 && 0.0 <= k
    ensures 0.0 <= a * k <= k
  {
    MulNonneg(a, k);
    MulNonneg(1.0 - a, k);
  }

  /** The Hermite polynomial that `smoothstep` applies to its clamped
      argument. It stays within [0, 1] on [0, 1]. */
  function Hermite(t: real): (r: real)
    requires 0.0 <= t <= 1.0
    ensures 0.0 <= r <= 1.0
    ensures t == 0.0 ==> r == 0.0
    ensures t == 1.0 ==> r == 1.0
  {
    MulNonneg(t, t);
    MulNonneg(t * t, 3.0 - 2.0 * t);
    MulNonneg(1.0 - t, 1.0 - t);
    MulNonneg((1.0 - t) * (1.0 - t), 1.0 + 2.0 * t);
    assert 1.0 - t * t * (3.0 - 2.0 * t) == (1.0 - t) * (1.0 - t) * (1.0 + 2.0 * t);
    t * t * (3.0 - 2.0 * t)
  }

  /** Where `x` lies against the edges decides where the quotient lies
      against 0 and 1. */
  lemma QuotientBounds(e0: real, e1: real, x: real)
    requires e0 != e1
    ensures var q := (x - e0) / (e1 - e0);
            ((e0 < e1 && x <= e0) || (e1 < e0 && e0 <= x) ==> q <= 0.0)
            && ((e0 < e1 && e1 <= x) || (e1 < e0 && x <= e1) ==> q >= 1.0)
  {
    var d := e1 - e0;
    var q := (x - e0) / d;
    assert q * d == x - e0;
    if q > 0.0 {
      if d > 0.0 {
        MulNonneg(q, d);
        assert q * d > 0.0;
      } else {
        MulNonneg(q, -d);
        assert q * d < 0.0;
      }
    }
    if q < 1.0 {
      if d > 0.0 {
        MulNonneg(1.0 - q, d);
        assert q * d < d;
      } else {
        MulNonneg(1.0 - q, -d);
        assert q * d > d;
      }
    }
  }

  /** `smoothstep(e0, e1, x)`, written out as GLSL defines it. The edges
      may come in either order (the ring shape passes them falling), but
      they must differ. Below the first edge the result is 0, past the
      second it is 1, in between it lies in [0, 1]. */
  function SmoothStep(e0: real, e1: real, x: real): (r: real)
    requires e0 != e1
    ensures 0.0 <= r <= 1.0
    ensures (e0 < e1 && x <= e0) || (e1 < e0 && e0 <= x) ==> r == 0.0
    ensures (e0 < e1 && e1 <= x) || (e1 < e0 && x <= e1) ==> r == 1.0
  {
    QuotientBounds(e0, e1, x);
    Hermite(Clamp01((x - e0) / (e1 - e0)))
  }

  // ---------------------------------------------------------------------
  // Bayer dithering
  // ---------------------------------------------------------------------

  /** The 2x2 Bayer matrix, scaled to the whole numbers 0..3: the digit of
      a cell from the parities of its column `p` and row `q`. */
  function BayerDigit(p: int, q: int): (d: int)
    ensures 0 <= d <= 3
  {
    if q == 0 then (if p == 0 then 0 else 2) else (if p == 0 then 3 else 1)
  }

  /** `Bayer2(a)`: after flooring `a`, the fractional part of
      `a.x / 2 + a.y * a.y * 0.75`. It is the 2x2 Bayer matrix entry of the
      cell, in quarters. */
  function Bayer2(x: real, y: real): (r: real)
    ensures r == BayerDigit(x.Floor % 2, y.Floor % 2) as real / 4.0
  {
    var i, j := x.Floor, y.Floor;
    Bayer2Parity(i, j);
    Fract(i as real / 2.0 + (j * j) as real * 0.75)
  }

  /** `Bayer2` takes the four values 0, 1/4, 1/2 and 3/4 only. */
  lemma Bayer2Quarters(x: real, y: real)
    ensures var r := Bayer2(x, y); r == 0.0 || r == 0.25 || r == 0.5 || r == 0.75
  {
    var p, q := x.Floor % 2, y.Floor % 2;
    assert p == 0 || p == 1;
    assert q == 0 || q == 1;
  }

  lemma Bayer2Parity(i: int, j: int)
    ensures Fract(i as real / 2.0 + (j * j) as real * 0.75) == BayerDigit(i % 2, j % 2) as real / 4.0
  {
    var a, p := i / 2, i % 2;
    var b, q := j / 2, j % 2;
    var k := b * b + b * q;
    assert j * j == 4 * k + q by {
      assert j == 2 * b + q;
      assert q * q == q;
      assert j * j == 4 * (b * b) + 4 * (b * q) + q * q;
    }
    var frac := p as real / 2.0 + q as real * 0.75;
    assert i as real / 2.0 + (j * j) as real * 0.75 == frac + (a + 3 * k) as real;
    FractShift(frac, a + 3 * k);
    if p == 1 && q == 1 {
      assert frac == 1.25 && frac.Floor == 1;
    }
  }

  /** `Bayer4(a)`: two levels of the 2x2 matrix, the finer one the more
      significant digit of the cell's rank in sixteenths. */
  function Bayer4(x: real, y: real): (r: real)
    ensures r == (4 * BayerDigit(x.Floor % 2, y.Floor % 2) + BayerDigit(x.Floor / 2 % 2, y.Floor / 2 % 2)) as real / 16.0
    ensures 0.0 <= r <= 15.0 / 16.0
  {
    FloorHalf(x);
    FloorHalf(y);
    Bayer2(0.5 * x, 0.5 * y) * 0.25 + Bayer2(x, y)
  }

  /** `Bayer8(a)`: the dither threshold of a pixel, built from three levels
      of the 2x2 matrix. */
  function Bayer8(x: real, y: real): (r: real)
    ensures 0.0 <= r <= 63.0 / 64.0
  {
    Bayer4(0.5 * x, 0.5 * y) * 0.25 + Bayer2(x, y)
  }

  /** The position of cell (i, j) in the 8x8 Bayer ordering, as a whole
      number: the three levels of the 2x2 matrix are its three base-4
      digits, the finest level the most significant. */
  function BayerRank(i: int, j: int): int {
    16 * BayerDigit(i % 2, j % 2) + 4 * BayerDigit(i / 2 % 2, j / 2 % 2) + BayerDigit(i / 4 % 2, j / 4 % 2)
  }

  lemma FloorHalf(x: real)
    ensures (0.5 * x).Floor == x.Floor / 2
  {
    var n := x.Floor;
    assert n == 2 * (n / 2) + n % 2;
  }

  lemma HalfHalf(n: int)
    ensures n / 2 / 2 == n / 4
  {
    assert n == 4 * (n / 4) + n % 4;
    assert n / 2 == 2 * (n / 4) + (n % 4) / 2;
  }

  /** The threshold of every pixel is its cell's rank in 64ths: the shader's
      arithmetic computes exactly the 8x8 ordered-dither matrix. */
  lemma Bayer8Rank(x: real, y: real)
    ensures Bayer8(x, y) == BayerRank(x.Floor, y.Floor) as real / 64.0
  {
    var i, j := x.Floor, y.Floor;
    FloorHalf(x);
    FloorHalf(y);
    FloorHalf(0.5 * x);
    FloorHalf(0.5 * y);
    HalfHalf(i);
    HalfHalf(j);
    var a := BayerDigit(i % 2, j % 2);
    var b := BayerDigit(i / 2 % 2, j / 2 % 2);
    var c := BayerDigit(i / 4 % 2, j / 4 % 2);
    assert Bayer2(x, y) == a as real / 4.0;
    assert Bayer2(0.5 * x, 0.5 * y) == b as real / 4.0;
    assert Bayer2(0.5 * (0.5 * x), 0.5 * (0.5 * y)) == c as real / 4.0;
    assert Bayer8(x, y) == (c as real / 4.0 * 0.25 + b as real / 4.0) * 0.25 + a as real / 4.0;
  }

  /** Every threshold lies in [0, 63/64]. */
  lemma Bayer8Bounds(x: real, y: real)
    ensures 0.0 <= Bayer8(x, y) <= 63.0 / 64.0
  {
    Bayer8Rank(x, y);
  }

  /** The pattern repeats every 8 cells across and down. */
  lemma Bayer8Periodic(x: real, y: real)
    ensures Bayer8(x + 8.0, y) == Bayer8(x, y)
    ensures Bayer8(x, y + 8.0) == Bayer8(x, y)
  {
    Bayer8Rank(x, y);
    Bayer8Rank(x + 8.0, y);
    Bayer8Rank(x, y + 8.0);
    RankPeriodic(x.Floor);
    RankPeriodic(y.Floor);
    assert (x + 8.0).Floor == x.Floor + 8;
    assert (y + 8.0).Floor == y.Floor + 8;
  }

  lemma RankPeriodic(n: int)
    ensures (n + 8) % 2 == n % 2 && (n + 8) / 2 % 2 == n / 2 % 2 && (n + 8) / 4 % 2 == n / 4 % 2
  {
    assert (n + 8) / 2 == n / 2 + 4;
    assert (n + 8) / 4 == n / 4 + 2;
  }

  lemma DigitInjective(p: int, q: int, p': int, q': int)
    requires 0 <= p < 2 && 0 <= q < 2 && 0 <= p' < 2 && 0 <= q' < 2
    requires BayerDigit(p, q) == BayerDigit(p', q')
    ensures p == p' && q == q'
  {
  }

  lemma Bits(i: int)
    requires 0 <= i < 8
    ensures i == 4 * (i / 4 % 2) + 2 * (i / 2 % 2) + i % 2
  {
    if i < 4 {
      assert i / 4 == 0;
    } else {
      assert i / 4 == 1;
    }
  }

  /** Within one 8x8 tile no two cells share a threshold: with the bounds,
      the 64 cells take each of the thresholds 0/64 .. 63/64 once. */
  lemma Bayer8Distinct(i: int, j: int, i': int, j': int)
    requires 0 <= i < 8 && 0 <= j < 8 && 0 <= i' < 8 && 0 <= j' < 8
    requires Bayer8(i as real, j as real) == Bayer8(i' as real, j' as real)
    ensures i == i' && j == j'
  {
    Bayer8Rank(i as real, j as real);
    Bayer8Rank(i' as real, j' as real);
    assert (i as real).Floor == i && (j as real).Floor == j;
    assert (i' as real).Floor == i' && (j' as real).Floor == j';
    DigitInjective(i % 2, j % 2, i' % 2, j' % 2);
    DigitInjective(i / 2 % 2, j / 2 % 2, i' / 2 % 2, j' / 2 % 2);
    DigitInjective(i / 4 % 2, j / 4 % 2, i' / 4 % 2, j' / 4 % 2);
    Bits(i);
    Bits(i');
    Bits(j);
    Bits(j');
  }

  /** `bw`: the dithered coverage of a pixel, from the noise field value
      and the pixel's threshold. */
  function DitherCoverage(fieldRaw: real, bayer: real): (bw: real)
    requires 0.0 <= bayer <= 63.0 / 64.0
    ensures 0.0 <= bw <= 1.0
    ensures fieldRaw <= 1.23 ==> bw == 0.0
    ensures fieldRaw >= 3.4 ==> bw == 1.0
  {
    var feed := fieldRaw * 0.5 - 0.65;
    SmoothStep(0.45, 0.55, feed + (bayer - 0.5))
  }

  // ---------------------------------------------------------------------
  // Shapes
  // ---------------------------------------------------------------------

  function Abs(v: real): real {
    if v < 0.0 then -v else v
  }

  lemma SquareMonotone(a: real, b: real)
    requires 0.0 <= a && 0.0 <= b
    ensures a <= b <==> a * a <= b * b
  {
    if a <= b {
      assert a * a <= a * b <= b * b;
    } else {
      MulPos(a - b, a + b);
      assert a * a - b * b == (a - b) * (a + b);
    }
  }

  /** The shape `ShapeMask` draws for a shape type, by the same
      thresholds. */
  function ShapeName(shape: real): string {
    if shape < 0.5 then "circle"
    else if shape < 1.5 then "square"
    else if shape < 2.5 then "diamond"
    else if shape < 3.5 then "cross"
    else if shape < 4.5 then "point"
    else "ring"
  }

  /** The shape mask of a pixel at offset (x, y) from its cell centre, whose
      distance from the centre is `len`. The shape type picks, by the
      thresholds 0.5, 1.5, 2.5, 3.5 and 4.5: circle, square, diamond, cross,
      point, ring. */
  function ShapeMask(shape: real, x: real, y: real, len: real): (m: real)
    requires 0.0 <= len && len * len == x * x + y * y
    ensures 0.0 <= m <= 1.0
    ensures shape < 0.5 ==> (m == 1.0 <==> x * x + y * y <= 0.42 * 0.42) && (m == 0.0 || m == 1.0)
    ensures 0.5 <= shape < 1.5 ==> (m == 1.0 <==> Abs(x) <= 0.42 && Abs(y) <= 0.42) && (m == 0.0 || m == 1.0)
    ensures 1.5 <= shape < 2.5 ==> (m == 1.0 <==> Abs(x) + Abs(y) <= 0.60) && (m == 0.0 || m == 1.0)
    ensures 2.5 <= shape < 3.5 ==>
              (m == 1.0 <==> (Abs(y) <= 0.17 && Abs(x) <= 0.55) || (Abs(x) <= 0.17 && Abs(y) <= 0.55))
              && (m == 0.0 || m == 1.0)
    ensures 3.5 <= shape < 4.5 ==> (m == 1.0 <==> x * x + y * y <= 0.18 * 0.18) && (m == 0.0 || m == 1.0)
    ensures 4.5 <= shape ==> (len <= 0.20 || 0.44 <= len ==> m == 0.0) && (0.23 <= len <= 0.41 ==> m == 1.0)
  {
    if shape < 0.5 then
      SquareMonotone(len, 0.42);
      Step(len, 0.42)
    else if shape < 1.5 then
      Step(Max(Abs(x), Abs(y)), 0.42)
    else if shape < 2.5 then
      Step(Abs(x) + Abs(y), 0.60)
    else if shape < 3.5 then
      var barH := Step(Abs(y), 0.17) * Step(Abs(x), 0.55);
      var barV := Step(Abs(x), 0.17) * Step(Abs(y), 0.55);
      Clamp01(barH + barV)
    else if shape < 4.5 then
      SquareMonotone(len, 0.18);
      Step(len, 0.18)
    else
      var outer := SmoothStep(0.44, 0.41, len);
      var inner := SmoothStep(0.20, 0.23, len);
      assert 0.0 <= outer * inner <= outer;
      outer * inner
  }

  /** At the centre of a cell every shape but the ring is drawn; the ring
      leaves its centre empty. */
  lemma ShapeMaskCentre(shape: real)
    ensures ShapeMask(shape, 0.0, 0.0, 0.0) == if shape < 4.5 then 1.0 else 0.0
  {
  }

  /** `shapeAlpha`: coverage times mask, raised for the cross (shape types
      strictly between 2.5 and 3.5) to `min(1, 1.8 a + 0.05)`. */
  function ShapeAlpha(shape: real, bw: real, mask: real): (a: real)
    requires 0.0 <= bw <= 1.0 && 0.0 <= mask <= 1.0
    ensures 0.0 <= a <= 1.0
    ensures !(2.5 < shape < 3.5) ==> (a == 0.0 <==> bw == 0.0 || mask == 0.0)
    ensures !(2.5 < shape < 3.5) && mask == 1.0 ==> a == bw
    ensures 2.5 < shape < 3.5 ==> 0.05 <= a && (bw * mask >= 0.95 / 1.8 ==> a == 1.0)
  {
    var a := bw * mask;
    MulShare(mask, bw);
    MulShare(bw, mask);
    if 2.5 < shape < 3.5 then Min(1.0, a * 1.8 + 0.05) else a
  }

  // ---------------------------------------------------------------------
  // Colour
  // ---------------------------------------------------------------------

  datatype Rgb = Rgb(r: real, g: real, b: real)

  predicate Unit(c: Rgb) {
    0.0 <= c.r <= 1.0 && 0.0 <= c.g <= 1.0 && 0.0 <= c.b <= 1.0
  }

  function MixChannel(a: real, b: real, t: real): (v: real)
    ensures t == 0.0 ==> v == a
    ensures t == 1.0 ==> v == b
    ensures 0.0 <= t <= 1.0 && 0.0 <= a <= 1.0 && 0.0 <= b <= 1.0 ==> 0.0 <= v <= 1.0
  {
    BlendBound(a, b, t);
    a * (1.0 - t) + b * t
  }

  lemma BlendBound(a: real, b: real, t: real)
    ensures 0.0 <= t <= 1.0 && 0.0 <= a <= 1.0 && 0.0 <= b <= 1.0 ==> 0.0 <= a * (1.0 - t) + b * t <= 1.0
  {
    if 0.0 <= t <= 1.0 && 0.0 <= a <= 1.0 && 0.0 <= b <= 1.0 {
      var u := 1.0 - t;
      var p, q := a * u, b * t;
      assert 0.0 <= p <= u by {
        MulShare(a, u);
      }
      assert 0.0 <= q <= t by {
        MulShare(b, t);
      }
      assert p + q <= u + t == 1.0;
    }
  }

  /** GLSL `mix(a, b, t)` on colours. */
  function Mix(a: Rgb, b: Rgb, t: real): (c: Rgb)
    ensures t == 0.0 ==> c == a
    ensures t == 1.0 ==> c == b
    ensures 0.0 <= t <= 1.0 && Unit(a) && Unit(b) ==> Unit(c)
  {
    Rgb(MixChannel(a.r, b.r, t), MixChannel(a.g, b.g, t), MixChannel(a.b, b.b, t))
  }

  function Scale(k: real, c: Rgb): Rgb {
    Rgb(k * c.r, k * c.g, k * c.b)
  }

  function Add(c: Rgb, d: Rgb): Rgb {
    Rgb(c.r + d.r, c.g + d.g, c.b + d.b)
  }

  /** The colour of a pixel and its alpha. */
  datatype Pixel = Pixel(color: Rgb, alpha: real)

  /** The last three lines of `main`: the dot colour runs from the second
      dot colour (tone 0) to the first (tone 1); it is laid over the
      background by the shape alpha and brightened by a quarter of the
      alpha; the pixel's alpha is the shape alpha times the opacity. A
      pixel no shape covers shows the background and is fully
      transparent. */
  function Composite(background: Rgb, dot: Rgb, dot2: Rgb, toneMix: real, a: real, opacity: real): (px: Pixel)
    requires 0.0 <= toneMix <= 1.0 && 0.0 <= a <= 1.0
    ensures a == 0.0 ==> px.color == background && px.alpha == 0.0
    ensures a == 1.0 ==> px.color == Scale(1.25, Mix(dot2, dot, toneMix))
    ensures 0.0 <= opacity ==> 0.0 <= px.alpha <= opacity
    ensures px.alpha == a * opacity
  {
    var dotColor := Mix(dot2, dot, toneMix);
    var finalColor := Add(Mix(background, dotColor, a), Scale(a * 0.25, dotColor));
    assert a == 1.0 ==> finalColor == Scale(1.25, dotColor);
    assert 0.0 <= opacity ==> 0.0 <= a * opacity <= opacity by {
      if 0.0 <= opacity {
        MulShare(a, opacity);
      }
    }
    Pixel(finalColor, a * opacity)
  }

  // ---------------------------------------------------------------------
  // Tone and the whole fragment
  // ---------------------------------------------------------------------

  /** The statistic the two-tone mode selects. */
  function ToneValue(mode: real, hashed: real, density: real, edge: real): real {
    if mode < 0.5 then hashed else if mode < 1.5 then density else edge
  }

  /** `toneMix`: mode 0 (below 0.5) smooths the hashed cluster value, mode 1
      (below 1.5) the local density, any other mode the edge strength,
      each between the low and the high tone threshold. */
  function ToneMix(mode: real, low: real, high: real, hashed: real, density: real, edge: real): (t: real)
    requires low != high
    ensures 0.0 <= t <= 1.0
    ensures low < high && ToneValue(mode, hashed, density, edge) <= low ==> t == 0.0
    ensures low < high && high <= ToneValue(mode, hashed, density, edge) ==> t == 1.0
  {
    SmoothStep(low, high, ToneValue(mode, hashed, density, edge))
  }

  /** The uniforms the fragment shader reads, with colours as RGB. */
  datatype ShaderUniforms = ShaderUniforms(
    opacity: real, background: Rgb, dot: Rgb, dot2: Rgb,
    twoToneMode: real, toneLow: real, toneHigh: real, shapeType: real, cellSize: real)

  /** The offset of pixel (fx, fy) from the centre of its cell. */
  function CellOffset(f: real, cellSize: real): real
    requires cellSize > 0.0
  {
    Fract(f / cellSize) - 0.5
  }

  /** `main` for the pixel at (fx, fy), given the noise field value and the
      three tone statistics there, and the distance `len` of the pixel from
      its cell centre. Where the field is low (at most 1.23) nothing is
      drawn except the faint boosted cross; with a non-negative opacity
      uniform the pixel is never more opaque than it. */
  function Fragment(u: ShaderUniforms, fx: real, fy: real, fieldRaw: real,
                    hashed: real, density: real, edge: real, len: real): (px: Pixel)
    requires u.cellSize > 0.0 && u.toneLow != u.toneHigh
    requires 0.0 <= len
    requires len * len == CellOffset(fx, u.cellSize) * CellOffset(fx, u.cellSize)
                          + CellOffset(fy, u.cellSize) * CellOffset(fy, u.cellSize)
    ensures 0.0 <= u.opacity ==> 0.0 <= px.alpha <= u.opacity
    ensures fieldRaw <= 1.23 && !(2.5 < u.shapeType < 3.5) ==> px.color == u.background && px.alpha == 0.0
  {
    var bayer := Bayer8(fx / u.cellSize, fy / u.cellSize);
    Bayer8Bounds(fx / u.cellSize, fy / u.cellSize);
    var bw := DitherCoverage(fieldRaw, bayer);
    var toneMix := ToneMix(u.twoToneMode, u.toneLow, u.toneHigh, hashed, density, edge);
    var mask := ShapeMask(u.shapeType, CellOffset(fx, u.cellSize), CellOffset(fy, u.cellSize), len);
    Composite(u.background, u.dot, u.dot2, toneMix, ShapeAlpha(u.shapeType, bw, mask), u.opacity)
  }
}
