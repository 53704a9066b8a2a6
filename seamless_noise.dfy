/**
 * The fractal noise field: for every pixel, in row-major order (y outer, x inner),
 * sum `octaves` sine-times-cosine terms with halving amplitude and doubling frequency,
 * normalise by the total amplitude and store the gray level into R, G and B with an
 * opaque alpha. One generator is created per call and every octave draws two values
 * from it. Sine, cosine and pi are left uninterpreted; arithmetic is on exact reals.
 */
module SeamlessNoise {
  import opened JsArith
  import opened SeededRandom
  import opened GenerationTypes

  /** `Math.sin`, `Math.cos` and `Math.PI`, left uninterpreted. */
  datatype Trig = Trig(sin: real -> real, cos: real -> real, pi: real)

  /** Sine and cosine never leave [-1, 1]. */
  ghost predicate Bounded(t: Trig)
  {
    (forall a :: -1.0 <= t.sin(a) <= 1.0) && (forall a :: -1.0 <= t.cos(a) <= 1.0)
  }

  /** The arguments of one `generateSeamlessNoise` call. */
  datatype NoiseParams = NoiseParams(width: nat, height: nat, seed: int, scale: real, octaves: nat)
  {
    predicate Valid()
    {
      width >= 1 && height >= 1 && octaves >= 1
    }
  }

  /** The four per-pixel accumulators of the octave loop. */
  datatype Octaves = Octaves(value: real, amplitude: real, frequency: real, maxValue: real)

  /** The coordinate `c` of an image of extent `extent`, in [0, 1), scaled by `frequency`. */
  function Sample(c: nat, extent: nat, frequency: real): real
    requires extent >= 1
  {
    (c as real / extent as real) * frequency
  }

  /** The angle handed to sine or cosine: `sample * PI * 2 + r * 10` for the value `r` drawn. */
  function Phase(t: Trig, sample: real, r: real): real
  {
    sample * t.pi * 2.0 + r * 10.0
  }

  /** One octave's term at the scaled coordinates, given the two values drawn for it. */
  function OctaveNoise(t: Trig, sampleX: real, sampleY: real, rx: real, ry: real): real
  {
    t.sin(Phase(t, sampleX, rx)) * t.cos(Phase(t, sampleY, ry))
  }

  /**
   * The accumulators after `k` octaves at pixel (x, y), whose first draw is number
   * `first` of the generator: octave `o` uses draws `first + 2o` (sine) and
   * `first + 2o + 1` (cosine).
   */
  function Accumulate(t: Trig, p: NoiseParams, x: nat, y: nat, first: nat, k: nat): Octaves
    requires p.Valid()
  {
    if k == 0 then Octaves(0.0, 1.0, p.scale, 0.0)
    else
      var a := Accumulate(t, p, x, y, first, k - 1);
      var noise := OctaveNoise(t, Sample(x, p.width, a.frequency), Sample(y, p.height, a.frequency),
                               Draw(p.seed, first + 2 * (k - 1)), Draw(p.seed, first + 2 * (k - 1) + 1));
      OctaveStep(a, noise)
  }

  lemma AccumulateUnfold(t: Trig, p: NoiseParams, x: nat, y: nat, first: nat, k: nat)
    requires p.Valid()
    ensures var a := Accumulate(t, p, x, y, first, k);
      Accumulate(t, p, x, y, first, k + 1)
      == OctaveStep(a, OctaveNoise(t, Sample(x, p.width, a.frequency), Sample(y, p.height, a.frequency),
                                   Draw(p.seed, first + 2 * k), Draw(p.seed, first + 2 * k + 1)))
  {
  }

  /** One pass of the octave loop body once the term `noise` is known. */
  function OctaveStep(a: Octaves, noise: real): Octaves
  {
    Octaves(a.value + noise * a.amplitude, a.amplitude * 0.5, a.frequency * 2.0, a.maxValue + a.amplitude)
  }

  /**
   * The accumulators after `k` octaves when every term is zero: amplitude, frequency
   * and total amplitude evolve the same whatever the terms are.
   */
  function Schedule(scale: real, k: nat): Octaves
  {
    if k == 0 then Octaves(0.0, 1.0, scale, 0.0) else OctaveStep(Schedule(scale, k - 1), 0.0)
  }

  lemma {:induction false} AccumulateFollowsSchedule(t: Trig, p: NoiseParams, x: nat, y: nat, first: nat, k: nat)
    requires p.Valid()
    ensures var a, s := Accumulate(t, p, x, y, first, k), Schedule(p.scale, k);
      a.amplitude == s.amplitude && a.frequency == s.frequency && a.maxValue == s.maxValue
  {
    if k > 0 {
      AccumulateFollowsSchedule(t, p, x, y, first, k - 1);
    }
  }

  /**
   * After `k` octaves the amplitude is 2^-k, the frequency is scale * 2^k and the
   * total amplitude is 2 - 2^(1-k); so it is at least 1 once one octave has run.
   */
  lemma {:induction false} ScheduleClosedForm(scale: real, k: nat)
    ensures Schedule(scale, k).amplitude == 1.0 / Pow2(k) as real
    ensures Schedule(scale, k).frequency == scale * Pow2(k) as real
    ensures Schedule(scale, k).maxValue == 2.0 - 2.0 / Pow2(k) as real
    ensures k >= 1 ==> Schedule(scale, k).maxValue >= 1.0
  {
    if k > 0 {
      ScheduleClosedForm(scale, k - 1);
      HalvingStep(Schedule(scale, k - 1), Schedule(scale, k), Pow2(k - 1) as real, Pow2(k) as real, scale);
    }
  }

  /** The closed form holds for the accumulators of every pixel. */
  lemma AccumulateClosedForm(t: Trig, p: NoiseParams, x: nat, y: nat, first: nat, k: nat)
    requires p.Valid()
    ensures Accumulate(t, p, x, y, first, k).amplitude == 1.0 / Pow2(k) as real
    ensures Accumulate(t, p, x, y, first, k).frequency == p.scale * Pow2(k) as real
    ensures Accumulate(t, p, x, y, first, k).maxValue == 2.0 - 2.0 / Pow2(k) as real
    ensures k >= 1 ==> Accumulate(t, p, x, y, first, k).maxValue >= 1.0
  {
    AccumulateFollowsSchedule(t, p, x, y, first, k);
    ScheduleClosedForm(p.scale, k);
  }

  /** One octave of the schedule, as arithmetic on its own. */
  lemma HalvingStep(a: Octaves, next: Octaves, q: real, r: real, scale: real)
    requires q >= 1.0 && r == 2.0 * q
    requires a.amplitude == 1.0 / q && a.frequency == scale * q && a.maxValue == 2.0 - 2.0 / q
    requires next.amplitude == a.amplitude * 0.5 && next.frequency == a.frequency * 2.0
    requires next.maxValue == a.maxValue + a.amplitude
    ensures next.amplitude == 1.0 / r
    ensures next.frequency == scale * r
    ensures next.maxValue == 2.0 - 2.0 / r
    ensures next.maxValue >= 1.0
  {
  }

  lemma ProductBounded(a: real, b: real)
    requires -1.0 <= a <= 1.0 && -1.0 <= b <= 1.0
    ensures -1.0 <= a * b <= 1.0
  {
    if a >= 0.0 {
      if b >= 0.0 { assert a * b <= 1.0 * b; } else { assert a * b >= a * -1.0; }
    } else {
      if b >= 0.0 { assert a * b >= -1.0 * b; } else { assert a * b <= -1.0 * b; }
    }
  }

  lemma ScaledBounded(n: real, a: real)
    requires -1.0 <= n <= 1.0 && a >= 0.0
    ensures -a <= n * a <= a
  {
    assert (1.0 - n) * a >= 0.0;
    assert (n + 1.0) * a >= 0.0;
  }

  /** With bounded sine and cosine one octave's term lies in [-1, 1]. */
  lemma OctaveNoiseBounded(t: Trig, sampleX: real, sampleY: real, rx: real, ry: real)
    requires Bounded(t)
    ensures -1.0 <= OctaveNoise(t, sampleX, sampleY, rx, ry) <= 1.0
  {
    ProductBounded(t.sin(Phase(t, sampleX, rx)), t.cos(Phase(t, sampleY, ry)));
  }

  /** A step with a term in [-1, 1] keeps the sum within the total amplitude. */
  lemma OctaveStepBounded(a: Octaves, noise: real)
    requires a.amplitude > 0.0 && -a.maxValue <= a.value <= a.maxValue && -1.0 <= noise <= 1.0
    ensures var b := OctaveStep(a, noise);
      b.amplitude > 0.0 && -b.maxValue <= b.value <= b.maxValue
  {
    ScaledBounded(noise, a.amplitude);
  }

  /** With bounded sine and cosine the sum never exceeds the total amplitude. */
  lemma {:induction false} AccumulateBounded(t: Trig, p: NoiseParams, x: nat, y: nat, first: nat, k: nat)
    requires p.Valid() && Bounded(t)
    ensures var acc := Accumulate(t, p, x, y, first, k);
      acc.amplitude > 0.0 && -acc.maxValue <= acc.value <= acc.maxValue
  {
    if k > 0 {
      AccumulateBounded(t, p, x, y, first, k - 1);
      var a := Accumulate(t, p, x, y, first, k - 1);
      var rx := Draw(p.seed, first + 2 * (k - 1));
      var ry := Draw(p.seed, first + 2 * (k - 1) + 1);
      var sampleX, sampleY := Sample(x, p.width, a.frequency), Sample(y, p.height, a.frequency);
      OctaveNoiseBounded(t, sampleX, sampleY, rx, ry);
      OctaveStepBounded(a, OctaveNoise(t, sampleX, sampleY, rx, ry));
    }
  }

  /** The gray level of normalised accumulators: `floor(((value / maxValue) + 1) * 0.5 * 255)`. */
  function Gray(acc: Octaves): int
    requires acc.maxValue != 0.0
  {
    (((acc.value / acc.maxValue) + 1.0) * 0.5 * 255.0).Floor
  }

  /** When the sum stays within the total amplitude, the gray level is a byte value. */
  lemma GrayInRange(acc: Octaves)
    requires acc.maxValue > 0.0 && -acc.maxValue <= acc.value <= acc.maxValue
    ensures 0 <= Gray(acc) <= 255
  {
    var q := acc.value / acc.maxValue;
    assert q * acc.maxValue == acc.value;
    assert -1.0 <= q <= 1.0;
    assert 0.0 <= (q + 1.0) * 0.5 * 255.0 <= 255.0;
  }

  /** A write into a `Uint8ClampedArray`: values are clamped into [0, 255]. */
  function Clamp(g: int): (b: byte)
    ensures 0 <= g <= 255 ==> b as int == g
    ensures g < 0 ==> b == 0
    ensures g > 255 ==> b == 255
  {
    if g < 0 then 0 else if g > 255 then 255 else g as byte
  }

  /** The number of values drawn before pixel (x, y): two per octave for each earlier pixel. */
  function FirstDraw(p: NoiseParams, x: nat, y: nat): nat
  {
    2 * p.octaves * (y * p.width + x)
  }

  /** The gray level computed for pixel (x, y). */
  function PixelGray(t: Trig, p: NoiseParams, x: nat, y: nat): int
    requires p.Valid()
  {
    var first := FirstDraw(p, x, y);
    AccumulateClosedForm(t, p, x, y, first, p.octaves);
    Gray(Accumulate(t, p, x, y, first, p.octaves))
  }

  /** Byte `i` of the RGBA buffer: gray in R, G and B, 255 in alpha. */
  function ExpectedByte(t: Trig, p: NoiseParams, i: nat): byte
    requires p.Valid()
  {
    var pixel := i / 4;
    if i % 4 == 3 then 255 else Clamp(PixelGray(t, p, pixel % p.width, pixel / p.width))
  }

  /** The whole buffer the noise generator fills, `4 * width * height` bytes. */
  function NoiseField(t: Trig, p: NoiseParams): (data: seq<byte>)
    requires p.Valid()
    ensures |data| == 4 * p.width * p.height
  {
    seq(4 * p.width * p.height, i requires 0 <= i => ExpectedByte(t, p, i))
  }

  // ---------------------------------------------------------------- buffer layout

  /** Pixel (x, y) is pixel number `y * width + x`, and that number gives back x and y. */
  lemma PixelNumber(width: nat, height: nat, x: nat, y: nat)
    requires x < width && y < height
    ensures y * width + x < width * height
    ensures (y * width + x) % width == x && (y * width + x) / width == y
  {
    assert y * width + x < (y + 1) * width;
    assert (y + 1) * width <= height * width by {
      MultiplyMonotone(y + 1, height, width);
    }
    DivModUnique(y * width + x, width, y, x);
  }

  /** Quotient and remainder are the only pair with `n == q * d + r` and `0 <= r < d`. */
  lemma DivModUnique(n: int, d: int, q: int, r: int)
    requires d > 0 && 0 <= r < d && n == q * d + r
    ensures n / d == q && n % d == r
  {
    var q', r' := n / d, n % d;
    assert n == q' * d + r';
    assert (q - q') * d == r' - r;
    if q - q' >= 1 {
      MultiplyMonotone(1, q - q', d);
      assert false;
    } else if q' - q >= 1 {
      MultiplyMonotone(1, q' - q, d);
      assert false;
    }
  }

  /**
   * The byte ranges `idx .. idx+3` with `idx = (y * width + x) * 4` of different
   * pixels are disjoint: a byte offset determines pixel and channel.
   */
  lemma PixelOffsetsDisjoint(width: nat, height: nat, x1: nat, y1: nat, c1: nat, x2: nat, y2: nat, c2: nat)
    requires x1 < width && y1 < height && x2 < width && y2 < height && c1 < 4 && c2 < 4
    requires (y1 * width + x1) * 4 + c1 == (y2 * width + x2) * 4 + c2
    ensures x1 == x2 && y1 == y2 && c1 == c2
  {
    var q1, q2 := y1 * width + x1, y2 * width + x2;
    assert q1 == q2 && c1 == c2 by {
      assert (q1 * 4 + c1) / 4 == q1 && (q1 * 4 + c1) % 4 == c1;
      assert (q2 * 4 + c2) / 4 == q2 && (q2 * 4 + c2) % 4 == c2;
    }
    PixelNumber(width, height, x1, y1);
    PixelNumber(width, height, x2, y2);
  }

  /** Every byte of the `4 * width * height` buffer belongs to some pixel (x, y) inside the image. */
  lemma PixelOffsetsCover(width: nat, height: nat, i: nat)
    requires i < 4 * width * height
    ensures width >= 1
    ensures var q := i / 4; var x, y := q % width, q / width;
      x < width && y < height && i == (y * width + x) * 4 + i % 4
  {
    assert width * height > 0;
    var q := i / 4;
    assert q < width * height;
    var x, y := q % width, q / width;
    assert q == y * width + x;
    if y >= height {
      assert y * width >= height * width by { MultiplyMonotone(height, y, width); }
    }
  }

  lemma ByteOffsets(q: nat)
    ensures forall i :: 4 * q <= i < 4 * q + 4 ==> i / 4 == q && i % 4 == i - 4 * q
  {
  }

  /**
   * With bounded sine and cosine the clamped write never clamps: every R, G, B byte
   * is exactly the gray level, which lies in [0, 255].
   */
  lemma NoClamping(t: Trig, p: NoiseParams, x: nat, y: nat)
    requires p.Valid() && Bounded(t)
    ensures 0 <= PixelGray(t, p, x, y) <= 255
    ensures Clamp(PixelGray(t, p, x, y)) as int == PixelGray(t, p, x, y)
  {
    var first := FirstDraw(p, x, y);
    AccumulateClosedForm(t, p, x, y, first, p.octaves);
    AccumulateBounded(t, p, x, y, first, p.octaves);
    GrayInRange(Accumulate(t, p, x, y, first, p.octaves));
  }

  // ---------------------------------------------------------------- the generator

  /**
   * The octave loop for pixel (x, y), drawing two values per octave from `random`;
   * returns the pixel's gray level.
   */
  method ShadePixel(random: Lcg, t: Trig, p: NoiseParams, x: nat, y: nat) returns (gray: int)
    requires p.Valid() && x < p.width && y < p.height
    requires random.Valid() && random.seed == p.seed
    requires random.drawn == FirstDraw(p, x, y)
    modifies random
    ensures random.Valid() && random.drawn == old(random.drawn) + 2 * p.octaves
    ensures gray == PixelGray(t, p, x, y)
  {
    ghost var first := random.drawn;
    // value, amplitude, frequency and maxValue
    var acc := Octaves(0.0, 1.0, p.scale, 0.0);
    var o := 0;
    while o < p.octaves
      invariant 0 <= o <= p.octaves
      invariant random.Valid() && random.seed == p.seed && random.drawn == first + 2 * o
      invariant acc == Accumulate(t, p, x, y, first, o)
    {
      AccumulateUnfold(t, p, x, y, first, o);
      var sampleX := Sample(x, p.width, acc.frequency);
      var sampleY := Sample(y, p.height, acc.frequency);
      var rx := random.Next();
      var ry := random.Next();
      var noise := OctaveNoise(t, sampleX, sampleY, rx, ry);
      acc := OctaveStep(acc, noise);
      o := o + 1;
    }
    AccumulateClosedForm(t, p, x, y, first, p.octaves);
    gray := Gray(acc);
  }

  /** The length of the RGBA buffer: four bytes per pixel. */
  function BufferLength(p: NoiseParams): nat
  {
    4 * p.width * p.height
  }

  /** Pixel (x, y) in row-major order. */
  function PixelIndex(width: nat, x: nat, y: nat): nat
  {
    y * width + x
  }

  /** Moving one pixel right, or from past the end of a row to the start of the next. */
  lemma NextPixel(p: NoiseParams, x: nat, y: nat)
    ensures PixelIndex(p.width, x + 1, y) == PixelIndex(p.width, x, y) + 1
    ensures FirstDraw(p, x + 1, y) == FirstDraw(p, x, y) + 2 * p.octaves
    ensures PixelIndex(p.width, 0, y + 1) == PixelIndex(p.width, p.width, y)
    ensures FirstDraw(p, 0, y + 1) == FirstDraw(p, p.width, y)
  {
  }

  /**
   * The four bytes the generator writes for pixel (x, y), from offset
   * `4 * PixelIndex(width, x, y)`, are the bytes the noise field holds there.
   */
  lemma PixelBytes(t: Trig, p: NoiseParams, x: nat, y: nat)
    requires p.Valid() && x < p.width && y < p.height
    ensures 4 * PixelIndex(p.width, x, y) + 4 <= BufferLength(p)
    ensures var i := 4 * PixelIndex(p.width, x, y);
      ExpectedByte(t, p, i) == ExpectedByte(t, p, i + 1) == ExpectedByte(t, p, i + 2) == Clamp(PixelGray(t, p, x, y))
      && ExpectedByte(t, p, i + 3) == 255
  {
    var q := PixelIndex(p.width, x, y);
    PixelNumber(p.width, p.height, x, y);
    MultiplyMonotone(q + 1, p.width * p.height, 4);
    ByteOffsets(q);
    var i := 4 * q;
    assert i / 4 == q && (i + 1) / 4 == q && (i + 2) / 4 == q && (i + 3) / 4 == q;
    assert i % 4 == 0 && (i + 1) % 4 == 1 && (i + 2) % 4 == 2 && (i + 3) % 4 == 3;
  }

  /** The first `n` bytes of `data` are those of the noise field. */
  ghost predicate FilledUpTo(data: array<byte>, t: Trig, p: NoiseParams, n: nat)
    requires p.Valid()
    reads data
  {
    n <= data.Length && forall i :: 0 <= i < n ==> data[i] == ExpectedByte(t, p, i)
  }

  /**
   * The four writes for pixel (x, y): the gray level, clamped, into R, G and B at
   * `idx = (y * width + x) * 4` and 255 into alpha; no other byte changes.
   */
  method WritePixel(data: array<byte>, t: Trig, p: NoiseParams, x: nat, y: nat, gray: int)
    requires p.Valid() && x < p.width && y < p.height && data.Length == BufferLength(p)
    requires gray == PixelGray(t, p, x, y)
    requires FilledUpTo(data, t, p, 4 * PixelIndex(p.width, x, y))
    modifies data
    ensures var idx := 4 * PixelIndex(p.width, x, y);
      idx + 4 <= data.Length
      && data[..] == old(data[..])[idx := Clamp(gray)][idx + 1 := Clamp(gray)][idx + 2 := Clamp(gray)][idx + 3 := 255]
    ensures FilledUpTo(data, t, p, 4 * PixelIndex(p.width, x, y) + 4)
  {
    var idx := PixelIndex(p.width, x, y) * 4;
    PixelBytes(t, p, x, y);
    data[idx] := Clamp(gray);
    data[idx + 1] := Clamp(gray);
    data[idx + 2] := Clamp(gray);
    data[idx + 3] := 255;
  }

  /** The inner loop of the generator: pixels (0, y) .. (width - 1, y), left to right. */
  method ShadeRow(data: array<byte>, random: Lcg, t: Trig, p: NoiseParams, y: nat)
    requires p.Valid() && y < p.height && data.Length == BufferLength(p)
    requires random.Valid() && random.seed == p.seed && random.drawn == FirstDraw(p, 0, y)
    requires FilledUpTo(data, t, p, 4 * PixelIndex(p.width, 0, y))
    modifies data, random
    ensures random.Valid() && random.seed == p.seed && random.drawn == FirstDraw(p, 0, y + 1)
    ensures FilledUpTo(data, t, p, 4 * PixelIndex(p.width, 0, y + 1))
  {
    var x := 0;
    while x < p.width
      invariant 0 <= x <= p.width
      invariant random.Valid() && random.seed == p.seed && random.drawn == FirstDraw(p, x, y)
      invariant FilledUpTo(data, t, p, 4 * PixelIndex(p.width, x, y))
    {
      var gray := ShadePixel(random, t, p, x, y);
      WritePixel(data, t, p, x, y, gray);
      NextPixel(p, x, y);
      x := x + 1;
    }
    NextPixel(p, p.width, y);
  }

  /**
   * `generateSeamlessNoise(width, height, seed, scale, octaves)`: a fresh zeroed RGBA
   * buffer, filled pixel by pixel from one generator seeded with `seed`. The ghost
   * result counts the values drawn from that generator.
   */
  method GenerateSeamlessNoise(width: nat, height: nat, seed: int, scale: real, octaves: nat, t: Trig)
    returns (data: array<byte>, ghost drawsUsed: nat)
    requires width >= 1 && height >= 1 && octaves >= 1
    ensures fresh(data)
    ensures data[..] == NoiseField(t, NoiseParams(width, height, seed, scale, octaves))
    ensures drawsUsed == FirstDraw(NoiseParams(width, height, seed, scale, octaves), 0, height)
  {
    var p := NoiseParams(width, height, seed, scale, octaves);
    data := new byte[BufferLength(p)];
    var random := new Lcg(seed);

    var y := 0;
    while y < height
      invariant 0 <= y <= height
      invariant random.Valid() && random.seed == seed && random.drawn == FirstDraw(p, 0, y)
      invariant FilledUpTo(data, t, p, 4 * PixelIndex(width, 0, y))
    {
      ShadeRow(data, random, t, p, y);
      y := y + 1;
    }
    drawsUsed := random.drawn;
    assert data[..] == NoiseField(t, p) by {
      assert 4 * PixelIndex(width, 0, height) == data.Length;
      forall i | 0 <= i < data.Length
        ensures data[i] == NoiseField(t, p)[i]
      {
      }
    }
  }
}
