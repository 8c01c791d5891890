/**
 * Layered (fractal) noise as both generators compute it. The octave loop
 * starts at some frequency and amplitude; each octave adds the Perlin sample
 * at the point scaled by the current frequency, weighed by the current
 * amplitude, then multiplies the amplitude by the persistence and the
 * frequency by the lacunarity.
 */
module Noise {
  type Perlin = (real, real) -> real

  /** The octave parameters of one noise field. */
  datatype Layering = Layering(octaves: int, persistence: real, lacunarity: real) {
    /** `amplitude *= persistence` */
    function Damp(amplitude: real): real { amplitude * persistence }
    /** `frequency *= lacunarity` */
    function Sharpen(frequency: real): real { frequency * lacunarity }
  }

  /** How many times `for (o = 0; o < octaves; o++)` runs. */
  function Octaves(octaves: int): nat {
    if octaves < 0 then 0 else octaves
  }

  /** Mathf.PerlinNoise at the point (px, py) scaled by `frequency`. */
  function Sample(perlin: Perlin, px: real, py: real, frequency: real): real {
    perlin(px * frequency, py * frequency)
  }

  /** The sum of the next n octaves, the first of them at `frequency` and `amplitude`. */
  function Layered(perlin: Perlin, px: real, py: real, l: Layering, frequency: real, amplitude: real, n: nat): real
    decreases n
  {
    if n == 0 then 0.0
    else Sample(perlin, px, py, frequency) * amplitude
         + Layered(perlin, px, py, l, l.Sharpen(frequency), l.Damp(amplitude), n - 1)
  }

  /** The total amplitude of the next n octaves (the spire's maxAmplitude). */
  function Weight(l: Layering, amplitude: real, n: nat): real
    decreases n
  {
    if n == 0 then 0.0 else amplitude + Weight(l, l.Damp(amplitude), n - 1)
  }

  /** Every sample of the next n octaves lies in [lo, hi]. */
  predicate SamplesWithin(perlin: Perlin, px: real, py: real, l: Layering, frequency: real, n: nat, lo: real, hi: real)
    decreases n
  {
    n == 0 ||
    (lo <= Sample(perlin, px, py, frequency) <= hi &&
     SamplesWithin(perlin, px, py, l, l.Sharpen(frequency), n - 1, lo, hi))
  }

  /** One turn of the octave loop: the sample `value` at `frequency` taken out of the sum. */
  lemma OctaveStep(perlin: Perlin, px: real, py: real, l: Layering, frequency: real, amplitude: real, k: nat, value: real)
    requires k > 0 && value == Sample(perlin, px, py, frequency)
    ensures Layered(perlin, px, py, l, frequency, amplitude, k)
         == value * amplitude + Layered(perlin, px, py, l, frequency * l.lacunarity, amplitude * l.persistence, k - 1)
    ensures Weight(l, amplitude, k) == amplitude + Weight(l, amplitude * l.persistence, k - 1)
  {
    assert Layered(perlin, px, py, l, frequency, amplitude, k)
        == Sample(perlin, px, py, frequency) * amplitude
           + Layered(perlin, px, py, l, l.Sharpen(frequency), l.Damp(amplitude), k - 1);
    assert Sample(perlin, px, py, frequency) * amplitude == value * amplitude;
  }

  lemma ScaleLe(a: real, b: real, w: real)
    requires a <= b && 0.0 <= w
    ensures a * w <= b * w
  {
    assert b * w - a * w == (b - a) * w;
  }

  lemma ScaleLt(a: real, b: real, w: real)
    requires a < b && 0.0 < w
    ensures a * w < b * w
  {
    assert b * w - a * w == (b - a) * w;
  }

  lemma ProductNonNegative(a: real, b: real)
    requires 0.0 <= a && 0.0 <= b
    ensures 0.0 <= a * b
  {
    ScaleLe(0.0, a, b);
  }

  /** With a non-negative persistence the first octave alone weighs its amplitude. */
  lemma {:induction false} WeightAtLeastFirst(l: Layering, amplitude: real, n: nat)
    requires 0.0 <= amplitude && 0.0 <= l.persistence
    ensures 0.0 <= Weight(l, amplitude, n)
    ensures 1 <= n ==> amplitude <= Weight(l, amplitude, n)
    decreases n
  {
    if n > 0 {
      ProductNonNegative(amplitude, l.persistence);
      WeightAtLeastFirst(l, l.Damp(amplitude), n - 1);
    }
  }

  /** One octave more keeps the running sum above the running lower bound. */
  lemma AddOctaveAbove(s: real, a: real, rest: real, w: real, lo: real)
    requires lo <= s && 0.0 <= a && lo * w <= rest
    ensures lo * (a + w) <= s * a + rest
  {
    ScaleLe(lo, s, a);
  }

  /** One octave more keeps the running sum below the running upper bound. */
  lemma AddOctaveBelow(s: real, a: real, rest: real, w: real, hi: real)
    requires s <= hi && 0.0 <= a && rest <= hi * w
    ensures s * a + rest <= hi * (a + w)
  {
    ScaleLe(s, hi, a);
  }

  /** A lower bound on every sample bounds the layered sum by that multiple of the total amplitude. */
  lemma {:induction false} LayeredAbove(perlin: Perlin, px: real, py: real, l: Layering, frequency: real, amplitude: real,
                                        n: nat, lo: real, hi: real)
    requires 0.0 <= amplitude && 0.0 <= l.persistence
    requires SamplesWithin(perlin, px, py, l, frequency, n, lo, hi)
    ensures lo * Weight(l, amplitude, n) <= Layered(perlin, px, py, l, frequency, amplitude, n)
    decreases n
  {
    if n > 0 {
      ProductNonNegative(amplitude, l.persistence);
      LayeredAbove(perlin, px, py, l, l.Sharpen(frequency), l.Damp(amplitude), n - 1, lo, hi);
      AddOctaveAbove(Sample(perlin, px, py, frequency), amplitude,
                     Layered(perlin, px, py, l, l.Sharpen(frequency), l.Damp(amplitude), n - 1),
                     Weight(l, l.Damp(amplitude), n - 1), lo);
    }
  }

  /** An upper bound on every sample bounds the layered sum by that multiple of the total amplitude. */
  lemma {:induction false} LayeredBelow(perlin: Perlin, px: real, py: real, l: Layering, frequency: real, amplitude: real,
                                        n: nat, lo: real, hi: real)
    requires 0.0 <= amplitude && 0.0 <= l.persistence
    requires SamplesWithin(perlin, px, py, l, frequency, n, lo, hi)
    ensures Layered(perlin, px, py, l, frequency, amplitude, n) <= hi * Weight(l, amplitude, n)
    decreases n
  {
    if n > 0 {
      ProductNonNegative(amplitude, l.persistence);
      LayeredBelow(perlin, px, py, l, l.Sharpen(frequency), l.Damp(amplitude), n - 1, lo, hi);
      AddOctaveBelow(Sample(perlin, px, py, frequency), amplitude,
                     Layered(perlin, px, py, l, l.Sharpen(frequency), l.Damp(amplitude), n - 1),
                     Weight(l, l.Damp(amplitude), n - 1), hi);
    }
  }

  /**
   * Bounds on every sample bound the layered sum by the same multiples of
   * the total amplitude.
   */
  lemma LayeredBetween(perlin: Perlin, px: real, py: real, l: Layering, frequency: real, amplitude: real,
                       n: nat, lo: real, hi: real)
    requires 0.0 <= amplitude && 0.0 <= l.persistence
    requires SamplesWithin(perlin, px, py, l, frequency, n, lo, hi)
    ensures lo * Weight(l, amplitude, n) <= Layered(perlin, px, py, l, frequency, amplitude, n)
    ensures Layered(perlin, px, py, l, frequency, amplitude, n) <= hi * Weight(l, amplitude, n)
  {
    LayeredAbove(perlin, px, py, l, frequency, amplitude, n, lo, hi);
    LayeredBelow(perlin, px, py, l, frequency, amplitude, n, lo, hi);
  }

  lemma DivBetween(s: real, a: real, lo: real, hi: real)
    requires 0.0 < a && lo * a <= s <= hi * a
    ensures lo <= s / a <= hi
  {
    var q := s / a;
    assert q * a == s;
    if q < lo { ScaleLt(q, lo, a); assert false; }
    if hi < q { ScaleLt(hi, q, a); assert false; }
  }

  /**
   * Dividing by the total amplitude gives a weighted average: with at least
   * one octave and a non-negative persistence it lies within any bounds of
   * the samples, in particular between their minimum and maximum.
   */
  lemma NormalizedBetween(perlin: Perlin, px: real, py: real, l: Layering, frequency: real, n: nat, lo: real, hi: real)
    requires 1 <= n && 0.0 <= l.persistence
    requires SamplesWithin(perlin, px, py, l, frequency, n, lo, hi)
    ensures Weight(l, 1.0, n) >= 1.0
    ensures lo <= Layered(perlin, px, py, l, frequency, 1.0, n) / Weight(l, 1.0, n) <= hi
  {
    WeightAtLeastFirst(l, 1.0, n);
    LayeredBetween(perlin, px, py, l, frequency, 1.0, n, lo, hi);
    DivBetween(Layered(perlin, px, py, l, frequency, 1.0, n), Weight(l, 1.0, n), lo, hi);
  }

  /** A Perlin function bounded everywhere bounds the samples of every octave. */
  lemma {:induction false} BoundedPerlinSamples(perlin: Perlin, px: real, py: real, l: Layering, frequency: real, n: nat, lo: real, hi: real)
    requires forall a, b :: lo <= perlin(a, b) <= hi
    ensures SamplesWithin(perlin, px, py, l, frequency, n, lo, hi)
    decreases n
  {
    if n > 0 {
      BoundedPerlinSamples(perlin, px, py, l, l.Sharpen(frequency), n - 1, lo, hi);
    }
  }

  /**
   * Without the division the sum grows with the total amplitude: if every
   * octave samples the same value c, the sum is c times the total amplitude.
   */
  lemma LayeredOfConstant(perlin: Perlin, px: real, py: real, l: Layering, frequency: real, amplitude: real, n: nat, c: real)
    requires 0.0 <= amplitude && 0.0 <= l.persistence
    requires SamplesWithin(perlin, px, py, l, frequency, n, c, c)
    ensures Layered(perlin, px, py, l, frequency, amplitude, n) == c * Weight(l, amplitude, n)
  {
    LayeredBetween(perlin, px, py, l, frequency, amplitude, n, c, c);
  }

  /** x to the k-th power. */
  function Pow(x: real, k: nat): real
    decreases k
  {
    if k == 0 then 1.0 else x * Pow(x, k - 1)
  }

  /** The frequency of octave o: `frequency` sharpened o times. */
  function Frequency(l: Layering, frequency: real, o: nat): real
    decreases o
  {
    if o == 0 then frequency else l.Sharpen(Frequency(l, frequency, o - 1))
  }

  /** The amplitude of octave o: `amplitude` damped o times. */
  function Amplitude(l: Layering, amplitude: real, o: nat): real
    decreases o
  {
    if o == 0 then amplitude else l.Damp(Amplitude(l, amplitude, o - 1))
  }

  /** Octave o on its own: its sample weighed by its amplitude. */
  function Term(perlin: Perlin, px: real, py: real, l: Layering, frequency: real, amplitude: real, o: nat): real {
    Sample(perlin, px, py, Frequency(l, frequency, o)) * Amplitude(l, amplitude, o)
  }

  /** The sum of Term(o) over o < n. */
  function PowerSum(perlin: Perlin, px: real, py: real, l: Layering, frequency: real, amplitude: real, n: nat): real
    decreases n
  {
    if n == 0 then 0.0 else PowerSum(perlin, px, py, l, frequency, amplitude, n - 1) + Term(perlin, px, py, l, frequency, amplitude, n - 1)
  }

  /** Octave o runs at frequency * lacunarity^o and amplitude * persistence^o. */
  lemma {:induction false} OctavePowers(l: Layering, frequency: real, amplitude: real, o: nat)
    ensures Frequency(l, frequency, o) == frequency * Pow(l.lacunarity, o)
    ensures Amplitude(l, amplitude, o) == amplitude * Pow(l.persistence, o)
    decreases o
  {
    if o > 0 {
      OctavePowers(l, frequency, amplitude, o - 1);
      assert frequency * Pow(l.lacunarity, o - 1) * l.lacunarity == frequency * (l.lacunarity * Pow(l.lacunarity, o - 1));
      assert amplitude * Pow(l.persistence, o - 1) * l.persistence == amplitude * (l.persistence * Pow(l.persistence, o - 1));
    }
  }

  lemma {:induction false} OctaveShift(l: Layering, frequency: real, amplitude: real, o: nat)
    ensures Frequency(l, l.Sharpen(frequency), o) == Frequency(l, frequency, o + 1)
    ensures Amplitude(l, l.Damp(amplitude), o) == Amplitude(l, amplitude, o + 1)
    decreases o
  {
    if o > 0 {
      OctaveShift(l, frequency, amplitude, o - 1);
    }
  }

  /** Octave o of the series started one octave later is octave o + 1 of the original series. */
  lemma TermShift(perlin: Perlin, px: real, py: real, l: Layering, frequency: real, amplitude: real, o: nat)
    ensures Term(perlin, px, py, l, l.Sharpen(frequency), l.Damp(amplitude), o) == Term(perlin, px, py, l, frequency, amplitude, o + 1)
  {
    OctaveShift(l, frequency, amplitude, o);
    assert Sample(perlin, px, py, Frequency(l, l.Sharpen(frequency), o)) == Sample(perlin, px, py, Frequency(l, frequency, o + 1));
  }

  /** Octave 0 is the sample at `frequency` weighed by `amplitude`. */
  lemma FirstTerm(perlin: Perlin, px: real, py: real, l: Layering, frequency: real, amplitude: real)
    ensures Term(perlin, px, py, l, frequency, amplitude, 0) == Sample(perlin, px, py, frequency) * amplitude
  {
  }

  /** Starting one octave later is the same sum without its first term. */
  lemma {:induction false} PowerSumShift(perlin: Perlin, px: real, py: real, l: Layering, frequency: real, amplitude: real, n: nat)
    ensures PowerSum(perlin, px, py, l, l.Sharpen(frequency), l.Damp(amplitude), n) + Term(perlin, px, py, l, frequency, amplitude, 0)
         == PowerSum(perlin, px, py, l, frequency, amplitude, n + 1)
    decreases n
  {
    if n > 0 {
      PowerSumShift(perlin, px, py, l, frequency, amplitude, n - 1);
      TermShift(perlin, px, py, l, frequency, amplitude, n - 1);
    }
  }

  /**
   * The octave loop computes the series of its octaves taken one by one:
   * with OctavePowers, the sum over o < n of
   * perlin(p * frequency * lacunarity^o) * amplitude * persistence^o.
   */
  lemma {:induction false} LayeredIsPowerSum(perlin: Perlin, px: real, py: real, l: Layering, frequency: real, amplitude: real, n: nat)
    ensures Layered(perlin, px, py, l, frequency, amplitude, n) == PowerSum(perlin, px, py, l, frequency, amplitude, n)
    decreases n
  {
    if n > 0 {
      LayeredIsPowerSum(perlin, px, py, l, l.Sharpen(frequency), l.Damp(amplitude), n - 1);
      PowerSumShift(perlin, px, py, l, frequency, amplitude, n - 1);
      FirstTerm(perlin, px, py, l, frequency, amplitude);
    }
  }
}
