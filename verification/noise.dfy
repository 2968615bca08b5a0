/** Fractal (octave) noise over the host's 2D simplex noise field. */
module Noise {
  import opened Host

  function Pow(b: real, n: nat): real {
    if n == 0 then 1.0 else b * Pow(b, n - 1)
  }

  /** Amplitude of octave `i`: persistence^i. */
  function Amplitude(persistence: real, i: nat): real {
    Pow(persistence, i)
  }

  /** Sampling frequency of octave `i`: scale * lacunarity^i. */
  function Frequency(scale: real, lacunarity: real, i: nat): real {
    scale * Pow(lacunarity, i)
  }

  lemma NextOctave(persistence: real, lacunarity: real, scale: real, i: nat)
    ensures Amplitude(persistence, i + 1) == Amplitude(persistence, i) * persistence
    ensures Frequency(scale, lacunarity, i + 1) == Frequency(scale, lacunarity, i) * lacunarity
  {
    assert Pow(lacunarity, i + 1) == lacunarity * Pow(lacunarity, i);
    assert scale * (lacunarity * Pow(lacunarity, i)) == (scale * Pow(lacunarity, i)) * lacunarity;
  }

  /** Contribution of octave `i`: the noise sampled at that octave's
      frequency, weighted by its amplitude. */
  function OctaveTerm(env: Env, x: real, z: real, i: nat,
                      persistence: real, lacunarity: real, scale: real): real
  {
    Sample(env, x, z, Frequency(scale, lacunarity, i), Amplitude(persistence, i))
  }

  /** The noise field sampled at frequency `f`, weighted by amplitude `a`. */
  function Sample(env: Env, x: real, z: real, f: real, a: real): real {
    env.noise2D(x * f, z * f) * a
  }

  lemma OctaveTermAt(env: Env, x: real, z: real, i: nat,
                     persistence: real, lacunarity: real, scale: real, f: real, a: real)
    requires f == Frequency(scale, lacunarity, i)
    requires a == Amplitude(persistence, i)
    ensures OctaveTerm(env, x, z, i, persistence, lacunarity, scale) == Sample(env, x, z, f, a)
  {
  }

  /** Weighted sum of the first `n` octaves. */
  function OctaveSum(env: Env, x: real, z: real, n: nat,
                     persistence: real, lacunarity: real, scale: real): real
  {
    if n == 0 then 0.0
    else OctaveSum(env, x, z, n - 1, persistence, lacunarity, scale)
           + OctaveTerm(env, x, z, n - 1, persistence, lacunarity, scale)
  }

  /** Sum of the first `n` amplitudes: the normaliser. */
  function AmplitudeSum(persistence: real, n: nat): real {
    if n == 0 then 0.0 else AmplitudeSum(persistence, n - 1) + Amplitude(persistence, n - 1)
  }

  lemma {:induction false} PowNonneg(b: real, n: nat)
    requires 0.0 <= b
    ensures 0.0 <= Pow(b, n)
  {
    if n > 0 {
      PowNonneg(b, n - 1);
      assert Pow(b, n) == b * Pow(b, n - 1);
    }
  }

  /** With non-negative persistence the normaliser of at least one octave is
      at least 1, so the final division is defined. */
  lemma {:induction false} AmplitudeSumAtLeastOne(persistence: real, n: nat)
    requires 1 <= n
    requires 0.0 <= persistence
    ensures 1.0 <= AmplitudeSum(persistence, n)
  {
    if n > 1 {
      AmplitudeSumAtLeastOne(persistence, n - 1);
      PowNonneg(persistence, n - 1);
    }
  }

  lemma OctaveTermBounded(env: Env, x: real, z: real, i: nat,
                          persistence: real, lacunarity: real, scale: real)
    requires Valid(env)
    requires 0.0 <= persistence
    ensures -Amplitude(persistence, i) <= OctaveTerm(env, x, z, i, persistence, lacunarity, scale)
    ensures OctaveTerm(env, x, z, i, persistence, lacunarity, scale) <= Amplitude(persistence, i)
  {
    var f := Frequency(scale, lacunarity, i);
    PowNonneg(persistence, i);
    ScaledUnit(env.noise2D(x * f, z * f), Amplitude(persistence, i));
  }

  /** The weighted octave sum never exceeds the amplitude sum in size. */
  lemma {:induction false} OctaveSumBounded(env: Env, x: real, z: real, n: nat,
                                            persistence: real, lacunarity: real, scale: real)
    requires Valid(env)
    requires 0.0 <= persistence
    ensures -AmplitudeSum(persistence, n) <= OctaveSum(env, x, z, n, persistence, lacunarity, scale)
    ensures OctaveSum(env, x, z, n, persistence, lacunarity, scale) <= AmplitudeSum(persistence, n)
  {
    if n > 0 {
      OctaveSumBounded(env, x, z, n - 1, persistence, lacunarity, scale);
      OctaveTermBounded(env, x, z, n - 1, persistence, lacunarity, scale);
    }
  }

  lemma ScaledUnit(v: real, a: real)
    requires -1.0 <= v <= 1.0
    requires 0.0 <= a
    ensures -a <= v * a <= a
  {
  }

  /** `octaveNoise`: the octave sum normalised into [-1, 1]. */
  function OctaveNoise(env: Env, x: real, z: real, octaves: nat,
                       persistence: real, lacunarity: real, scale: real): (r: real)
    requires Valid(env)
    requires 1 <= octaves
    requires 0.0 <= persistence
    ensures -1.0 <= r <= 1.0
  {
    var total := AmplitudeSum(persistence, octaves);
    var sum := OctaveSum(env, x, z, octaves, persistence, lacunarity, scale);
    AmplitudeSumAtLeastOne(persistence, octaves);
    OctaveSumBounded(env, x, z, octaves, persistence, lacunarity, scale);
    UnitQuotient(sum, total);
    sum / total
  }

  lemma UnitQuotient(s: real, m: real)
    requires 0.0 < m
    requires -m <= s <= m
    ensures -1.0 <= s / m <= 1.0
  {
  }

  /** One pass of the accumulation loop takes the running amplitude,
      frequency, normaliser and sum of octave `i` to those of octave i + 1. */
  lemma OctaveStep(env: Env, x: real, z: real, i: nat,
                   persistence: real, lacunarity: real, scale: real,
                   amplitude: real, frequency: real, maxValue: real, value: real)
    requires amplitude == Amplitude(persistence, i)
    requires frequency == Frequency(scale, lacunarity, i)
    requires maxValue == AmplitudeSum(persistence, i)
    requires value == OctaveSum(env, x, z, i, persistence, lacunarity, scale)
    ensures amplitude * persistence == Amplitude(persistence, i + 1)
    ensures frequency * lacunarity == Frequency(scale, lacunarity, i + 1)
    ensures maxValue + amplitude == AmplitudeSum(persistence, i + 1)
    ensures value + Sample(env, x, z, frequency, amplitude) == OctaveSum(env, x, z, i + 1, persistence, lacunarity, scale)
  {
    NextOctave(persistence, lacunarity, scale, i);
    OctaveTermAt(env, x, z, i, persistence, lacunarity, scale, frequency, amplitude);
  }

  /** The accumulation loop of `octaveNoise` as written: amplitude and
      frequency are multiplied by persistence and lacunarity after each
      octave. It computes exactly the closed form `OctaveNoise`. */
  method OctaveNoiseLoop(env: Env, x: real, z: real, octaves: nat,
                         persistence: real, lacunarity: real, scale: real) returns (r: real)
    requires Valid(env)
    requires 1 <= octaves
    requires 0.0 <= persistence
    ensures r == OctaveNoise(env, x, z, octaves, persistence, lacunarity, scale)
  {
    var value := 0.0;
    var amplitude := 1.0;
    var frequency := scale;
    var maxValue := 0.0;
    var i := 0;
    while i < octaves
      invariant 0 <= i <= octaves
      invariant amplitude == Amplitude(persistence, i)
      invariant frequency == Frequency(scale, lacunarity, i)
      invariant maxValue == AmplitudeSum(persistence, i)
      invariant value == OctaveSum(env, x, z, i, persistence, lacunarity, scale)
    {
      OctaveStep(env, x, z, i, persistence, lacunarity, scale, amplitude, frequency, maxValue, value);
      value := value + Sample(env, x, z, frequency, amplitude);
      maxValue := maxValue + amplitude;
      amplitude := amplitude * persistence;
      frequency := frequency * lacunarity;
      i := i + 1;
    }
    AmplitudeSumAtLeastOne(persistence, octaves);
    r := value / maxValue;
  }

  /** `ridgedNoise`: one minus the magnitude of three-octave noise. */
  function RidgedNoise(env: Env, x: real, z: real, scale: real): (r: real)
    requires Valid(env)
    ensures 0.0 <= r <= 1.0
  {
    var n := OctaveNoise(env, x, z, 3, 0.5, 2.0, scale);
    1.0 - (if n < 0.0 then -n else n)
  }
}
