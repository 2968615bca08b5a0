/** The host environment the simulation runs against: the JavaScript `Math`
    functions it calls and the simplex-noise field fixed once when the noise
    module loads. They are modelled as total functions carried in one record,
    constrained only by the facts the proofs use. */
module Host {

  /** `Math.PI` as the double the browser uses. */
  const PI: real := 3.141592653589793
  const TWO_PI: real := 6.283185307179586

  datatype Env = Env(
    exp: real -> real,
    sqrt: real -> real,
    sin: real -> real,
    cos: real -> real,
    atan2: (real, real) -> real,
    noise2D: (real, real) -> real)

  /** The only facts about the host functions the model relies on. */
  ghost predicate Valid(env: Env) {
    && (forall u :: env.exp(u) > 0.0)
    && (forall u :: u <= 0.0 ==> env.exp(u) <= 1.0)
    && (forall a :: 0.0 <= a ==> 0.0 <= env.sqrt(a) && env.sqrt(a) * env.sqrt(a) == a)
    && (forall u :: -1.0 <= env.sin(u) <= 1.0)
    && (forall u :: -1.0 <= env.cos(u) <= 1.0)
    && (forall a, b :: -1.0 <= env.noise2D(a, b) <= 1.0)
  }

  /** Every draw of `Math.random()` lies in [0, 1). Draws are indexed by
      (agent or slot, draw number). */
  ghost predicate IsRandom(rand: (int, int) -> real) {
    forall i, k :: 0.0 <= rand(i, k) < 1.0
  }

  /** A draw in [0, 1) scaled by a positive span lies in [0, span). */
  lemma ScaledDraw(draw: real, span: real)
    requires 0.0 <= draw < 1.0
    requires 0.0 < span
    ensures 0.0 <= draw * span < span
  {
    assert span - draw * span == (1.0 - draw) * span;
  }

  /** JavaScript `Math.round`: halves round towards +infinity. */
  function Round(x: real): (r: int)
    ensures x - 0.5 < r as real <= x + 0.5
  {
    (x + 0.5).Floor
  }

  /** Square root of a positive number is positive. */
  lemma SqrtPositive(env: Env, a: real)
    requires Valid(env)
    requires 0.0 < a
    ensures 0.0 < env.sqrt(a)
  {
    assert 0.0 <= env.sqrt(a) && env.sqrt(a) * env.sqrt(a) == a;
  }
}
