/** The random splash particles the river editor regenerates whenever the
    animation speed changes: the `RandFloat` helper, the particle count and
    the ranges every field of a fresh particle is drawn from. */
module Particles {
  import opened Vectors

  /** A particle as the editor hands it to the particle buffer:
      its initial position and its initial speed. */
  datatype Particle = Particle(position: Vec4, speed: Vec4)

  /** `RandFloat(min, max)` for one value `r` of `rand()` in [0, randMax]:
      `min + r / (randMax / (max - min))`. When `max == min` the inner
      quotient is an infinity and `r / inf` is zero, so the result is `min`. */
  function RandFloat(min: real, max: real, r: nat, randMax: nat): (f: real)
    requires 0 < randMax && r <= randMax
    ensures f == min + (max - min) * (r as real / randMax as real)
    ensures min <= max ==> min <= f <= max
    ensures max <= min ==> max <= f <= min
    ensures r == 0 ==> f == min
    ensures r == randMax ==> f == max
  {
    if max == min then min
    else
      var f := min + r as real / (randMax as real / (max - min));
      QuotientOfQuotient(r as real, randMax as real, max - min);
      Interpolate(min, max, r as real / randMax as real);
      f
  }

  /** `r / (R / d)` is `d * (r / R)`. */
  lemma QuotientOfQuotient(r: real, big: real, d: real)
    requires big != 0.0 && d != 0.0
    ensures r / (big / d) == d * (r / big)
  {
    var q := big / d;
    assert q * d == big;
    assert q != 0.0;
    calc {
      r / q;
    == (r / big) * (big / q);
    == (r / big) * d;
    }
  }

  /** An interpolation parameter in [0, 1] keeps the value between the two ends,
      and its two ends give the two ends. */
  lemma Interpolate(lo: real, hi: real, u: real)
    requires 0.0 <= u <= 1.0
    ensures lo <= hi ==> lo <= lo + (hi - lo) * u <= hi
    ensures hi <= lo ==> hi <= lo + (hi - lo) * u <= lo
    ensures u == 1.0 ==> lo + (hi - lo) * u == hi
  {
    var p := (hi - lo) * u;
    ProductBounds(hi - lo, u, p);
  }

  /** For `u` in [0, 1], the product `p = d * u` lies between 0 and `d`,
      whatever the sign of `d`. */
  lemma ProductBounds(d: real, u: real, p: real)
    requires 0.0 <= u <= 1.0 && p == d * u
    ensures 0.0 <= d ==> 0.0 <= p <= d
    ensures d <= 0.0 ==> d <= p <= 0.0
    ensures u == 1.0 ==> p == d
  {
    assert d * (1.0 - u) == d - p;
    if 0.0 <= d {
      ProductNonNegative(d, u);
      ProductNonNegative(d, 1.0 - u);
    } else {
      ProductNonNegative(-d, u);
      ProductNonNegative(-d, 1.0 - u);
      assert (-d) * u == -p;
      assert (-d) * (1.0 - u) == -(d * (1.0 - u));
    }
  }

  lemma ProductNonNegative(a: real, b: real)
    requires 0.0 <= a && 0.0 <= b
    ensures 0.0 <= a * b
  {
  }

  function Abs(x: real): real {
    if x < 0.0 then -x else x
  }

  /** `unsigned int nrParticles = 10 * abs(animationSpeed)`: the float is
      non-negative, so the conversion to `unsigned int` is its floor. */
  function ParticleCount(animationSpeed: real): (n: nat)
    ensures n as real <= 10.0 * Abs(animationSpeed) < n as real + 1.0
  {
    (10.0 * Abs(animationSpeed)).Floor
  }

  /** The ranges the editor draws a splash particle from: x of the position in
      [-0.5, 0.5], y in [0, 1], z = 0 and w = 1; x of the speed in
      [-0.125, 0.125], y in [0, 0.25], z = w = 0. */
  predicate WithinSplashBounds(p: Particle) {
    && -0.5 <= p.position.x <= 0.5
    && 0.0 <= p.position.y <= 1.0
    && p.position.z == 0.0 && p.position.w == 1.0
    && -0.125 <= p.speed.x <= 0.125
    && 0.0 <= p.speed.y <= 0.25
    && p.speed.z == 0.0 && p.speed.w == 0.0
  }

  /** One particle from four consecutive values of `rand()`, drawn in the order
      position x, position y, speed x, speed y. The position starts from
      `vec4(1)` and the speed from `vec4(0)`, so their untouched fields keep
      those values. */
  function SplashParticle(r0: nat, r1: nat, r2: nat, r3: nat, randMax: nat): (p: Particle)
    requires 0 < randMax && r0 <= randMax && r1 <= randMax && r2 <= randMax && r3 <= randMax
    ensures WithinSplashBounds(p)
    ensures r0 == 0 && r1 == 0 ==> p.position == Vec4(-0.5, 0.0, 0.0, 1.0)
    ensures r0 == randMax && r1 == randMax ==> p.position == Vec4(0.5, 1.0, 0.0, 1.0)
    ensures r2 == 0 && r3 == 0 ==> p.speed == Vec4(-0.125, 0.0, 0.0, 0.0)
    ensures r2 == randMax && r3 == randMax ==> p.speed == Vec4(0.125, 0.25, 0.0, 0.0)
  {
    Particle(
      Vec4(RandFloat(-0.5, 0.5, r0, randMax), RandFloat(0.0, 1.0, r1, randMax), 0.0, 1.0),
      Vec4(RandFloat(-0.125, 0.125, r2, randMax), RandFloat(0.0, 0.25, r3, randMax), 0.0, 0.0))
  }
}
