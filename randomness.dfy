/**
 * The `getRandomInt(min, max)` helper that both games define identically:
 * round `min` up and `max` down, then `floor(Math.random() * (max - min) + min)`.
 *
 * `Math.random` itself is replaced by `Source.Next`, of which callers know only
 * that it returns a real in [0, 1).  Everything proved about the games therefore
 * holds for every sequence of draws.
 */
module Randomness {

  /** JavaScript's `Math.ceil` on exact reals. */
  function Ceil(x: real): (c: int)
    ensures x <= c as real < x + 1.0
  {
    -((-x).Floor)
  }

  /**
   * What `getRandomInt` can return once its bounds are rounded to `lo` and `hi`:
   * the half-open range [lo, hi) when it is non-empty, otherwise anything between
   * `hi` and `lo` inclusive (the product `random * (hi - lo)` is then zero or
   * negative).
   */
  predicate InDrawRange(lo: int, hi: int, r: int) {
    if lo < hi then lo <= r < hi else hi <= r <= lo
  }

  lemma ScaledDraw(u: real, d: int)
    requires 0.0 <= u < 1.0
    ensures d > 0 ==> 0.0 <= u * d as real < d as real
    ensures d < 0 ==> d as real < u * d as real <= 0.0
  {
    if d > 0 {
      assert u * d as real < 1.0 * d as real;
    } else if d < 0 {
      assert u * (-d) as real < 1.0 * (-d) as real;
    }
  }

  /** `getRandomInt(min, max)` for a given value `u` of `Math.random()`. */
  function Draw(u: real, min: real, max: real): (r: int)
    requires 0.0 <= u < 1.0
    ensures InDrawRange(Ceil(min), max.Floor, r)
  {
    var lo := Ceil(min);
    var hi := max.Floor;
    ScaledDraw(u, hi - lo);
    (u * (hi - lo) as real + lo as real).Floor
  }

  /** With a non-empty rounded range the result lies in [min, max). */
  lemma DrawWithin(min: real, max: real, r: int)
    requires InDrawRange(Ceil(min), max.Floor, r)
    requires Ceil(min) < max.Floor
    ensures min <= r as real < max
  {
  }

  /**
   * `getRandomInt(-w, w)` for a positive `w` lies in [-w, w): the offsets of the
   * platform game's death pieces.
   */
  lemma SymmetricDrawWithin(w: real, r: int)
    requires w > 0.0
    requires InDrawRange(Ceil(-w), w.Floor, r)
    ensures -w <= r as real < w
  {
    assert Ceil(-w) == -(w.Floor);
    if Ceil(-w) >= w.Floor {
      assert w.Floor == 0;
      assert r == 0;
    }
  }

  /** `getRandomInt(0, 1)` is always 0. */
  lemma DrawZeroOne(r: int)
    requires InDrawRange(Ceil(0.0), (1.0).Floor, r)
    ensures r == 0
  {
  }

  /** The source of `Math.random()` values: a linear congruential generator. */
  class Source {
    var seed: int

    constructor (seed: int)
      ensures this.seed == seed
    {
      this.seed := seed;
    }

    method Next() returns (u: real)
      modifies this
      ensures 0.0 <= u < 1.0
    {
      seed := (seed * 1103515245 + 12345) % 2147483648;
      u := seed as real / 2147483648.0;
    }
  }

  /** `getRandomInt(min, max)`: one call of `Math.random()`, scaled. */
  method RandomInt(rng: Source, min: real, max: real) returns (r: int)
    modifies rng
    ensures InDrawRange(Ceil(min), max.Floor, r)
  {
    var u := rng.Next();
    r := Draw(u, min, max);
  }
}
