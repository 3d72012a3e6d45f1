/** The random draws of the typing simulator.

    `getRandomInt(min, max)` is `floor(Math.random() * (max - min + 1)) + min`
    after rounding `min` up and `max` down.  `Math.random()` is an oracle: a
    draw is a real number in [0, 1), taken from a stream the caller supplies,
    and the arithmetic on it is exact (no floating-point rounding). */
module Random {

  /** A stream of `Math.random()` results, one per call. */
  type Stream = nat -> real

  ghost predicate Uniform(u: Stream) {
    forall i: nat :: 0.0 <= u(i) < 1.0
  }

  /** `Math.ceil` */
  function Ceil(r: real): (n: int)
    ensures r <= n as real < r + 1.0
  {
    -((-r).Floor)
  }

  /** A draw scaled by a positive whole span lands on one of its `n` units. */
  lemma ScaledBelow(x: real, n: int)
    requires 0.0 <= x < 1.0 && 0 < n
    ensures 0.0 <= x * n as real < n as real
    ensures 0 <= (x * n as real).Floor < n
  {
    var span := n as real;
    assert span - x * span == (1.0 - x) * span;
    assert 0.0 < (1.0 - x) * span;
  }

  /** `getRandomInt(min, max)` given the draw `x` that `Math.random()` returned. */
  function GetRandomInt(min: real, max: real, x: real): (r: int)
    ensures 0.0 <= x < 1.0 && Ceil(min) <= max.Floor ==> Ceil(min) <= r <= max.Floor
  {
    var lo, hi := Ceil(min), max.Floor;
    var span := (hi - lo + 1) as real;
    if 0.0 <= x < 1.0 && lo <= hi then
      ScaledBelow(x, hi - lo + 1);
      (x * span).Floor + lo
    else
      (x * span).Floor + lo
  }

  /** `getRandomInt` on the integer arguments every call site passes. */
  function RandomInt(min: int, max: int, x: real): (r: int)
    ensures 0.0 <= x < 1.0 && min <= max ==> min <= r <= max
  {
    assert Ceil(min as real) == min && (max as real).Floor == max;
    GetRandomInt(min as real, max as real, x)
  }

  /** Every integer of [ceil(min), floor(max)] is the result of some draw, so the
      bound in GetRandomInt's contract is exact. */
  lemma GetRandomIntReaches(min: real, max: real, v: int)
    requires Ceil(min) <= v <= max.Floor
    ensures exists x :: 0.0 <= x < 1.0 && GetRandomInt(min, max, x) == v
  {
    var lo, hi := Ceil(min), max.Floor;
    var span := (hi - lo + 1) as real;
    var x := (v - lo) as real / span;
    assert x * span == (v - lo) as real;
    assert 0.0 <= x < 1.0;
    assert GetRandomInt(min, max, x) == v;
  }

  /** `String.fromCharCode(97 + Math.floor(Math.random() * 26))` */
  function ErrorChar(x: real): (c: char)
    requires 0.0 <= x < 1.0
    ensures 'a' <= c <= 'z'
  {
    ScaledBelow(x, 26);
    (97 + (x * 26.0).Floor) as char
  }

  /** Every lowercase letter is the wrong character of some draw. */
  lemma ErrorCharReaches(c: char)
    requires 'a' <= c <= 'z'
    ensures exists x :: 0.0 <= x < 1.0 && ErrorChar(x) == c
  {
    var x := (c as int - 97) as real / 26.0;
    assert x * 26.0 == (c as int - 97) as real;
    assert ErrorChar(x) == c;
  }

  /** The rounding `getRandomInt(min, max)` applies to a `Math.random()` draw. */
  type Roll = (int, int, real) -> int

  /** A rounding that keeps every draw of [0, 1) inside [min, max]. */
  ghost predicate InRange(roll: Roll) {
    forall min, max, x :: 0.0 <= x < 1.0 && min <= max ==> min <= roll(min, max, x) <= max
  }

  /** `getRandomInt`'s own rounding is one of those. */
  lemma RandomIntInRange()
    ensures InRange(RandomInt)
  {
    forall min, max, x | 0.0 <= x < 1.0 && min <= max
      ensures min <= RandomInt(min, max, x) <= max
    {
      var r := RandomInt(min, max, x);
    }
  }

  /** The random source of a run: the `Math.random()` results in call order and
      the rounding `getRandomInt` makes of one. */
  datatype Draws = Draws(at: Stream, roll: Roll)

  ghost predicate Fair(d: Draws) {
    Uniform(d.at) && InRange(d.roll)
  }

  /** `Math.random()` seen as an object: a fixed sequence of results and a cursor
      that each call advances. */
  class Rng {
    const draws: Draws
    var pos: nat

    constructor (draws: Draws)
      requires Fair(draws)
      ensures this.draws == draws && pos == 0
    {
      this.draws := draws;
      pos := 0;
    }

    /** One call of `Math.random()`. */
    method Next() returns (x: real)
      requires Fair(draws)
      modifies this
      ensures x == draws.at(old(pos)) && pos == old(pos) + 1
      ensures 0.0 <= x < 1.0
    {
      x := draws.at(pos);
      pos := pos + 1;
    }

    /** One call of `getRandomInt(min, max)` on integer bounds. */
    method Int(min: int, max: int) returns (r: int)
      requires Fair(draws)
      modifies this
      ensures r == draws.roll(min, max, draws.at(old(pos))) && pos == old(pos) + 1
      ensures min <= max ==> min <= r <= max
    {
      var x := Next();
      r := draws.roll(min, max, x);
    }
  }
}
