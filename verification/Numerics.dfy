/** Random draws and elementary functions used by the match simulator. */
module Numerics {
  type Uniform = u: real | 0.0 <= u < 1.0

  /** The seeded generator: the n-th uniform draw and the n-th standard normal
      sample. Nothing else is known about it, so a claim proved for an
      arbitrary oracle holds for every seed. */
  datatype Oracle = Oracle(uniform: nat -> Uniform, gauss: nat -> real)

  /** The library functions the simulator calls on floats, taken over reals. */
  datatype Maths = Maths(sqrt: real -> real, cos: real -> real, sin: real -> real, atan2: (real, real) -> real)
  {
    ghost predicate Lawful() {
      && (forall x: real :: 0.0 <= x ==> 0.0 <= sqrt(x) && sqrt(x) * sqrt(x) == x)
      && (forall a: real :: cos(a) * cos(a) + sin(a) * sin(a) == 1.0)
    }
  }

  function Clamp(v: real, lo: real, hi: real): (r: real)
    requires lo <= hi
    ensures lo <= r <= hi
    ensures lo <= v <= hi ==> r == v
    ensures v <= lo ==> r == lo
    ensures hi <= v ==> r == hi
  {
    var m := if hi < v then hi else v;
    if m < lo then lo else m
  }

  /** `Math.round`: nearest integer, halves upwards. */
  function Round(x: real): (r: int)
    ensures x - 0.5 < r as real <= x + 0.5
  {
    (x + 0.5).Floor
  }

  lemma ProductSign(x: real, y: real)
    requires 0.0 <= x && 0.0 <= y
    ensures 0.0 <= x * y
    ensures 0.0 < x && 0.0 < y ==> 0.0 < x * y
  {
  }

  lemma SplitProduct(width: real, u: real)
    ensures width * u + width * (1.0 - u) == width
  {
  }

  /** A share `u` of a width. */
  function Part(width: real, u: real): (r: real)
    requires 0.0 <= width && 0.0 <= u <= 1.0
    ensures 0.0 <= r <= width
    ensures 0.0 < width && u < 1.0 ==> r < width
  {
    ProductSign(width, u);
    ProductSign(width, 1.0 - u);
    SplitProduct(width, u);
    width * u
  }

  /** A uniform draw spread over [min, max). */
  function Stretch(min: real, max: real, u: Uniform): (r: real)
    requires min < max
    ensures min <= r < max
  {
    min + Part(max - min, u)
  }

  /** Equal parts of the uniform draw go to equal parts of the range. */
  lemma StretchEvenly(min: real, max: real, u: Uniform, share: real)
    requires min < max && 0.0 <= share <= 1.0
    ensures Stretch(min, max, u) < min + Part(max - min, share) <==> u < share
  {
    var width := max - min;
    if u < share {
      ProductSign(width, share - u);
    } else {
      ProductSign(width, u - share);
    }
    SplitDifference(width, share, u);
  }

  lemma SplitDifference(width: real, a: real, b: real)
    ensures width * (a - b) == width * a - width * b
  {
  }

  /** One of `n` indices, by a uniform draw. */
  function Index(n: nat, u: Uniform): (i: nat)
    requires 0 < n
    ensures i < n
  {
    Part(n as real, u).Floor
  }

  /** Each of the `n` indices is drawn on an equal part of the uniform draw. */
  lemma PickEvenly(n: nat, u: Uniform, k: nat)
    requires k < n
    ensures Index(n, u) == k <==> k as real / n as real <= u < (k + 1) as real / n as real
  {
    ShareReached(n as real, u, k as real);
    ShareReached(n as real, u, (k + 1) as real);
  }

  lemma Thirds(u: Uniform)
    ensures Index(3, u) == if u < 1.0 / 3.0 then 0 else if u < 2.0 / 3.0 then 1 else 2
  {
    PickEvenly(3, u, 0);
    PickEvenly(3, u, 1);
  }

  lemma ShareReached(n: real, u: Uniform, k: real)
    requires 0.0 < n
    ensures k <= Part(n, u) <==> k / n <= u
  {
    var q := k / n;
    assert q * n == k;
    if q <= u {
      ProductSign(n, u - q);
    } else {
      ProductSign(n, q - u);
    }
    SplitDifference(n, u, q);
  }

  lemma SquareMonotone(a: real, b: real)
    requires 0.0 <= a <= b
    ensures a * a <= b * b
  {
    ProductSign(b - a, b + a);
    DifferenceOfSquares(a, b);
  }

  lemma DifferenceOfSquares(a: real, b: real)
    ensures (b - a) * (b + a) == b * b - a * a
  {
  }

  lemma SquareOfNegative(a: real, b: real)
    ensures (a - b) * (a - b) == (b - a) * (b - a)
  {
  }

  /** Clamping does not move two points further apart: seen from a point
      inside the range, the clamped target is no further than the target. */
  lemma ClampNonExpansive(x: real, v: real, lo: real, hi: real)
    requires lo <= x <= hi
    ensures (Clamp(v, lo, hi) - x) * (Clamp(v, lo, hi) - x) <= (v - x) * (v - x)
  {
    var c := Clamp(v, lo, hi);
    if v < lo {
      SquareMonotone(x - c, x - v);
      SquareOfNegative(x, c);
      SquareOfNegative(x, v);
    } else if hi < v {
      SquareMonotone(c - x, v - x);
    }
  }

  /** The generator object: a cursor into the oracle. */
  class Rng {
    const oracle: Oracle
    var drawn: nat
    var sampled: nat

    constructor (oracle: Oracle)
      ensures this.oracle == oracle && drawn == 0 && sampled == 0
    {
      this.oracle := oracle;
      drawn, sampled := 0, 0;
    }

    method Next() returns (u: real)
      modifies this
      ensures u == oracle.uniform(old(drawn)) && drawn == old(drawn) + 1 && sampled == old(sampled)
      ensures 0.0 <= u < 1.0
    {
      u := oracle.uniform(drawn);
      drawn := drawn + 1;
    }

    method Range(min: real, max: real) returns (r: real)
      requires min < max
      modifies this
      ensures r == Stretch(min, max, oracle.uniform(old(drawn))) && drawn == old(drawn) + 1 && sampled == old(sampled)
      ensures min <= r < max
    {
      var u := Next();
      r := Stretch(min, max, u);
    }

    method IntRange(min: int, max: int) returns (r: int)
      requires min <= max
      modifies this
      ensures r == min + Index(max - min + 1, oracle.uniform(old(drawn)))
      ensures drawn == old(drawn) + 1 && sampled == old(sampled)
      ensures min <= r <= max
    {
      var u := Next();
      var width := (max - min + 1) as real;
      r := (min as real + Part(width, u)).Floor;
    }

    method Normal(mean: real, stddev: real) returns (r: real)
      modifies this
      ensures r == oracle.gauss(old(sampled)) * stddev + mean
      ensures drawn == old(drawn) && sampled == old(sampled) + 1
    {
      r := oracle.gauss(sampled) * stddev + mean;
      sampled := sampled + 1;
    }

    /** Index of the element `pick` returns from an array of `n` elements. */
    method Pick(n: nat) returns (i: nat)
      requires 0 < n
      modifies this
      ensures i == Index(n, oracle.uniform(old(drawn))) && i < n
      ensures drawn == old(drawn) + 1 && sampled == old(sampled)
    {
      var u := Next();
      i := Index(n, u);
    }

    method Chance(p: real) returns (b: bool)
      modifies this
      ensures b == (oracle.uniform(old(drawn)) < p) && drawn == old(drawn) + 1 && sampled == old(sampled)
    {
      var u := Next();
      b := u < p;
    }
  }
}
