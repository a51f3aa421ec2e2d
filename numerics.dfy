/** Numeric building blocks shared by the chain store and the samplers:
    vectors of reals standing for 1-D tensors, their coordinate-wise
    arithmetic, sums and averages, and the logarithm of a uniform draw that
    decides acceptance. Reals replace IEEE floats throughout. */
module Numerics {

  /** A 1-D tensor: a parameter vector, a gradient or a noise vector. */
  type Vec = seq<real>

  datatype Option<T> = None | Some(value: T)

  /** Coordinate-wise `a + b`. */
  function Add(a: Vec, b: Vec): (r: Vec)
    requires |a| == |b|
    ensures |r| == |a|
    ensures forall i :: 0 <= i < |r| ==> r[i] == a[i] + b[i]
  {
    seq(|a|, i requires 0 <= i < |a| => a[i] + b[i])
  }

  /** Coordinate-wise `a - b`. */
  function Sub(a: Vec, b: Vec): (r: Vec)
    requires |a| == |b|
    ensures |r| == |a|
    ensures forall i :: 0 <= i < |r| ==> r[i] == a[i] - b[i]
  {
    seq(|a|, i requires 0 <= i < |a| => a[i] - b[i])
  }

  /** The scalar multiple `c * a`. */
  function Scale(c: real, a: Vec): (r: Vec)
    ensures |r| == |a|
    ensures forall i :: 0 <= i < |r| ==> r[i] == c * a[i]
  {
    seq(|a|, i requires 0 <= i < |a| => c * a[i])
  }

  /** Coordinate-wise division `a / c`. */
  function Divide(a: Vec, c: real): (r: Vec)
    requires c != 0.0
    ensures |r| == |a|
    ensures forall i :: 0 <= i < |r| ==> r[i] == a[i] / c
  {
    seq(|a|, i requires 0 <= i < |a| => a[i] / c)
  }

  /** The zero vector of length `n`, `torch.zeros(n)`. */
  function Zeros(n: nat): (r: Vec)
    ensures |r| == n
    ensures forall i :: 0 <= i < n ==> r[i] == 0.0
  {
    seq(n, i => 0.0)
  }

  /** A multiple of zero is zero. */
  lemma ScaleZeros(c: real, n: nat)
    ensures Scale(c, Zeros(n)) == Zeros(n)
  {
    var z := Zeros(n);
    forall i | 0 <= i < n ensures Scale(c, z)[i] == z[i] {
      assert c * z[i] == c * 0.0;
    }
  }

  /** Adding zero changes nothing. */
  lemma AddZeros(a: Vec)
    ensures Add(a, Zeros(|a|)) == a
  {
  }

  /** The real quotient `x / d`. The samplers divide through this name, so
      that a proof about a whole chain run sees one term per division rather
      than the division itself. */
  function Quotient(x: real, d: real): real
    requires d != 0.0
  {
    x / d
  }

  /** The sum of the entries, added from the first to the last. */
  function Sum(xs: seq<real>): real
  {
    if xs == [] then 0.0 else Sum(xs[..|xs| - 1]) + xs[|xs| - 1]
  }

  /** The arithmetic mean of a non-empty sequence. */
  function Average(xs: seq<real>): real
    requires |xs| > 0
  {
    Sum(xs) / (|xs| as real)
  }

  /** The squared Euclidean norm, `torch.sum(a ** 2)`. */
  function SqNorm(a: Vec): (r: real)
    ensures r >= 0.0
  {
    PartialSqNorm(a, |a|)
  }

  /** The sum of the squares of the first `n` coordinates. */
  function PartialSqNorm(a: Vec, n: nat): (r: real)
    requires n <= |a|
    ensures r >= 0.0
  {
    if n == 0 then 0.0 else PartialSqNorm(a, n - 1) + a[n - 1] * a[n - 1]
  }

  /** A sum of `|xs|` copies of `c` is `|xs| * c`. */
  lemma {:induction false} SumConstant(xs: seq<real>, c: real)
    requires forall i :: 0 <= i < |xs| ==> xs[i] == c
    ensures Sum(xs) == (|xs| as real) * c
  {
    if xs != [] {
      var init := xs[..|xs| - 1];
      SumConstant(init, c);
      assert Sum(xs) == (|init| as real) * c + c;
    }
  }

  /** The mean of a constant sequence is that constant. */
  lemma AverageConstant(xs: seq<real>, c: real)
    requires |xs| > 0
    requires forall i :: 0 <= i < |xs| ==> xs[i] == c
    ensures Average(xs) == c
  {
    SumConstant(xs, c);
  }

  /** A sum of entries in [0, 1] lies in [0, |xs|]. */
  lemma {:induction false} SumBounds(xs: seq<real>)
    requires forall i :: 0 <= i < |xs| ==> 0.0 <= xs[i] <= 1.0
    ensures 0.0 <= Sum(xs) <= |xs| as real
  {
    if xs != [] {
      SumBounds(xs[..|xs| - 1]);
    }
  }

  /** A mean of entries in [0, 1] lies in [0, 1]. */
  lemma AverageBounds(xs: seq<real>)
    requires |xs| > 0
    requires forall i :: 0 <= i < |xs| ==> 0.0 <= xs[i] <= 1.0
    ensures 0.0 <= Average(xs) <= 1.0
  {
    SumBounds(xs);
  }

  /** Two vectors whose first `n` coordinates have equal squares have equal
      partial squared norms up to `n`. */
  lemma {:induction false} PartialSqNormPointwise(a: Vec, b: Vec, n: nat)
    requires n <= |a| == |b|
    requires forall i :: 0 <= i < |a| ==> a[i] * a[i] == b[i] * b[i]
    ensures PartialSqNorm(a, n) == PartialSqNorm(b, n)
  {
    if n > 0 {
      PartialSqNormPointwise(a, b, n - 1);
    }
  }

  /** Two vectors whose coordinates have equal squares have equal squared norms. */
  lemma SqNormPointwise(a: Vec, b: Vec)
    requires |a| == |b|
    requires forall i :: 0 <= i < |a| ==> a[i] * a[i] == b[i] * b[i]
    ensures SqNorm(a) == SqNorm(b)
  {
    PartialSqNormPointwise(a, b, |a|);
  }

  /** `(-x)²` equals `x²`. */
  lemma NegatedSquare(x: real, y: real)
    requires y == -x
    ensures x * x == y * y
  {
  }

  /** Negating a vector keeps its squared norm. */
  lemma NegatedSqNorm(d: Vec, e: Vec)
    requires |d| == |e|
    requires forall i :: 0 <= i < |d| ==> e[i] == -d[i]
    ensures SqNorm(d) == SqNorm(e)
  {
    forall i | 0 <= i < |d| ensures d[i] * d[i] == e[i] * e[i] {
      NegatedSquare(d[i], e[i]);
    }
    SqNormPointwise(d, e);
  }

  /** The squared distance is symmetric: `‖a - b‖² == ‖b - a‖²`. */
  lemma SqDistanceSymmetric(a: Vec, b: Vec)
    requires |a| == |b|
    ensures SqNorm(Sub(a, b)) == SqNorm(Sub(b, a))
  {
    NegatedSqNorm(Sub(a, b), Sub(b, a));
  }

  /** A prefix of a sequence without its last element is a prefix of the sequence. */
  lemma PrefixOfInit<T>(xs: seq<T>, j: nat)
    requires j < |xs|
    ensures xs[..|xs| - 1][..j] == xs[..j]
  {
  }

  /** Concatenation is associative. */
  lemma ConcatAssociative<T>(a: seq<T>, b: seq<T>, c: seq<T>)
    ensures (a + b) + c == a + (b + c)
  {
  }

  /** The logarithm of a draw `u` from the uniform distribution on [0, 1)
      (`torch.log(torch.rand(1))`): minus infinity when `u` is 0, otherwise
      the real `log(u)`. */
  datatype LogUniform = NegInf | Log(v: real)

  /** The values `log(u)` can take for `u` in [0, 1): minus infinity or a
      negative real. */
  predicate IsLogOfUniform(u: LogUniform)
  {
    u.NegInf? || u.v < 0.0
  }

  /** The acceptance test `log(u) < logRate`. A draw of the uniform
      distribution passes it whenever the log-rate is not negative, that is,
      whenever the acceptance probability `min(1, exp(logRate))` is 1. */
  predicate Below(u: LogUniform, logRate: real)
    ensures IsLogOfUniform(u) && logRate >= 0.0 ==> Below(u, logRate)
  {
    u.NegInf? || u.v < logRate
  }
}
