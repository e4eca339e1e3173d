/** Real vectors standing in for the numpy 1-D arrays of the source. */
module Vectors {

  type Vector = seq<real>

  function Add(a: Vector, b: Vector): (r: Vector)
    requires |a| == |b|
    ensures |r| == |a| && forall i :: 0 <= i < |a| ==> r[i] == a[i] + b[i]
  {
    seq(|a|, i requires 0 <= i < |a| => a[i] + b[i])
  }

  function Sub(a: Vector, b: Vector): (r: Vector)
    requires |a| == |b|
    ensures |r| == |a| && forall i :: 0 <= i < |a| ==> r[i] == a[i] - b[i]
  {
    seq(|a|, i requires 0 <= i < |a| => a[i] - b[i])
  }

  function Scale(c: real, a: Vector): (r: Vector)
    ensures |r| == |a| && forall i :: 0 <= i < |a| ==> r[i] == c * a[i]
  {
    seq(|a|, i requires 0 <= i < |a| => c * a[i])
  }

  /** `np.dot` of two 1-D arrays of equal length. */
  function Dot(a: Vector, b: Vector): real
    requires |a| == |b|
  {
    if |a| == 0 then 0.0 else Dot(a[..|a| - 1], b[..|b| - 1]) + a[|a| - 1] * b[|b| - 1]
  }

  /** `np.sum`. */
  function Sum(a: Vector): real {
    if |a| == 0 then 0.0 else Sum(a[..|a| - 1]) + a[|a| - 1]
  }

  /** `c * np.ones(n)`. */
  function Filled(n: nat, c: real): (r: Vector)
    ensures |r| == n && forall i :: 0 <= i < n ==> r[i] == c
  {
    seq(n, i requires 0 <= i < n => c)
  }

  /** Projecting onto a constant vector scales the component sum. */
  lemma {:induction false} DotFilled(a: Vector, c: real)
    ensures Dot(a, Filled(|a|, c)) == c * Sum(a)
  {
    if |a| > 0 {
      assert Filled(|a|, c)[..|a| - 1] == Filled(|a| - 1, c);
      DotFilled(a[..|a| - 1], c);
    }
  }

  /** Square of the Euclidean norm; the norm itself is compared through it. */
  function SqNorm(a: Vector): real {
    if |a| == 0 then 0.0 else SqNorm(a[..|a| - 1]) + a[|a| - 1] * a[|a| - 1]
  }

  lemma {:induction false} SqNormNonNegative(a: Vector)
    ensures SqNorm(a) >= 0.0
  {
    if |a| > 0 {
      SqNormNonNegative(a[..|a| - 1]);
    }
  }

  /** The squared norm is at least the square of any one component. */
  lemma {:induction false} SqNormAtLeast(a: Vector, i: nat)
    requires i < |a|
    ensures SqNorm(a) >= a[i] * a[i]
  {
    if i == |a| - 1 {
      SqNormNonNegative(a[..|a| - 1]);
    } else {
      SqNormAtLeast(a[..|a| - 1], i);
    }
  }

  /** Squared Euclidean distance `|a - b|^2`. */
  function SqDist(a: Vector, b: Vector): real
    requires |a| == |b|
  {
    SqNorm(Sub(a, b))
  }

  /** `np.sign`: three-valued. */
  function Sign(x: real): int {
    if x > 0.0 then 1 else if x < 0.0 then -1 else 0
  }

  /** `sqrt(sq) > eps` for a square `sq >= 0`, decided without a square root:
      a norm is never negative, so every negative threshold is exceeded. */
  predicate NormExceeds(sq: real, eps: real) {
    eps < 0.0 || sq > eps * eps
  }

  /** `abs`. */
  function Abs(x: real): (r: real)
    ensures r >= 0.0 && (r == x || r == -x)
  {
    if x < 0.0 then -x else x
  }

  function Max(a: real, b: real): real {
    if b > a then b else a
  }

  /** `v[:k]`: the first `min(k, |v|)` components. */
  function Take<T>(v: seq<T>, k: nat): (r: seq<T>)
    ensures |r| == if k < |v| then k else |v|
    ensures forall i :: 0 <= i < |r| ==> r[i] == v[i]
  {
    if k < |v| then v[..k] else v
  }
}
