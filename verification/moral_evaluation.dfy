/**
 * `MoralEvaluationFunctional.evaluate`: the representation is projected on
 * three fixed unit axes (utility, deontology, dignity preservation), each
 * over the common prefix of the two vectors, and the three scores are
 * rescaled to magnitude 2/3 when the largest exceeds 0.1.
 */
module MoralEvaluation {
  import opened Wrappers
  import opened Vectors

  /** What `evaluate` may be handed: a 1-D array, an array of another rank, or no array. */
  datatype Input = Array1(v: Vector) | ArrayN(ndim: nat) | NotArray

  const NotOneD := "manifold_representation must be a 1D numpy array."
  const Threshold := 0.1

  /** The three ethical axes, in their dict order. */
  const Axes: seq<Vector> := [[1.0, 0.0, 0.0], [0.0, 1.0, 0.0], [0.0, 0.0, 1.0]]

  /** `np.dot(rep[:min_dim], axis[:min_dim])`. */
  function AxisScore(rep: Vector, axis: Vector): real {
    var d := if |rep| < |axis| then |rep| else |axis|;
    Dot(rep[..d], axis[..d])
  }

  /** The three scores before rescaling. */
  function RawScores(rep: Vector): (s: Vector)
    ensures |s| == 3
  {
    [AxisScore(rep, Axes[0]), AxisScore(rep, Axes[1]), AxisScore(rep, Axes[2])]
  }

  function MaxAbs3(s: Vector): real
    requires |s| == 3
  {
    Max(Abs(s[0]), Max(Abs(s[1]), Abs(s[2])))
  }

  /** Division by 1.5 times the largest magnitude, when that exceeds the threshold. */
  function Rescale(raw: Vector): (w: Vector)
    requires |raw| == 3
    ensures |w| == 3
  {
    if MaxAbs3(raw) > Threshold then Scale(Factor(raw), raw) else raw
  }

  /** `1 / (max_abs_score * 1.5)`. */
  function Factor(raw: Vector): real
    requires |raw| == 3 && MaxAbs3(raw) > Threshold
  {
    1.0 / (MaxAbs3(raw) * 1.5)
  }

  lemma FactorFacts(raw: Vector)
    requires |raw| == 3 && MaxAbs3(raw) > Threshold
    ensures Factor(raw) > 0.0 && Factor(raw) * MaxAbs3(raw) == 2.0 / 3.0
    ensures forall k :: 0 <= k < 3 ==> Rescale(raw)[k] == Factor(raw) * raw[k]
  {
  }

  /** The score vector of a 1-D representation. */
  function Weigh(rep: Vector): (w: Vector)
    ensures |w| == 3
  {
    Rescale(RawScores(rep))
  }

  /** `evaluate`, with the rank check. */
  function Evaluate(input: Input): (r: Result<Vector, string>)
    ensures r.Failure? <==> !input.Array1?
    ensures r.Failure? ==> r.error == NotOneD
    ensures r.Success? ==> |r.value| == 3
  {
    match input
    case Array1(v) => Success(Weigh(v))
    case _ => Failure(NotOneD)
  }

  // ---------------------------------------------------------------------
  // Properties.

  /** A dot product with a unit vector picks out one component. */
  lemma {:induction false} DotUnit(a: Vector, u: Vector, k: nat)
    requires |a| == |u|
    requires forall i :: 0 <= i < |u| ==> u[i] == (if i == k then 1.0 else 0.0)
    ensures Dot(a, u) == if k < |a| then a[k] else 0.0
  {
    if |a| > 0 {
      var n := |a| - 1;
      DotUnit(a[..n], u[..n], k);
    }
  }

  /** Raw score k is component k of the representation, or 0 past its end. */
  lemma RawScoreIsComponent(rep: Vector, k: nat)
    requires k < 3
    ensures RawScores(rep)[k] == if k < |rep| then rep[k] else 0.0
  {
    var axis := Axes[k];
    var d := if |rep| < |axis| then |rep| else |axis|;
    DotUnit(rep[..d], axis[..d], k);
  }

  /** Small score vectors pass through unchanged. */
  lemma SmallScoresUnchanged(raw: Vector)
    requires |raw| == 3 && MaxAbs3(raw) <= Threshold
    ensures Rescale(raw) == raw
  {
  }

  /** Otherwise every component lies in [-2/3, 2/3] and the largest has magnitude exactly 2/3. */
  lemma RescaledBounds(raw: Vector)
    requires |raw| == 3 && MaxAbs3(raw) > Threshold
    ensures forall k :: 0 <= k < 3 ==> -2.0 / 3.0 <= Rescale(raw)[k] <= 2.0 / 3.0
    ensures exists k :: 0 <= k < 3 && Abs(Rescale(raw)[k]) == 2.0 / 3.0
  {
    FactorFacts(raw);
    var top := if Abs(raw[0]) == MaxAbs3(raw) then 0 else if Abs(raw[1]) == MaxAbs3(raw) then 1 else 2;
    ScaledBounds(raw, Rescale(raw), Factor(raw), MaxAbs3(raw), top);
  }

  /** Every weight lies in [-2/3, 2/3], whether or not it was rescaled. */
  lemma WeighBounded(rep: Vector)
    ensures forall k :: 0 <= k < 3 ==> -2.0 / 3.0 <= Weigh(rep)[k] <= 2.0 / 3.0
  {
    var raw := RawScores(rep);
    if MaxAbs3(raw) > Threshold {
      RescaledBounds(raw);
    } else {
      assert forall k :: 0 <= k < 3 ==> Abs(raw[k]) <= MaxAbs3(raw);
    }
  }

  lemma ScaledBounds(raw: Vector, w: Vector, c: real, m: real, top: nat)
    requires |raw| == 3 && |w| == 3 && top < 3
    requires c > 0.0 && c * m == 2.0 / 3.0
    requires forall k :: 0 <= k < 3 ==> w[k] == c * raw[k] && Abs(raw[k]) <= m
    requires Abs(raw[top]) == m
    ensures forall k :: 0 <= k < 3 ==> -2.0 / 3.0 <= w[k] <= 2.0 / 3.0
    ensures Abs(w[top]) == 2.0 / 3.0
  {
    forall k | 0 <= k < 3
      ensures -2.0 / 3.0 <= w[k] <= 2.0 / 3.0
    {
      ScaledWithin(c, raw[k], m, 2.0 / 3.0);
    }
    ScaledAbs(c, raw[top]);
  }

  lemma ScaledWithin(c: real, x: real, m: real, b: real)
    requires c > 0.0 && Abs(x) <= m && c * m == b
    ensures -b <= c * x <= b
  {
    if x >= 0.0 {
      assert c * m - c * x == c * (m - x);
    } else {
      assert c * m + c * x == c * (m + x);
    }
  }

  lemma ScaledAbs(c: real, x: real)
    requires c > 0.0
    ensures Abs(c * x) == c * Abs(x)
  {
    if x < 0.0 {
      assert c * x == -(c * (-x));
    }
  }

  /** Rescaling keeps each score's sign and the order between any two scores. */
  lemma RescaleKeepsSignAndOrder(raw: Vector)
    requires |raw| == 3
    ensures forall k :: 0 <= k < 3 ==> Sign(Rescale(raw)[k]) == Sign(raw[k])
    ensures forall i, j :: 0 <= i < 3 && 0 <= j < 3 ==> (raw[i] <= raw[j] <==> Rescale(raw)[i] <= Rescale(raw)[j])
  {
    if MaxAbs3(raw) > Threshold {
      FactorFacts(raw);
      ScaledKeepsSignAndOrder(raw, Rescale(raw), Factor(raw));
    }
  }

  lemma ScaledKeepsSignAndOrder(raw: Vector, w: Vector, c: real)
    requires |raw| == 3 && |w| == 3 && c > 0.0
    requires forall k :: 0 <= k < 3 ==> w[k] == c * raw[k]
    ensures forall k :: 0 <= k < 3 ==> Sign(w[k]) == Sign(raw[k])
    ensures forall i, j :: 0 <= i < 3 && 0 <= j < 3 ==> (raw[i] <= raw[j] <==> w[i] <= w[j])
  {
    forall k | 0 <= k < 3
      ensures Sign(w[k]) == Sign(raw[k])
    {
      PositiveScaleKeepsOrder(c, raw[k], 0.0);
      PositiveScaleKeepsOrder(c, 0.0, raw[k]);
    }
    forall i, j | 0 <= i < 3 && 0 <= j < 3
      ensures raw[i] <= raw[j] <==> w[i] <= w[j]
    {
      PositiveScaleKeepsOrder(c, raw[i], raw[j]);
    }
  }

  lemma PositiveScaleKeepsOrder(c: real, x: real, y: real)
    requires c > 0.0
    ensures x <= y <==> c * x <= c * y
    ensures x < y <==> c * x < c * y
  {
    assert c * y - c * x == c * (y - x);
  }
}
