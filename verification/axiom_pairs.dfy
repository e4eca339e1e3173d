/**
 * What both singularity detectors compute for one pair of axioms: whether
 * all four vectors are present, the squared gradient gap, and whether the
 * latent's dot products with the two basins differ in sign.
 */
module AxiomPairs {
  import opened Vectors

  /** The detector's inputs: the latent vector, and gradients and basins keyed by axiom. */
  datatype Field = Field(latent: Vector, grads: map<string, Vector>, basins: map<string, Vector>)

  /** The shapes numpy needs: all gradients of one length, all basins of the latent's length. */
  predicate WellShaped(f: Field) {
    (forall a, b :: a in f.grads && b in f.grads ==> |f.grads[a]| == |f.grads[b]|) &&
    (forall a :: a in f.basins ==> |f.basins[a]| == |f.latent|)
  }

  /** Neither gradient nor basin is missing for either axiom. */
  predicate Complete(f: Field, a: string, b: string) {
    a in f.grads && b in f.grads && a in f.basins && b in f.basins
  }

  /** `norm(grad_a - grad_b)` squared. */
  function Gap(f: Field, a: string, b: string): (g: real)
    requires WellShaped(f) && Complete(f, a, b)
    ensures g >= 0.0
  {
    SqNormNonNegative(Sub(f.grads[a], f.grads[b]));
    SqDist(f.grads[a], f.grads[b])
  }

  /** `sign(L . B_a) != sign(L . B_b)`, with the three-valued sign. */
  predicate Divergent(f: Field, a: string, b: string)
    requires WellShaped(f) && Complete(f, a, b)
  {
    Sign(Dot(f.latent, f.basins[a])) != Sign(Dot(f.latent, f.basins[b]))
  }

  /** A zero projection against a positive one counts as divergent. */
  lemma ZeroAgainstPositiveDiverges(f: Field, a: string, b: string)
    requires WellShaped(f) && Complete(f, a, b)
    requires Dot(f.latent, f.basins[a]) == 0.0 && Dot(f.latent, f.basins[b]) > 0.0
    ensures Divergent(f, a, b)
  {
  }

  /** (p, q) is an index pair of the nested loops. */
  predicate IsPair(n: int, p: int, q: int) {
    0 <= p < q < n
  }

  /** (p, q) comes at or after (i, j) in the loops' lexicographic order. */
  predicate AtOrAfter(p: int, q: int, i: int, j: int) {
    p > i || (p == i && q >= j)
  }

  /** (p, q) comes strictly before (p2, q2) in the loops' order. */
  predicate Before(p: int, q: int, p2: int, q2: int) {
    p < p2 || (p == p2 && q < q2)
  }

  /** A pair the detectors treat as a conflict: complete data and divergent signs. */
  predicate Conflict(f: Field, axioms: seq<string>, p: int, q: int)
    requires WellShaped(f)
  {
    IsPair(|axioms|, p, q) && Complete(f, axioms[p], axioms[q]) && Divergent(f, axioms[p], axioms[q])
  }

  /** A pair whose gap the detectors measure. */
  predicate Measured(f: Field, axioms: seq<string>, p: int, q: int) {
    IsPair(|axioms|, p, q) && Complete(f, axioms[p], axioms[q])
  }
}
