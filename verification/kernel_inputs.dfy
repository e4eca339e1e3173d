/**
 * What both Epistemic Deferral Kernels derive from their inputs: the
 * gradient field as an insertion-ordered dict, the running-checksum value
 * `sum(norm(g) for g in gradient_field.values()) + 10 * epsilon`, and the
 * basins of the listed axioms that have one, in axiom order.
 */
module KernelInputs {
  import opened Vectors

  /** A dict as its insertion-ordered entries. */
  type Entries = seq<(string, Vector)>

  predicate DistinctKeys(e: Entries) {
    forall i, j :: 0 <= i < j < |e| ==> e[i].0 != e[j].0
  }

  /** The dict the entries make up. */
  function AsMap(e: Entries): (m: map<string, Vector>)
    ensures forall k :: k in m <==> exists i :: 0 <= i < |e| && e[i].0 == k
  {
    if |e| == 0 then map[] else AsMap(e[..|e| - 1])[e[|e| - 1].0 := e[|e| - 1].1]
  }

  /** `np.sum([norm(g) for g in d.values()])`, with the norm supplied by the caller. */
  function SumNorms(norm: Vector -> real, e: Entries): real {
    if |e| == 0 then 0.0 else SumNorms(norm, e[..|e| - 1]) + norm(e[|e| - 1].1)
  }

  /** The checksum a call computes. */
  function NewChecksum(norm: Vector -> real, grads: Entries, epsilon: real): real {
    SumNorms(norm, grads) + epsilon * 10.0
  }

  /** The listed axioms that have a basin, with repetitions, in list order. */
  function WithBasins(axioms: seq<string>, basins: map<string, Vector>): (w: seq<string>)
    ensures |w| <= |axioms|
    ensures forall a :: a in w <==> a in axioms && a in basins
    ensures forall k :: 0 <= k < |w| ==> w[k] in basins
    ensures (forall a :: a in axioms ==> a in basins) ==> w == axioms
  {
    if |axioms| == 0 then []
    else
      var rest := WithBasins(axioms[..|axioms| - 1], basins);
      var a := axioms[|axioms| - 1];
      assert axioms == axioms[..|axioms| - 1] + [a];
      if a in basins then rest + [a] else rest
  }

  /** `[basins[ax] for ax in axioms if ax in basins]`. */
  function ConflictingBasins(axioms: seq<string>, basins: map<string, Vector>): (r: seq<Vector>)
    ensures |r| == |WithBasins(axioms, basins)|
    ensures forall k :: 0 <= k < |r| ==> r[k] == basins[WithBasins(axioms, basins)[k]]
  {
    var w := WithBasins(axioms, basins);
    seq(|w|, k requires 0 <= k < |w| => basins[w[k]])
  }

  /** The selected basins have the latent's length when all basins do. */
  lemma ConflictingBasinsShaped(latent: Vector, axioms: seq<string>, basins: map<string, Vector>)
    requires forall a :: a in basins ==> |basins[a]| == |latent|
    ensures forall k :: 0 <= k < |ConflictingBasins(axioms, basins)| ==> |ConflictingBasins(axioms, basins)[k]| == |latent|
  {
    var w := WithBasins(axioms, basins);
    forall k | 0 <= k < |w|
      ensures w[k] in basins
    {
      assert w[k] in w;
    }
  }

  /** Moving the first entry of the dict to the end leaves the checksum's norm sum unchanged. */
  lemma {:induction false} SumNormsRotate(norm: Vector -> real, x: (string, Vector), e: Entries)
    ensures SumNorms(norm, [x] + e) == SumNorms(norm, e + [x])
    decreases |e|
  {
    if |e| > 0 {
      assert ([x] + e)[..|[x] + e| - 1] == [x] + e[..|e| - 1];
      SumNormsRotate(norm, x, e[..|e| - 1]);
      assert (e + [x])[..|e|] == e;
      assert e == e[..|e| - 1] + [e[|e| - 1]];
      assert (e[..|e| - 1] + [x])[..|e| - 1] == e[..|e| - 1];
    }
  }
}
