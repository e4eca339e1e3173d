/**
 * The deterministic `UncertaintyManifold`: each conflicting basin pulls a
 * copy of the latent vector part of the way towards it, the latent itself
 * is kept as the first mode, and every mode is decoded into a numbered
 * partition.
 */
module UncertaintyBlend {
  import opened Text
  import opened Vectors

  /** `L + gamma * (B - L)`. */
  function Blend(gamma: real, latent: Vector, basin: Vector): (m: Vector)
    requires |basin| == |latent|
    ensures |m| == |latent|
    ensures forall i :: 0 <= i < |m| ==> m[i] == latent[i] + gamma * (basin[i] - latent[i])
  {
    Add(latent, Scale(gamma, Sub(basin, latent)))
  }

  /** All basins have the latent's length, as numpy's elementwise arithmetic needs. */
  predicate SameShape(latent: Vector, basins: seq<Vector>) {
    forall k :: 0 <= k < |basins| ==> |basins[k]| == |latent|
  }

  /** One decoded mode. */
  datatype Partition = Partition(modeName: string, decodedOutput: string, sample: seq<real>, doubtNote: string)

  function ModeName(i: nat): string {
    "Mode " + NatToString(i + 1)
  }

  function DoubtNote(i: nat): string {
    "Relational Reframing: This mode represents an interpretation where "
    + "certain conceptual relationships are weighted differently due to "
    + "underlying tension in the latent space (Manifold M_" + NatToString(i + 1) + ")."
  }

  /** What `partition_modes` builds from manifold number i. */
  function PartitionOf(i: nat, m: Vector, decode: Vector -> string): Partition {
    Partition(ModeName(i), decode(m), Take(m, 5), DoubtNote(i))
  }

  /** The modes `inflate_boundary` returns. */
  function Inflated(gamma: real, latent: Vector, basins: seq<Vector>): (modes: seq<Vector>)
    requires SameShape(latent, basins)
    ensures |modes| == |basins| + 1
    ensures forall k :: 0 <= k < |modes| ==> |modes[k]| == |latent|
  {
    [latent] + seq(|basins|, k requires 0 <= k < |basins| => Blend(gamma, latent, basins[k]))
  }

  /** The partitions `partition_modes` returns. */
  function Partitioned(manifolds: seq<Vector>, decode: Vector -> string): (ps: seq<Partition>)
    ensures |ps| == |manifolds|
  {
    seq(|manifolds|, i requires 0 <= i < |manifolds| => PartitionOf(i, manifolds[i], decode))
  }

  class UncertaintyManifold {
    const gamma: real

    constructor(gamma: real)
      ensures this.gamma == gamma
    {
      this.gamma := gamma;
    }

    /** `inflate_boundary`: the latent first, then one blend per basin in basin order;
        with no basins, just the latent. */
    method InflateBoundary(latent: Vector, basins: seq<Vector>) returns (modes: seq<Vector>)
      requires SameShape(latent, basins)
      ensures |modes| == |basins| + 1
      ensures modes[0] == latent
      ensures forall k :: 0 <= k < |basins| ==> modes[k + 1] == Blend(gamma, latent, basins[k])
      ensures modes == Inflated(gamma, latent, basins)
    {
      if |basins| == 0 {
        return [latent];
      }
      var inflated: seq<Vector> := [];
      for k := 0 to |basins|
        invariant |inflated| == k
        invariant forall t :: 0 <= t < k ==> inflated[t] == Blend(gamma, latent, basins[t])
      {
        var m := Add(latent, Scale(gamma, Sub(basins[k], latent)));
        inflated := inflated + [m];
      }
      modes := [latent] + inflated;
    }

    /** `partition_modes`: one partition per manifold, in order, numbered from 1. */
    method PartitionModes(manifolds: seq<Vector>, decode: Vector -> string) returns (ps: seq<Partition>)
      ensures |ps| == |manifolds|
      ensures forall i :: 0 <= i < |ps| ==>
        && ps[i].modeName == "Mode " + NatToString(i + 1)
        && ps[i].decodedOutput == decode(manifolds[i])
        && ps[i].sample == Take(manifolds[i], 5)
        && ps[i].doubtNote == DoubtNote(i)
      ensures ps == Partitioned(manifolds, decode)
    {
      ps := [];
      for i := 0 to |manifolds|
        invariant |ps| == i
        invariant forall t :: 0 <= t < i ==> ps[t] == PartitionOf(t, manifolds[t], decode)
      {
        ps := ps + [Partition("Mode " + NatToString(i + 1), decode(manifolds[i]), Take(manifolds[i], 5), DoubtNote(i))];
      }
    }
  }

  // ---------------------------------------------------------------------
  // Properties of the blend and of the numbering.

  /** gamma = 0 leaves the latent where it is. */
  lemma BlendZero(latent: Vector, basin: Vector)
    requires |basin| == |latent|
    ensures Blend(0.0, latent, basin) == latent
  {
  }

  /** gamma = 1 moves the latent onto the basin. */
  lemma BlendOne(latent: Vector, basin: Vector)
    requires |basin| == |latent|
    ensures Blend(1.0, latent, basin) == basin
  {
  }

  /** The blend lies on the segment from L to B: for 0 <= gamma <= 1 every component
      stays between the two endpoints' components. */
  lemma BlendBetween(gamma: real, latent: Vector, basin: Vector)
    requires |basin| == |latent| && 0.0 <= gamma <= 1.0
    ensures forall i :: 0 <= i < |latent| ==>
      var m := Blend(gamma, latent, basin)[i];
      (latent[i] <= m <= basin[i]) || (basin[i] <= m <= latent[i])
  {
    forall i | 0 <= i < |latent|
      ensures var m := Blend(gamma, latent, basin)[i];
        (latent[i] <= m <= basin[i]) || (basin[i] <= m <= latent[i])
    {
      PointBetween(gamma, latent[i], basin[i]);
    }
  }

  lemma PointBetween(g: real, l: real, b: real)
    requires 0.0 <= g <= 1.0
    ensures var m := l + g * (b - l); (l <= m <= b) || (b <= m <= l)
  {
    var d := b - l;
    assert d - g * d == (1.0 - g) * d;
    if d >= 0.0 {
      assert 0.0 <= g * d;
      assert 0.0 <= (1.0 - g) * d;
    } else {
      assert g * d <= 0.0;
      assert (1.0 - g) * d <= 0.0;
    }
  }

  /** No two partitions share a mode name. */
  lemma ModeNamesDistinct(i: nat, j: nat)
    requires i != j
    ensures ModeName(i) != ModeName(j)
  {
    NumberedDistinct("Mode ", i + 1, j + 1);
  }
}
