/**
 * The noisy `UncertaintyManifold` of the axiomm-project copy: each
 * conflicting centre is averaged with the latent, scaled by gamma and
 * perturbed by Gaussian noise; with no centres the latent alone is scaled
 * and perturbed. Partitions are keyed "mode_1", "mode_2", ... in order.
 * The noise draws are a parameter.
 */
module UncertaintyNoisy {
  import opened Text
  import opened Vectors

  /** `(L + C) / 2`. */
  function Midpoint(latent: Vector, center: Vector): (m: Vector)
    requires |center| == |latent|
    ensures |m| == |latent| && forall i :: 0 <= i < |m| ==> m[i] == (latent[i] + center[i]) / 2.0
  {
    Scale(0.5, Add(latent, center))
  }

  /** The draws have the shape numpy gives them: one per output, of the latent's length. */
  predicate NoiseShaped(latent: Vector, centers: seq<Vector>, noise: seq<Vector>) {
    && |noise| == (if |centers| == 0 then 1 else |centers|)
    && (forall k :: 0 <= k < |noise| ==> |noise[k]| == |latent|)
    && (forall k :: 0 <= k < |centers| ==> |centers[k]| == |latent|)
  }

  /** One keyed partition. */
  datatype Mode = Mode(decodedOutput: string, representation: Vector, internalDoubt: string)

  function ModeKey(i: nat): string {
    "mode_" + NatToString(i + 1)
  }

  function InternalDoubt(i: nat): string {
    "Internal doubt vector for mode " + NatToString(i + 1) + ": represents tension from alternative perspectives."
  }

  /** The modes `inflate_boundary` returns for the given draws. */
  function Inflated(gamma: real, latent: Vector, centers: seq<Vector>, noise: seq<Vector>): (modes: seq<Vector>)
    requires NoiseShaped(latent, centers, noise)
    ensures |modes| == |noise|
    ensures forall k :: 0 <= k < |modes| ==> |modes[k]| == |latent|
  {
    if |centers| == 0 then [Add(Scale(gamma, latent), noise[0])]
    else seq(|centers|, k requires 0 <= k < |centers| => Add(Scale(gamma, Midpoint(latent, centers[k])), noise[k]))
  }

  /** The entries of the dict `partition_modes` returns, in insertion order. */
  function Keyed(manifolds: seq<Vector>, decode: Vector -> string): (ps: seq<(string, Mode)>)
    ensures |ps| == |manifolds|
  {
    seq(|manifolds|, i requires 0 <= i < |manifolds| => (ModeKey(i), Mode(decode(manifolds[i]), manifolds[i], InternalDoubt(i))))
  }

  class UncertaintyManifold {
    const gamma: real

    constructor(gamma: real)
      ensures this.gamma == gamma
    {
      this.gamma := gamma;
    }

    /** `inflate_boundary` with the Gaussian draws given as `noise`: output k is
        gamma times the midpoint of L and centre k, plus draw k; with no centres the
        single output is gamma times L plus the one draw. */
    method InflateBoundary(latent: Vector, centers: seq<Vector>, noise: seq<Vector>) returns (modes: seq<Vector>)
      requires NoiseShaped(latent, centers, noise)
      ensures |modes| == |noise| && forall k :: 0 <= k < |modes| ==> |modes[k]| == |latent|
      ensures forall k :: 0 <= k < |centers| ==> Sub(modes[k], noise[k]) == Scale(gamma, Midpoint(latent, centers[k]))
      ensures |centers| == 0 ==> Sub(modes[0], noise[0]) == Scale(gamma, latent)
      ensures modes == Inflated(gamma, latent, centers, noise)
    {
      modes := [];
      for k := 0 to |centers|
        invariant |modes| == k
        invariant forall t :: 0 <= t < k ==> modes[t] == Add(Scale(gamma, Midpoint(latent, centers[t])), noise[t])
      {
        var blended := Scale(0.5, Add(latent, centers[k]));
        modes := modes + [Add(Scale(gamma, blended), noise[k])];
      }
      if |modes| == 0 {
        modes := modes + [Add(Scale(gamma, latent), noise[0])];
      }
      forall k | 0 <= k < |modes|
        ensures Sub(modes[k], noise[k]) == (if |centers| == 0 then Scale(gamma, latent) else Scale(gamma, Midpoint(latent, centers[k])))
      {
        var c := if |centers| == 0 then Scale(gamma, latent) else Scale(gamma, Midpoint(latent, centers[k]));
        assert modes[k] == Add(c, noise[k]);
        AddSubCancel(c, noise[k]);
      }
    }

    /** `partition_modes`: the dict as its insertion-ordered entries, entry i keyed
        "mode_<i+1>" and holding the decoded output and the manifold unchanged. */
    method PartitionModes(manifolds: seq<Vector>, decode: Vector -> string) returns (ps: seq<(string, Mode)>)
      ensures |ps| == |manifolds|
      ensures forall i :: 0 <= i < |ps| ==>
        && ps[i].0 == ModeKey(i)
        && ps[i].1.decodedOutput == decode(manifolds[i])
        && ps[i].1.representation == manifolds[i]
        && ps[i].1.internalDoubt == InternalDoubt(i)
      ensures ps == Keyed(manifolds, decode)
    {
      ps := [];
      for i := 0 to |manifolds|
        invariant |ps| == i
        invariant forall t :: 0 <= t < i ==> ps[t] == (ModeKey(t), Mode(decode(manifolds[t]), manifolds[t], InternalDoubt(t)))
      {
        var doubt := "Internal doubt vector for mode " + NatToString(i + 1) + ": represents tension from alternative perspectives.";
        ps := ps + [("mode_" + NatToString(i + 1), Mode(decode(manifolds[i]), manifolds[i], doubt))];
      }
    }
  }

  lemma AddSubCancel(a: Vector, b: Vector)
    requires |a| == |b|
    ensures Sub(Add(a, b), b) == a
  {
  }

  /** The keys are pairwise different, so the dict really has one entry per manifold. */
  lemma ModeKeysDistinct(i: nat, j: nat)
    requires i != j
    ensures ModeKey(i) != ModeKey(j)
  {
    NumberedDistinct("mode_", i + 1, j + 1);
  }
}
