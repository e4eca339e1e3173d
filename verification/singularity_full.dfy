/**
 * The full-scan `AxiomaticSingularityDetector.detect`: after two guards on
 * the amount of data, every pair i < j is visited with no early exit; the
 * largest gradient gap and the "some pair diverges" flag are gathered
 * independently, and detection needs both. Gaps are compared squared.
 */
module SingularityFull {
  import opened Vectors
  import opened AxiomPairs

  const NotEnoughAxioms := "No sufficient axioms for comparison."
  const NotEnoughData := "Insufficient gradient or basin data for axioms."
  const NodePrefix := "bifurcation_node_"

  /** `{ax: m.get(ax) for ax in axioms if ax in m}`. */
  function Restrict(axioms: seq<string>, m: map<string, Vector>): (r: map<string, Vector>)
    ensures forall a :: a in r <==> a in axioms && a in m
    ensures forall a :: a in r ==> r[a] == m[a]
  {
    map a | a in axioms && a in m :: m[a]
  }

  /** The nested loops from pair (i, j) on: the running maximum and divergence flag. */
  function Sweep(f: Field, axioms: seq<string>, i: nat, j: nat, maxSq: real, divergent: bool): (r: (real, bool))
    requires WellShaped(f) && i < j
    decreases |axioms| - i, |axioms| - j
  {
    if i >= |axioms| then (maxSq, divergent)
    else if j >= |axioms| then Sweep(f, axioms, i + 1, i + 2, maxSq, divergent)
    else if !Complete(f, axioms[i], axioms[j]) then Sweep(f, axioms, i, j + 1, maxSq, divergent)
    else
      var m := if Gap(f, axioms[i], axioms[j]) > maxSq then Gap(f, axioms[i], axioms[j]) else maxSq;
      Sweep(f, axioms, i, j + 1, m, divergent || Divergent(f, axioms[i], axioms[j]))
  }

  /** The whole sweep, from pair (0, 1) with maximum 0 and no divergence. */
  function FullSweep(f: Field, axioms: seq<string>): (real, bool)
    requires WellShaped(f)
  {
    Sweep(f, axioms, 0, 1, 0.0, false)
  }

  /** Both data guards pass. */
  predicate EnoughData(f: Field, axioms: seq<string>) {
    |axioms| >= 2 && |Restrict(axioms, f.grads)| >= 2 && |Restrict(axioms, f.basins)| >= 2
  }

  /** What `detect` answers: enough data, a gap above epsilon and some divergent pair. */
  predicate Detected(epsilon: real, f: Field, axioms: seq<string>)
    requires WellShaped(f)
  {
    EnoughData(f, axioms) && NormExceeds(FullSweep(f, axioms).0, epsilon) && FullSweep(f, axioms).1
  }

  /** The second component of `detect`'s answer. */
  function DetectionId(epsilon: real, f: Field, axioms: seq<string>, hash: string): string
    requires WellShaped(f)
  {
    if |axioms| < 2 then NotEnoughAxioms
    else if !EnoughData(f, axioms) then NotEnoughData
    else if Detected(epsilon, f, axioms) then NodePrefix + hash
    else ""
  }

  class AxiomaticSingularityDetector {
    const epsilon: real

    constructor(epsilonAxiom: real)
      ensures epsilon == epsilonAxiom
    {
      epsilon := epsilonAxiom;
    }

    /** `detect`; `hash` stands for `hash(str(latent_representation))`. */
    method Detect(latent: Vector, grads: map<string, Vector>, basins: map<string, Vector>,
                  axioms: seq<string>, hash: string)
      returns (detected: bool, id: string)
      requires WellShaped(Field(latent, grads, basins))
      ensures |axioms| < 2 ==> !detected && id == NotEnoughAxioms
      ensures |axioms| >= 2 && (|Restrict(axioms, grads)| < 2 || |Restrict(axioms, basins)| < 2) ==>
        !detected && id == NotEnoughData
      ensures |axioms| >= 2 && |Restrict(axioms, grads)| >= 2 && |Restrict(axioms, basins)| >= 2 ==>
        var r := FullSweep(Field(latent, grads, basins), axioms);
        && detected == (NormExceeds(r.0, epsilon) && r.1)
        && id == (if detected then NodePrefix + hash else "")
      ensures detected == Detected(epsilon, Field(latent, grads, basins), axioms)
      ensures id == DetectionId(epsilon, Field(latent, grads, basins), axioms, hash)
    {
      if |axioms| < 2 {
        return false, NotEnoughAxioms;
      }
      var axiomGradients := Restrict(axioms, grads);
      var axiomBasins := Restrict(axioms, basins);
      if |axiomGradients| < 2 || |axiomBasins| < 2 {
        return false, NotEnoughData;
      }
      ghost var f := Field(latent, grads, basins);
      var maxSq := 0.0;
      var divergent := false;
      var i := 0;
      while i < |axioms|
        invariant 0 <= i <= |axioms|
        invariant Sweep(f, axioms, i, i + 1, maxSq, divergent) == FullSweep(f, axioms)
      {
        var j := 0;
        while j < |axioms|
          invariant 0 <= j <= |axioms|
          invariant Sweep(f, axioms, i, if j <= i then i + 1 else j, maxSq, divergent) == FullSweep(f, axioms)
        {
          if i < j {
            var a, b := axioms[i], axioms[j];
            if a in axiomGradients && b in axiomGradients && a in axiomBasins && b in axiomBasins {
              var diff := SqDist(axiomGradients[a], axiomGradients[b]);
              if diff > maxSq {
                maxSq := diff;
              }
              if Sign(Dot(latent, axiomBasins[a])) != Sign(Dot(latent, axiomBasins[b])) {
                divergent := true;
              }
            }
          }
          j := j + 1;
        }
        i := i + 1;
      }
      if NormExceeds(maxSq, epsilon) && divergent {
        return true, NodePrefix + hash;
      }
      return false, "";
    }
  }

  // ---------------------------------------------------------------------
  // What the sweep computes.

  /** From (i, j) on, the flag ends up set iff it was set or some later pair conflicts. */
  lemma {:induction false} SweepDivergence(f: Field, axioms: seq<string>, i: nat, j: nat, maxSq: real, divergent: bool)
    requires WellShaped(f) && i < j
    ensures Sweep(f, axioms, i, j, maxSq, divergent).1 <==>
      divergent || exists p, q :: AtOrAfter(p, q, i, j) && Conflict(f, axioms, p, q)
    decreases |axioms| - i, |axioms| - j
  {
    if i >= |axioms| {
    } else if j >= |axioms| {
      SweepDivergence(f, axioms, i + 1, i + 2, maxSq, divergent);
    } else {
      assert forall p, q :: AtOrAfter(p, q, i, j) ==> (p == i && q == j) || AtOrAfter(p, q, i, j + 1);
      if !Complete(f, axioms[i], axioms[j]) {
        SweepDivergence(f, axioms, i, j + 1, maxSq, divergent);
      } else {
        var m := if Gap(f, axioms[i], axioms[j]) > maxSq then Gap(f, axioms[i], axioms[j]) else maxSq;
        SweepDivergence(f, axioms, i, j + 1, m, divergent || Divergent(f, axioms[i], axioms[j]));
        if Divergent(f, axioms[i], axioms[j]) {
          assert AtOrAfter(i, j, i, j) && Conflict(f, axioms, i, j);
        }
      }
    }
  }

  /** From (i, j) on, the sweep never lowers the running maximum. */
  lemma {:induction false} SweepAtLeast(f: Field, axioms: seq<string>, i: nat, j: nat, maxSq: real, divergent: bool)
    requires WellShaped(f) && i < j
    ensures Sweep(f, axioms, i, j, maxSq, divergent).0 >= maxSq
    decreases |axioms| - i, |axioms| - j
  {
    if i >= |axioms| {
    } else if j >= |axioms| {
      SweepAtLeast(f, axioms, i + 1, i + 2, maxSq, divergent);
    } else if !Complete(f, axioms[i], axioms[j]) {
      SweepAtLeast(f, axioms, i, j + 1, maxSq, divergent);
    } else {
      var m := if Gap(f, axioms[i], axioms[j]) > maxSq then Gap(f, axioms[i], axioms[j]) else maxSq;
      SweepAtLeast(f, axioms, i, j + 1, m, divergent || Divergent(f, axioms[i], axioms[j]));
    }
  }

  /** From (i, j) on, the final maximum bounds the gap of every later measured pair. */
  lemma {:induction false} SweepBoundsGaps(f: Field, axioms: seq<string>, i: nat, j: nat, maxSq: real, divergent: bool)
    requires WellShaped(f) && i < j
    ensures var r := Sweep(f, axioms, i, j, maxSq, divergent);
      forall p, q :: AtOrAfter(p, q, i, j) && Measured(f, axioms, p, q) ==> Gap(f, axioms[p], axioms[q]) <= r.0
    decreases |axioms| - i, |axioms| - j
  {
    if i >= |axioms| {
    } else if j >= |axioms| {
      SweepBoundsGaps(f, axioms, i + 1, i + 2, maxSq, divergent);
    } else {
      assert forall p, q :: AtOrAfter(p, q, i, j) ==> (p == i && q == j) || AtOrAfter(p, q, i, j + 1);
      if !Complete(f, axioms[i], axioms[j]) {
        SweepBoundsGaps(f, axioms, i, j + 1, maxSq, divergent);
      } else {
        var m := if Gap(f, axioms[i], axioms[j]) > maxSq then Gap(f, axioms[i], axioms[j]) else maxSq;
        var d := divergent || Divergent(f, axioms[i], axioms[j]);
        SweepBoundsGaps(f, axioms, i, j + 1, m, d);
        SweepAtLeast(f, axioms, i, j + 1, m, d);
      }
    }
  }

  /** From (i, j) on, the final maximum is the starting one or the gap of a later measured pair. */
  lemma {:induction false} SweepAttains(f: Field, axioms: seq<string>, i: nat, j: nat, maxSq: real, divergent: bool)
    requires WellShaped(f) && i < j
    ensures var r := Sweep(f, axioms, i, j, maxSq, divergent);
      r.0 == maxSq || exists p, q :: AtOrAfter(p, q, i, j) && Measured(f, axioms, p, q)
                                     && Gap(f, axioms[p], axioms[q]) == r.0
    decreases |axioms| - i, |axioms| - j
  {
    if i >= |axioms| {
    } else if j >= |axioms| {
      SweepAttains(f, axioms, i + 1, i + 2, maxSq, divergent);
    } else {
      assert forall p, q :: AtOrAfter(p, q, i, j + 1) ==> AtOrAfter(p, q, i, j);
      if !Complete(f, axioms[i], axioms[j]) {
        SweepAttains(f, axioms, i, j + 1, maxSq, divergent);
      } else {
        var m := if Gap(f, axioms[i], axioms[j]) > maxSq then Gap(f, axioms[i], axioms[j]) else maxSq;
        var d := divergent || Divergent(f, axioms[i], axioms[j]);
        SweepAttains(f, axioms, i, j + 1, m, d);
        if Sweep(f, axioms, i, j + 1, m, d).0 == m && m != maxSq {
          assert AtOrAfter(i, j, i, j) && Measured(f, axioms, i, j);
        }
      }
    }
  }

  /** The whole sweep's flag: some pair of listed axioms conflicts. */
  lemma SweepFindsAnyConflict(f: Field, axioms: seq<string>)
    requires WellShaped(f)
    ensures FullSweep(f, axioms).1 <==> exists p, q :: Conflict(f, axioms, p, q)
  {
    SweepDivergence(f, axioms, 0, 1, 0.0, false);
    assert forall p, q :: Conflict(f, axioms, p, q) ==> AtOrAfter(p, q, 0, 1);
  }

  /** The whole sweep's maximum: the largest gap over all measured pairs, 0 if there are none. */
  lemma SweepFindsLargestGap(f: Field, axioms: seq<string>)
    requires WellShaped(f)
    ensures var r := FullSweep(f, axioms);
      && (forall p, q :: Measured(f, axioms, p, q) ==> Gap(f, axioms[p], axioms[q]) <= r.0)
      && (r.0 == 0.0 || exists p, q :: Measured(f, axioms, p, q) && Gap(f, axioms[p], axioms[q]) == r.0)
  {
    SweepBoundsGaps(f, axioms, 0, 1, 0.0, false);
    SweepAttains(f, axioms, 0, 1, 0.0, false);
    assert forall p, q :: Measured(f, axioms, p, q) ==> AtOrAfter(p, q, 0, 1);
  }

  /** Detection, in terms of the pairs alone: some pair conflicts, and some (possibly other)
      measured pair's gradient gap exceeds epsilon. */
  lemma DetectionCondition(f: Field, axioms: seq<string>, epsilon: real)
    requires WellShaped(f)
    ensures (NormExceeds(FullSweep(f, axioms).0, epsilon) && FullSweep(f, axioms).1) <==>
      (exists p, q :: Conflict(f, axioms, p, q)) &&
      (epsilon < 0.0 || exists p, q :: Measured(f, axioms, p, q) && Gap(f, axioms[p], axioms[q]) > epsilon * epsilon)
  {
    SweepFindsAnyConflict(f, axioms);
    SweepFindsLargestGap(f, axioms);
    assert epsilon * epsilon >= 0.0 by {
      if epsilon < 0.0 {
        assert epsilon * epsilon == (-epsilon) * (-epsilon);
      }
    }
  }

  /** The data guard never hides a divergence: a conflicting pair has two different axioms,
      each with a gradient and a basin. */
  lemma DataGuardLosesNothing(f: Field, axioms: seq<string>)
    requires WellShaped(f)
    requires |Restrict(axioms, f.grads)| < 2 || |Restrict(axioms, f.basins)| < 2
    ensures forall p, q :: !Conflict(f, axioms, p, q)
  {
    forall p, q | Conflict(f, axioms, p, q)
      ensures false
    {
      var a, b := axioms[p], axioms[q];
      assert a != b;
      var g, s := Restrict(axioms, f.grads), Restrict(axioms, f.basins);
      assert {a, b} <= g.Keys && {a, b} <= s.Keys;
      assert |{a, b}| == 2;
      SubsetCardinality({a, b}, g.Keys);
      SubsetCardinality({a, b}, s.Keys);
    }
  }

  lemma SubsetCardinality<T>(a: set<T>, b: set<T>)
    requires a <= b
    ensures |a| <= |b|
  {
    assert b == a + (b - a);
  }
}
