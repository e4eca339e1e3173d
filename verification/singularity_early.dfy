/**
 * The early-exit `AxiomaticSingularityDetector.detect`: pairs i < j are
 * visited in lexicographic order, pairs with missing data are skipped, the
 * largest gradient gap seen so far is kept, and the scan stops at the first
 * pair whose basin projections differ in sign. Gaps are compared squared.
 */
module SingularityEarly {
  import opened Wrappers
  import opened Vectors
  import opened AxiomPairs

  /** Where a scan ends: the largest squared gap seen and the pair it stopped at, if any. */
  datatype ScanResult = ScanResult(maxSq: real, stop: Option<(nat, nat)>)

  /** The nested loops from pair (i, j) on, with `maxSq` the running maximum. */
  function Scan(f: Field, axioms: seq<string>, i: nat, j: nat, maxSq: real): (r: ScanResult)
    requires WellShaped(f) && i < j
    ensures r.stop.Some? ==> IsPair(|axioms|, r.stop.value.0, r.stop.value.1)
    ensures r.maxSq >= maxSq
    decreases |axioms| - i, |axioms| - j
  {
    if i >= |axioms| then ScanResult(maxSq, None)
    else if j >= |axioms| then Scan(f, axioms, i + 1, i + 2, maxSq)
    else if !Complete(f, axioms[i], axioms[j]) then Scan(f, axioms, i, j + 1, maxSq)
    else
      var m := if Gap(f, axioms[i], axioms[j]) > maxSq then Gap(f, axioms[i], axioms[j]) else maxSq;
      if Divergent(f, axioms[i], axioms[j]) then ScanResult(m, Some((i, j)))
      else Scan(f, axioms, i, j + 1, m)
  }

  /** The whole scan, from pair (0, 1) with maximum 0. */
  function FullScan(f: Field, axioms: seq<string>): (r: ScanResult)
    requires WellShaped(f)
    ensures r.stop.Some? ==> IsPair(|axioms|, r.stop.value.0, r.stop.value.1)
  {
    Scan(f, axioms, 0, 1, 0.0)
  }

  function ConflictNode(a: string, b: string): string {
    "Conflict between '" + a + "' and '" + b + "'"
  }

  /** What `detect` answers: at least two axioms, a stopping pair, and a gap above epsilon. */
  predicate Singular(epsilon: real, f: Field, axioms: seq<string>)
    requires WellShaped(f)
  {
    |axioms| >= 2 && FullScan(f, axioms).stop.Some? && NormExceeds(FullScan(f, axioms).maxSq, epsilon)
  }

  /** The node `detect` reports: the stopping pair's names, if any. */
  function Node(f: Field, axioms: seq<string>): Option<string>
    requires WellShaped(f)
  {
    var r := FullScan(f, axioms);
    if |axioms| >= 2 && r.stop.Some? then Some(ConflictNode(axioms[r.stop.value.0], axioms[r.stop.value.1])) else None
  }

  /** The loops have reached the pair the scan stops at, with its node text. */
  predicate Stopped(f: Field, axioms: seq<string>, maxSq: real, node: Option<string>)
    requires WellShaped(f)
  {
    var r := FullScan(f, axioms);
    r.stop.Some? && r.maxSq == maxSq && node == Some(ConflictNode(axioms[r.stop.value.0], axioms[r.stop.value.1]))
  }

  class AxiomaticSingularityDetector {
    const epsilon: real
    var gradientField: map<string, Vector>
    var attractorBasins: map<string, Vector>

    constructor(epsilonAxiom: real)
      ensures epsilon == epsilonAxiom
    {
      epsilon := epsilonAxiom;
      gradientField := map[];
      attractorBasins := map[];
    }

    /** `detect`: stores the field, then scans as `FullScan` says; singular iff the
        scan stopped at a divergent pair and the largest gap seen exceeds epsilon. */
    method Detect(latent: Vector, grads: map<string, Vector>, basins: map<string, Vector>, axioms: seq<string>)
      returns (singular: bool, node: Option<string>)
      requires WellShaped(Field(latent, grads, basins))
      modifies this
      ensures gradientField == grads && attractorBasins == basins
      ensures |axioms| < 2 ==> !singular && node == None
      ensures |axioms| >= 2 ==>
        var r := FullScan(Field(latent, grads, basins), axioms);
        && singular == (r.stop.Some? && NormExceeds(r.maxSq, epsilon))
        && node == (if r.stop.Some? then Some(ConflictNode(axioms[r.stop.value.0], axioms[r.stop.value.1])) else None)
      ensures singular == Singular(epsilon, Field(latent, grads, basins), axioms)
      ensures node == Node(Field(latent, grads, basins), axioms)
    {
      gradientField := grads;
      attractorBasins := basins;
      if |axioms| < 2 {
        return false, None;
      }
      var f := Field(latent, grads, basins);
      var maxSq := 0.0;
      var divergent := false;
      node := None;
      var i := 0;
      while i < |axioms|
        invariant 0 <= i <= |axioms|
        invariant !divergent ==> node == None && Scan(f, axioms, i, i + 1, maxSq) == FullScan(f, axioms)
        invariant divergent ==> Stopped(f, axioms, maxSq, node)
        decreases |axioms| - i, if divergent then 0 else 1
      {
        if divergent {
          break;
        }
        var j := i + 1;
        while j < |axioms|
          invariant i + 1 <= j <= |axioms|
          invariant !divergent ==> node == None && Scan(f, axioms, i, j, maxSq) == FullScan(f, axioms)
          invariant divergent ==> Stopped(f, axioms, maxSq, node)
          decreases |axioms| - j, if divergent then 0 else 1
        {
          if divergent {
            break;
          }
          var a, b := axioms[i], axioms[j];
          if a in grads && b in grads && a in basins && b in basins {
            var diff := SqDist(grads[a], grads[b]);
            if diff > maxSq {
              maxSq := diff;
            }
            if Sign(Dot(latent, basins[a])) != Sign(Dot(latent, basins[b])) {
              divergent := true;
              node := Some(ConflictNode(a, b));
            }
          }
          if !divergent {
            j := j + 1;
          }
        }
        if !divergent {
          i := i + 1;
        }
      }
      singular := NormExceeds(maxSq, epsilon) && divergent;
    }
  }

  // ---------------------------------------------------------------------
  // What the scan finds.

  /** (p, q) lies between (i, j) and the stopping pair, both included. */
  predicate InWindow(p: int, q: int, i: int, j: int, stop: Option<(nat, nat)>) {
    AtOrAfter(p, q, i, j) && (stop.None? || !Before(stop.value.0, stop.value.1, p, q))
  }

  /** From (i, j) on, the scan stops at the first conflicting pair, and only if there is one. */
  lemma {:induction false} ScanStopsAtFirstConflict(f: Field, axioms: seq<string>, i: nat, j: nat, maxSq: real)
    requires WellShaped(f) && i < j
    ensures var r := Scan(f, axioms, i, j, maxSq);
      && (r.stop.None? <==> forall p, q :: AtOrAfter(p, q, i, j) ==> !Conflict(f, axioms, p, q))
      && (r.stop.Some? ==>
            && AtOrAfter(r.stop.value.0, r.stop.value.1, i, j)
            && Conflict(f, axioms, r.stop.value.0, r.stop.value.1)
            && forall p, q :: AtOrAfter(p, q, i, j) && Before(p, q, r.stop.value.0, r.stop.value.1)
                              ==> !Conflict(f, axioms, p, q))
    decreases |axioms| - i, |axioms| - j
  {
    if i >= |axioms| {
    } else if j >= |axioms| {
      ScanStopsAtFirstConflict(f, axioms, i + 1, i + 2, maxSq);
    } else if !Complete(f, axioms[i], axioms[j]) {
      ScanStopsAtFirstConflict(f, axioms, i, j + 1, maxSq);
    } else {
      var m := if Gap(f, axioms[i], axioms[j]) > maxSq then Gap(f, axioms[i], axioms[j]) else maxSq;
      if !Divergent(f, axioms[i], axioms[j]) {
        ScanStopsAtFirstConflict(f, axioms, i, j + 1, m);
        assert !Conflict(f, axioms, i, j);
        assert forall p, q :: AtOrAfter(p, q, i, j) ==> (p == i && q == j) || AtOrAfter(p, q, i, j + 1);
      } else {
        assert Conflict(f, axioms, i, j);
      }
    }
  }

  /** From (i, j) on, the final maximum bounds the gap of every measured pair up to the
      stopping pair. */
  lemma {:induction false} ScanBoundsGaps(f: Field, axioms: seq<string>, i: nat, j: nat, maxSq: real)
    requires WellShaped(f) && i < j
    ensures var r := Scan(f, axioms, i, j, maxSq);
      forall p, q :: InWindow(p, q, i, j, r.stop) && Measured(f, axioms, p, q)
                     ==> Gap(f, axioms[p], axioms[q]) <= r.maxSq
    decreases |axioms| - i, |axioms| - j
  {
    if i >= |axioms| {
    } else if j >= |axioms| {
      ScanBoundsGaps(f, axioms, i + 1, i + 2, maxSq);
    } else {
      assert forall p, q :: AtOrAfter(p, q, i, j) ==> (p == i && q == j) || AtOrAfter(p, q, i, j + 1);
      if !Complete(f, axioms[i], axioms[j]) {
        ScanBoundsGaps(f, axioms, i, j + 1, maxSq);
      } else {
        var m := if Gap(f, axioms[i], axioms[j]) > maxSq then Gap(f, axioms[i], axioms[j]) else maxSq;
        if !Divergent(f, axioms[i], axioms[j]) {
          ScanBoundsGaps(f, axioms, i, j + 1, m);
        } else {
          assert forall p, q :: InWindow(p, q, i, j, Some((i, j))) ==> p == i && q == j;
        }
      }
    }
  }

  /** From (i, j) on, the final maximum is the starting one or the gap of a measured pair
      up to the stopping pair. */
  lemma {:induction false} ScanAttains(f: Field, axioms: seq<string>, i: nat, j: nat, maxSq: real)
    requires WellShaped(f) && i < j
    ensures var r := Scan(f, axioms, i, j, maxSq);
      r.maxSq == maxSq || exists p, q :: InWindow(p, q, i, j, r.stop) && Measured(f, axioms, p, q)
                                         && Gap(f, axioms[p], axioms[q]) == r.maxSq
    decreases |axioms| - i, |axioms| - j
  {
    if i >= |axioms| {
    } else if j >= |axioms| {
      ScanAttains(f, axioms, i + 1, i + 2, maxSq);
    } else if !Complete(f, axioms[i], axioms[j]) {
      ScanAttains(f, axioms, i, j + 1, maxSq);
    } else {
      var m := if Gap(f, axioms[i], axioms[j]) > maxSq then Gap(f, axioms[i], axioms[j]) else maxSq;
      if !Divergent(f, axioms[i], axioms[j]) {
        ScanAttains(f, axioms, i, j + 1, m);
        var r := Scan(f, axioms, i, j + 1, m);
        if r.maxSq == m && m != maxSq {
          ScanStopsAtFirstConflict(f, axioms, i, j + 1, m);
          assert InWindow(i, j, i, j, r.stop) && Measured(f, axioms, i, j);
        }
      } else {
        if m != maxSq {
          assert InWindow(i, j, i, j, Some((i, j))) && Measured(f, axioms, i, j);
        }
      }
    }
  }

  /** Over the whole scan: no node iff no pair conflicts; otherwise the node names the
      lexicographically first conflicting pair. */
  lemma DetectFindsFirstConflict(f: Field, axioms: seq<string>)
    requires WellShaped(f)
    ensures FullScan(f, axioms).stop.None? <==> forall p, q :: !Conflict(f, axioms, p, q)
    ensures FullScan(f, axioms).stop.Some? ==>
      var (p, q) := FullScan(f, axioms).stop.value;
      && Conflict(f, axioms, p, q)
      && forall p2, q2 :: Before(p2, q2, p, q) ==> !Conflict(f, axioms, p2, q2)
  {
    ScanStopsAtFirstConflict(f, axioms, 0, 1, 0.0);
  }

  /** Over the whole scan, the maximum is the largest measured gap among the pairs
      visited up to and including the stopping pair (0 when there is none). */
  lemma DetectMaximum(f: Field, axioms: seq<string>)
    requires WellShaped(f)
    ensures var r := FullScan(f, axioms);
      && (forall p, q :: InWindow(p, q, 0, 1, r.stop) && Measured(f, axioms, p, q)
                         ==> Gap(f, axioms[p], axioms[q]) <= r.maxSq)
      && (r.maxSq == 0.0 || exists p, q :: InWindow(p, q, 0, 1, r.stop) && Measured(f, axioms, p, q)
                                          && Gap(f, axioms[p], axioms[q]) == r.maxSq)
  {
    ScanBoundsGaps(f, axioms, 0, 1, 0.0);
    ScanAttains(f, axioms, 0, 1, 0.0);
  }

  /** A node can be reported without a singularity: opposite projections, equal gradients. */
  lemma NodeWithoutSingularity()
    ensures var f := Field([1.0], map["a" := [0.0], "b" := [0.0]], map["a" := [1.0], "b" := [-1.0]]);
      && WellShaped(f)
      && FullScan(f, ["a", "b"]) == ScanResult(0.0, Some((0, 1)))
      && !NormExceeds(FullScan(f, ["a", "b"]).maxSq, 0.1)
  {
    var f := Field([1.0], map["a" := [0.0], "b" := [0.0]], map["a" := [1.0], "b" := [-1.0]]);
    assert Dot(f.latent, f.basins["a"]) == 1.0;
    assert Dot(f.latent, f.basins["b"]) == -1.0;
    assert Gap(f, "a", "b") == 0.0;
  }
}
