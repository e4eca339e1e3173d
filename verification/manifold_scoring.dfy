/**
 * The shared shape of every ethical manifold's `evaluate_principle`: a fixed
 * list of keyword groups is tested, in order, against the lower-cased
 * principle; each group whose keywords occur adds its delta (in tenths) once
 * and appends its reasoning line; the final score picks one of three bands.
 */
module ManifoldScoring {
  import opened Text

  /** One `if <kw> in principle.lower() or ...:` block of a scorer. */
  datatype Group = Group(keywords: seq<string>, delta: int, reason: string)

  /** A manifold: its constructor name, the phrase its summary opens with
      ("From a Kantian perspective") and its keyword groups in source order. */
  datatype Manifold = Manifold(name: string, perspective: string, groups: seq<Group>)

  /** The dictionary an evaluation returns; `score` is the alignment score in tenths. */
  datatype Assessment = Assessment(manifold: string, score: int, reasoning: seq<string>, summary: string)

  /** The band thresholds 0.6 and 0.3, in tenths. */
  const HighlyAligned: int := 6
  const ModeratelyAligned: int := 3

  predicate GroupMatches(lowered: string, g: Group) {
    ContainsAny(lowered, g.keywords)
  }

  /** Score and reasoning accumulated over `groups`, left to right. */
  function Accumulate(lowered: string, groups: seq<Group>): (r: (int, seq<string>))
    ensures |r.1| <= |groups|
  {
    if |groups| == 0 then (0, [])
    else
      var rest := Accumulate(lowered, groups[1..]);
      if GroupMatches(lowered, groups[0]) then (groups[0].delta + rest.0, [groups[0].reason] + rest.1)
      else rest
  }

  /** The band word of a score. */
  function Band(score: int): (r: string)
    ensures r == "highly aligned" <==> score >= HighlyAligned
    ensures r == "moderately aligned" <==> ModeratelyAligned <= score < HighlyAligned
    ensures r == "less aligned" <==> score < ModeratelyAligned
  {
    if score >= HighlyAligned then "highly aligned"
    else if score >= ModeratelyAligned then "moderately aligned"
    else "less aligned"
  }

  function Summary(m: Manifold, score: int): string {
    m.perspective + ", this principle is " + Band(score) + "."
  }

  /** `evaluate_principle(principle, context)`; the context is never read, so it is not a parameter. */
  function Evaluate(m: Manifold, principle: string): (a: Assessment)
    ensures a.manifold == m.name
    ensures a.summary == Summary(m, a.score)
    ensures |a.reasoning| <= |m.groups|
  {
    var acc := Accumulate(Lower(principle), m.groups);
    Assessment(m.name, acc.0, acc.1, Summary(m, acc.0))
  }

  // ---------------------------------------------------------------------
  // Reference definitions: which groups matched, and the extreme sums.

  /** The groups that match, in source order. */
  function Matched(lowered: string, groups: seq<Group>): seq<Group> {
    if |groups| == 0 then []
    else if GroupMatches(lowered, groups[0]) then [groups[0]] + Matched(lowered, groups[1..])
    else Matched(lowered, groups[1..])
  }

  function DeltaSum(groups: seq<Group>): int {
    if |groups| == 0 then 0 else groups[0].delta + DeltaSum(groups[1..])
  }

  function Reasons(groups: seq<Group>): (r: seq<string>)
    ensures |r| == |groups| && forall k :: 0 <= k < |groups| ==> r[k] == groups[k].reason
  {
    if |groups| == 0 then [] else [groups[0].reason] + Reasons(groups[1..])
  }

  /** Sum of the positive deltas: the largest score a scorer can reach. */
  function PositiveSum(groups: seq<Group>): int {
    if |groups| == 0 then 0
    else (if groups[0].delta > 0 then groups[0].delta else 0) + PositiveSum(groups[1..])
  }

  /** Sum of the negative deltas: the smallest score a scorer can reach. */
  function NegativeSum(groups: seq<Group>): int {
    if |groups| == 0 then 0
    else (if groups[0].delta < 0 then groups[0].delta else 0) + NegativeSum(groups[1..])
  }

  // ---------------------------------------------------------------------
  // Properties shared by every scorer.

  /** The score is the sum of the deltas of the matched groups, each counted once,
      and the reasoning lists exactly their reasons, in source order. */
  lemma {:induction false} AccumulateIsMatched(lowered: string, groups: seq<Group>)
    ensures Accumulate(lowered, groups).0 == DeltaSum(Matched(lowered, groups))
    ensures Accumulate(lowered, groups).1 == Reasons(Matched(lowered, groups))
  {
    if |groups| > 0 {
      AccumulateIsMatched(lowered, groups[1..]);
    }
  }

  /** The matched groups form a subsequence of the scorer's groups: each group at most once. */
  lemma {:induction false} MatchedSubsequence(lowered: string, groups: seq<Group>)
    ensures |Matched(lowered, groups)| <= |groups|
    ensures forall g :: g in Matched(lowered, groups) <==> g in groups && GroupMatches(lowered, g)
  {
    if |groups| > 0 {
      MatchedSubsequence(lowered, groups[1..]);
    }
  }

  /** The score lies between the sum of the negative deltas and the sum of the positive ones. */
  lemma {:induction false} ScoreBounds(lowered: string, groups: seq<Group>)
    ensures NegativeSum(groups) <= Accumulate(lowered, groups).0 <= PositiveSum(groups)
  {
    if |groups| > 0 {
      ScoreBounds(lowered, groups[1..]);
    }
  }

  /** Matching is case-insensitive: a principle and its lower-cased form are assessed alike. */
  lemma CaseInsensitive(m: Manifold, principle: string)
    ensures Evaluate(m, principle) == Evaluate(m, Lower(principle))
  {
    LowerIdempotent(principle);
  }

  /** Only which groups match matters, not how many of a group's keywords occur. */
  lemma {:induction false} SameGroupsSameAccumulate(l1: string, l2: string, groups: seq<Group>)
    requires forall g :: g in groups ==> (GroupMatches(l1, g) <==> GroupMatches(l2, g))
    ensures Accumulate(l1, groups) == Accumulate(l2, groups)
  {
    if |groups| > 0 {
      SameGroupsSameAccumulate(l1, l2, groups[1..]);
    }
  }

  lemma SameGroupsSameAssessment(m: Manifold, p1: string, p2: string)
    requires forall g :: g in m.groups ==> (GroupMatches(Lower(p1), g) <==> GroupMatches(Lower(p2), g))
    ensures Evaluate(m, p1) == Evaluate(m, p2)
  {
    SameGroupsSameAccumulate(Lower(p1), Lower(p2), m.groups);
  }

  /** A principle with none of the keywords scores 0, gives no reasoning, and is "less aligned". */
  lemma {:induction false} NoKeywordsAccumulate(lowered: string, groups: seq<Group>)
    requires forall i :: 0 <= i < |groups| ==> !GroupMatches(lowered, groups[i])
    ensures Accumulate(lowered, groups) == (0, [])
  {
    if |groups| > 0 {
      NoKeywordsAccumulate(lowered, groups[1..]);
    }
  }

  lemma NoKeywordsNeutral(m: Manifold, principle: string)
    requires forall g :: g in m.groups ==> !GroupMatches(Lower(principle), g)
    ensures Evaluate(m, principle).score == 0
    ensures Evaluate(m, principle).reasoning == []
    ensures Evaluate(m, principle).summary == m.perspective + ", this principle is less aligned."
  {
    NoKeywordsAccumulate(Lower(principle), m.groups);
  }

  /** When exactly the group at index `k` matches, the score is that group's delta and
      its reason is the only reasoning line, however many of its keywords occur. */
  lemma {:induction false} OnlyGroupAccumulate(lowered: string, groups: seq<Group>, k: nat)
    requires k < |groups| && GroupMatches(lowered, groups[k])
    requires forall i :: 0 <= i < |groups| && i != k ==> !GroupMatches(lowered, groups[i])
    ensures Accumulate(lowered, groups) == (groups[k].delta, [groups[k].reason])
  {
    if k == 0 {
      assert forall i :: 0 <= i < |groups[1..]| ==> groups[1..][i] == groups[i + 1];
      NoKeywordsAccumulate(lowered, groups[1..]);
      assert [groups[0].reason] + [] == [groups[0].reason];
    } else {
      OnlyGroupAccumulate(lowered, groups[1..], k - 1);
    }
  }

  /** With no penalising group matched, the score is at least the first group's
      delta when that group matches, and its reason opens the reasoning. */
  lemma {:induction false} NoPenaltyNonNegative(lowered: string, groups: seq<Group>)
    requires forall i :: 0 <= i < |groups| && groups[i].delta < 0 ==> !GroupMatches(lowered, groups[i])
    ensures Accumulate(lowered, groups).0 >= 0
  {
    if |groups| > 0 {
      NoPenaltyNonNegative(lowered, groups[1..]);
    }
  }

  lemma FirstGroupLeads(lowered: string, groups: seq<Group>)
    requires |groups| > 0 && GroupMatches(lowered, groups[0])
    requires forall i :: 0 <= i < |groups| && groups[i].delta < 0 ==> !GroupMatches(lowered, groups[i])
    ensures Accumulate(lowered, groups).0 >= groups[0].delta
    ensures |Accumulate(lowered, groups).1| > 0 && Accumulate(lowered, groups).1[0] == groups[0].reason
  {
    NoPenaltyNonNegative(lowered, groups[1..]);
  }
}
