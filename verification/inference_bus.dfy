/**
 * The `ResonantInferenceBus`: an insertion-ordered registry of Modal Cortex
 * Units (MCUs) keyed by unit id, routing of one latent vector to all or to
 * selected units, and the pairwise confidence-divergence map of their replies.
 * A unit is seen through its two calls, each of which may raise.
 */
module InferenceBus {
  import opened Wrappers
  import opened Vectors
  import opened OrderedDict

  /** What a unit's `infer` returns, reduced to what the bus reads, or the
      `{"error": msg}` entry the bus records when the unit raises. */
  datatype Reply = Inferred(decodedOutput: string, confidence: Option<real>) | Errored(message: string)

  /** A registered unit: `get_latent_manifold_representation` is `view`,
      `infer` is `infer`; a `Failure` is the exception's message. */
  datatype Mcu = Mcu(unitId: string, context: string,
                     view: Vector -> Result<Vector, string>,
                     infer: Vector -> Result<Reply, string>)

  /** The reply the bus stores for one unit. */
  function ReplyOf(m: Mcu, latent: Vector): (r: Reply)
    ensures m.view(latent).Failure? ==> r == Errored(m.view(latent).error)
  {
    match m.view(latent)
    case Failure(e) => Errored(e)
    case Success(v) =>
      match m.infer(v)
      case Success(r) => r
      case Failure(e) => Errored(e)
  }

  /** The units named by `targets` that are registered, keyed by id in the
      order of their first mention. */
  function Selected(units: Dict<Mcu>, targets: seq<string>): Dict<Mcu> {
    if |targets| == 0 then [] else
      var prev := Selected(units, targets[..|targets| - 1]);
      var id := targets[|targets| - 1];
      match Get(units, id)
      case Some(m) => Put(prev, id, m)
      case None => prev
  }

  /** The units a call routes to: the selection for a non-empty target list,
      every registered unit for `None` or `[]`. */
  function Routed(units: Dict<Mcu>, targets: Option<seq<string>>): Dict<Mcu> {
    if targets.Some? && |targets.value| > 0 then Selected(units, targets.value) else units
  }

  function Replies(routed: Dict<Mcu>, latent: Vector): (rs: Dict<Reply>)
    ensures Keys(rs) == Keys(routed)
  {
    seq(|routed|, i requires 0 <= i < |routed| => (routed[i].0, ReplyOf(routed[i].1, latent)))
  }

  /** The dict `route_inference` returns. */
  function Route(units: Dict<Mcu>, latent: Vector, targets: Option<seq<string>>): Dict<Reply> {
    if |units| == 0 then [] else Replies(Routed(units, targets), latent)
  }

  /** `res.get('confidence', 0.0)`: an error entry has no confidence. */
  function Confidence(r: Reply): real {
    if r.Inferred? && r.confidence.Some? then r.confidence.value else 0.0
  }

  function PairKey(a: string, b: string): string {
    a + "_vs_" + b
  }

  /** The entry for the pair of positions `i < j`. */
  function PairEntry(results: Dict<Reply>, i: nat, j: nat): (string, real)
    requires i < j < |results|
  {
    (PairKey(results[i].0, results[j].0), Abs(Confidence(results[i].1) - Confidence(results[j].1)))
  }

  /** The entries for row `i`: partners `i+1 .. n-1`, in order. */
  function Row(results: Dict<Reply>, i: nat): (row: seq<(string, real)>)
    requires i < |results|
    ensures |row| == |results| - 1 - i
  {
    seq(|results| - 1 - i, k requires 0 <= k < |results| - 1 - i => PairEntry(results, i, i + 1 + k))
  }

  /** The entries of rows `0 .. i-1`, in the order the nested loops reach them. */
  function PairsBefore(results: Dict<Reply>, i: nat): seq<(string, real)>
    requires i <= |results|
  {
    if i == 0 then [] else PairsBefore(results, i - 1) + Row(results, i - 1)
  }

  function Pairs(results: Dict<Reply>): seq<(string, real)> {
    PairsBefore(results, |results|)
  }

  /** The dict `inspect_logit_divergence` returns: every pair entry assigned in
      loop order, a later pair overwriting an earlier one with the same key. */
  function Divergences(results: Dict<Reply>): Dict<real> {
    PutAll([], Pairs(results))
  }

  /** The loop of `route_inference` that picks the registered targets. */
  method Select(units: Dict<Mcu>, ts: seq<string>) returns (toRoute: Dict<Mcu>)
    ensures toRoute == Selected(units, ts)
  {
    toRoute := [];
    for t := 0 to |ts|
      invariant toRoute == Selected(units, ts[..t])
    {
      assert ts[..t + 1][..t] == ts[..t];
      var found := Get(units, ts[t]);
      if found.Some? {
        toRoute := Put(toRoute, ts[t], found.value);
      }
    }
    assert ts[..|ts|] == ts;
  }

  /** The loop of `route_inference` that asks every routed unit in turn; the
      ids are distinct, so each reply is a new entry. */
  method ReplyEach(toRoute: Dict<Mcu>, latent: Vector) returns (results: Dict<Reply>)
    requires DistinctKeys(toRoute)
    ensures results == Replies(toRoute, latent)
  {
    results := [];
    for i := 0 to |toRoute|
      invariant results == Replies(toRoute[..i], latent)
    {
      var m := toRoute[i].1;
      var reply: Reply;
      var v := m.view(latent);
      if v.Failure? {
        reply := Errored(v.error);
      } else {
        var r := m.infer(v.value);
        reply := if r.Success? then r.value else Errored(r.error);
      }
      assert Find(results, toRoute[i].0).None? by {
        assert forall t :: 0 <= t < i ==> results[t].0 == toRoute[t].0;
      }
      results := Put(results, toRoute[i].0, reply);
    }
    assert toRoute[..|toRoute|] == toRoute;
  }

  class ResonantInferenceBus {
    var units: Dict<Mcu>

    /** Each unit is filed under its own id, and no id twice. */
    ghost predicate Valid()
      reads this
    {
      && DistinctKeys(units)
      && forall i :: 0 <= i < |units| ==> units[i].0 == units[i].1.unitId
    }

    constructor()
      ensures Valid() && units == []
    {
      units := [];
    }

    /** `register_mcu`: `_connected_mcud[unit_id] = mcu`, replacing a unit with
        the same id in place or appending a new one. */
    method RegisterMcu(m: Mcu)
      requires Valid()
      modifies this
      ensures Valid()
      ensures units == Put(old(units), m.unitId, m)
    {
      PutDistinct(units, m.unitId, m);
      units := Put(units, m.unitId, m);
    }

    /** `route_inference`: nothing when no unit is registered; otherwise one
        reply per routed unit, in routing order, an error entry for a unit that raises. */
    method RouteInference(latent: Vector, targets: Option<seq<string>>) returns (results: Dict<Reply>)
      requires Valid()
      ensures results == Route(units, latent, targets)
    {
      if |units| == 0 {
        return [];
      }
      var toRoute: Dict<Mcu>;
      if targets.Some? && |targets.value| > 0 {
        toRoute := Select(units, targets.value);
        SelectedFacts(units, targets.value);
      } else {
        toRoute := units;
      }
      results := ReplyEach(toRoute, latent);
    }

    /** `inspect_logit_divergence`: the nested loops over positions, pairs with
        `i >= j` skipped. */
    method InspectLogitDivergence(results: Dict<Reply>) returns (scores: Dict<real>)
      ensures scores == Divergences(results)
    {
      var n := |results|;
      scores := [];
      for i := 0 to n
        invariant scores == PutAll([], PairsBefore(results, i))
      {
        ghost var before := PairsBefore(results, i);
        ghost var row := Row(results, i);
        assert before + row[..0] == before;
        for j := 0 to n
          invariant scores == PutAll([], before + row[..if j <= i + 1 then 0 else j - i - 1])
        {
          if i >= j {
            continue;
          }
          var key := PairKey(results[i].0, results[j].0);
          var divergence := Abs(Confidence(results[i].1) - Confidence(results[j].1));
          RowStep(results, i, j, before, scores);
          scores := Put(scores, key, divergence);
        }
        assert row[..n - i - 1] == row;
      }
    }
  }

  /** The assignment for the pair `(i, j)` is the next entry of row `i`. */
  lemma RowStep(results: Dict<Reply>, i: nat, j: nat, before: seq<(string, real)>, scores: Dict<real>)
    requires i < j < |results|
    requires scores == PutAll([], before + Row(results, i)[..if j <= i + 1 then 0 else j - i - 1])
    ensures Put(scores, PairKey(results[i].0, results[j].0), Abs(Confidence(results[i].1) - Confidence(results[j].1)))
      == PutAll([], before + Row(results, i)[..j - i])
  {
    var row := Row(results, i);
    assert row[j - i - 1] == PairEntry(results, i, j);
    PutAllStep(before, row, j - i - 1);
  }

  /** One more assignment in the inner loop extends the assigned prefix of the row by one. */
  lemma PutAllStep<V>(before: seq<(string, V)>, row: seq<(string, V)>, c: nat)
    requires c < |row|
    ensures PutAll([], before + row[..c + 1]) == Put(PutAll([], before + row[..c]), row[c].0, row[c].1)
  {
    assert (before + row[..c + 1])[..|before + row[..c + 1]| - 1] == before + row[..c];
  }

  /** The selection holds exactly the mentioned ids that are registered, once
      each, with the registered unit. */
  lemma {:induction false} SelectedFacts(units: Dict<Mcu>, targets: seq<string>)
    ensures DistinctKeys(Selected(units, targets))
    ensures forall k :: k in Keys(Selected(units, targets)) <==> k in targets && Get(units, k).Some?
    ensures forall k :: k in Keys(Selected(units, targets)) ==> Get(Selected(units, targets), k) == Get(units, k)
  {
    if |targets| > 0 {
      var init := targets[..|targets| - 1];
      var id := targets[|targets| - 1];
      var prev := Selected(units, init);
      SelectedFacts(units, init);
      assert targets == init + [id];
      match Get(units, id)
      case Some(m) =>
        PutDistinct(prev, id, m);
        PutKeys(prev, id, m);
        PutGet(prev, id, m);
        forall k | k != id
          ensures Get(Put(prev, id, m), k) == Get(prev, k)
        {
          PutOther(prev, id, m, k);
        }
      case None =>
    }
  }

  /** `route_inference` replies for exactly the routed ids: with a non-empty
      target list, the registered targets; with `None` or `[]`, every
      registered unit; with nothing registered, none at all. */
  lemma RouteKeys(units: Dict<Mcu>, latent: Vector, targets: Option<seq<string>>, k: string)
    ensures k in Keys(Route(units, latent, targets)) <==>
      Get(units, k).Some? && (targets.None? || |targets.value| == 0 || k in targets.value)
  {
    if targets.Some? && |targets.value| > 0 {
      SelectedFacts(units, targets.value);
    }
    assert Get(units, k).Some? <==> k in Keys(units);
  }

  /** Each routed unit's entry is its own reply: the inference result, or an
      error entry with the message when either call raises. */
  lemma RouteReplies(units: Dict<Mcu>, latent: Vector, targets: Option<seq<string>>, i: nat)
    requires DistinctKeys(units)
    requires i < |Route(units, latent, targets)|
    ensures var r := Route(units, latent, targets);
      && Get(units, r[i].0).Some?
      && r[i].1 == ReplyOf(Get(units, r[i].0).value, latent)
  {
    var routed := Routed(units, targets);
    if targets.Some? && |targets.value| > 0 {
      SelectedFacts(units, targets.value);
      assert routed[i].0 in Keys(routed);
    }
    assert Find(routed, routed[i].0) == Some(i);
    assert Find(units, routed[i].0).Some?;
  }

  /** Every reply is keyed once: the dict never lost an entry to a duplicate key. */
  lemma RouteDistinct(units: Dict<Mcu>, latent: Vector, targets: Option<seq<string>>)
    requires DistinctKeys(units)
    ensures DistinctKeys(Route(units, latent, targets))
  {
    if targets.Some? && |targets.value| > 0 {
      SelectedFacts(units, targets.value);
    }
    var r := Route(units, latent, targets);
    assert forall i :: 0 <= i < |r| ==> r[i].0 == Keys(r)[i];
  }

  /** Row `i` starts at offset `|PairsBefore(results, i)|` in every later prefix. */
  lemma {:induction false} PairsPrefix(results: Dict<Reply>, i: nat, m: nat)
    requires i <= m <= |results|
    ensures |PairsBefore(results, i)| <= |PairsBefore(results, m)|
    ensures PairsBefore(results, m)[..|PairsBefore(results, i)|] == PairsBefore(results, i)
  {
    if i < m {
      PairsPrefix(results, i, m - 1);
    }
  }

  /** Twice the number of pairs in the first `i` rows is `i * (2n - i - 1)`. */
  lemma {:induction false} PairsBeforeCount(results: Dict<Reply>, i: nat)
    requires i <= |results|
    ensures 2 * |PairsBefore(results, i)| == i * (2 * |results| - i - 1)
  {
    if i > 0 {
      PairsBeforeCount(results, i - 1);
      var n := |results|;
      assert (i - 1) * (2 * n - (i - 1) - 1) + 2 * (n - 1 - (i - 1)) == i * (2 * n - i - 1);
    }
  }

  /** The pair `(a, b)`, `a < b`, sits at offset `|PairsBefore(a)| + b - a - 1`. */
  lemma PairAt(results: Dict<Reply>, a: nat, b: nat)
    requires a < b < |results|
    ensures |PairsBefore(results, a)| + b - a - 1 < |Pairs(results)|
    ensures Pairs(results)[|PairsBefore(results, a)| + b - a - 1] == PairEntry(results, a, b)
  {
    PairsPrefix(results, a + 1, |results|);
    var before := PairsBefore(results, a);
    assert PairsBefore(results, a + 1) == before + Row(results, a);
    assert PairsBefore(results, a + 1)[|before| + b - a - 1] == Row(results, a)[b - a - 1];
  }

  /** Every pair entry is a non-negative divergence between two replies. */
  lemma {:induction false} PairsNonNegative(results: Dict<Reply>, i: nat)
    requires i <= |results|
    ensures forall e :: e in PairsBefore(results, i) ==> e.1 >= 0.0
  {
    if i > 0 {
      PairsNonNegative(results, i - 1);
      var row := Row(results, i - 1);
      forall k | 0 <= k < |row|
        ensures row[k].1 >= 0.0
      {
        assert row[k] == PairEntry(results, i - 1, i + k);
      }
    }
  }

  /** Every divergence in the returned dict is `|conf_a - conf_b| >= 0`, and
      the dict never has more than `n(n-1)/2` entries. */
  lemma DivergencesBounds(results: Dict<Reply>)
    ensures forall i :: 0 <= i < |Divergences(results)| ==> Divergences(results)[i].1 >= 0.0
    ensures 2 * |Divergences(results)| <= |results| * (|results| - 1)
  {
    PairsNonNegative(results, |results|);
    forall i | 0 <= i < |Divergences(results)|
      ensures Divergences(results)[i].1 >= 0.0
    {
      PutAllFrom(Pairs(results), i);
    }
    PutAllSize(Pairs(results));
    PairsBeforeCount(results, |results|);
  }

  /** When no two pairs produce the same "a_vs_b" key, the dict has exactly
      `n(n-1)/2` entries and holds `|conf_a - conf_b|` under the key of every
      pair of positions `a < b`. */
  lemma DivergencesOfEveryPair(results: Dict<Reply>, a: nat, b: nat)
    requires DistinctKeys(Pairs(results))
    requires a < b < |results|
    ensures 2 * |Divergences(results)| == |results| * (|results| - 1)
    ensures Get(Divergences(results), PairKey(results[a].0, results[b].0))
      == Some(Abs(Confidence(results[a].1) - Confidence(results[b].1)))
  {
    PutAllFresh(Pairs(results));
    PairsBeforeCount(results, |results|);
    PairAt(results, a, b);
    var idx := |PairsBefore(results, a)| + b - a - 1;
    assert Find(Pairs(results), PairKey(results[a].0, results[b].0)) == Some(idx);
  }

  /** Ids that themselves contain "_vs_" can make two pairs share a key, and
      then the later pair overwrites the earlier one: "a" with "vs_b" and
      "a_vs" with "b" both give "a_vs_vs_b". */
  lemma PairKeysCanCollide(r: Reply)
    ensures var results := [("a", r), ("a_vs", r), ("vs_b", r), ("b", r)];
      !DistinctKeys(Pairs(results))
  {
    var results := [("a", r), ("a_vs", r), ("vs_b", r), ("b", r)];
    PairAt(results, 0, 2);
    PairAt(results, 1, 3);
    assert PairsBefore(results, 0) == [];
    assert |PairsBefore(results, 1)| == 3;
    assert Pairs(results)[1].0 == Pairs(results)[4].0;
  }
}
