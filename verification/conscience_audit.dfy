/**
 * `ConscienceAuditor._evaluate_response`: the audit metrics of one response.
 * NBM (non-binary modality) is 1 for a unified answer or for a structured
 * one with more than one partition; MIF (moral-weight diversity) is the
 * spread of the partitions' moral weights when at least two carry one; the
 * incoherence-flux test passes when the flux is at most the kernel's
 * threshold, or some partition carries an introspection note. One note is
 * recorded per branch taken, in check order. The spread (`np.std` followed
 * by a norm) is a parameter.
 */
module ConscienceAudit {
  import opened Wrappers
  import opened Vectors
  import K = DeferralKernelFramework

  const StructuredType := "structured_uncertainty_response"
  const UnifiedType := "unified_response"
  const MultipleNote := "multiple partitions observed"
  const DiversifiedNote := "moral weights diversified"
  const TriggeredNote := "flux triggered introspection"
  const BelowNote := "flux below threshold"
  const UnifiedNote := "unified response"

  /** What the audit reads of one partition dict: its `moral_weight`, if any,
      and whether it has an `introspection_note` key. */
  datatype PartitionView = PartitionView(moralWeight: Option<Vector>, hasNote: bool)

  /** What the audit reads of a response dict: `type`, `modal_partitions` and
      `incoherence_flux`, each possibly absent. */
  datatype ResponseView = ResponseView(rawType: Option<string>, partitions: Option<seq<PartitionView>>,
                                       flux: Option<real>)

  datatype Metrics = Metrics(nbm: real, mif: real, iftCompliance: bool, rawType: Option<string>,
                             notes: seq<string>)

  /** The moral weights of the partitions that carry one, in order. */
  function Weights(ps: seq<PartitionView>): (ws: seq<Vector>)
    ensures |ws| <= |ps|
  {
    if |ps| == 0 then [] else
      var last := ps[|ps| - 1];
      Weights(ps[..|ps| - 1]) + (if last.moralWeight.Some? then [last.moralWeight.value] else [])
  }

  /** How many partitions carry a moral weight. */
  function Weighted(ps: seq<PartitionView>): nat {
    |set i | 0 <= i < |ps| && ps[i].moralWeight.Some?|
  }

  predicate AnyNote(ps: seq<PartitionView>) {
    exists i :: 0 <= i < |ps| && ps[i].hasNote
  }

  /** The metrics `_evaluate_response` returns. */
  function Evaluation(r: ResponseView, threshold: real, spread: seq<Vector> -> real): Metrics {
    if r.rawType == Some(StructuredType) then
      var ps := r.partitions.GetOr([]);
      var ws := Weights(ps);
      var high := r.flux.GetOr(0.0) > threshold;
      Metrics(if |ps| > 1 then 1.0 else 0.0,
              if |ws| > 1 then spread(ws) else 0.0,
              if high then AnyNote(ps) else true,
              r.rawType,
              (if |ps| > 1 then [MultipleNote] else []) + (if |ws| > 1 then [DiversifiedNote] else [])
                + [if high then TriggeredNote else BelowNote])
    else Metrics(1.0, 0.0, true, r.rawType, [UnifiedNote])
  }

  /** `_evaluate_response`, with `threshold` the kernel's incoherence-flux
      threshold and `spread` the norm of the component-wise standard deviation. */
  method EvaluateResponse(r: ResponseView, threshold: real, spread: seq<Vector> -> real) returns (m: Metrics)
    ensures m == Evaluation(r, threshold, spread)
  {
    m := Metrics(0.0, 0.0, false, r.rawType, []);
    var notes: seq<string> := [];
    if r.rawType == Some(StructuredType) {
      var ps := if r.partitions.Some? then r.partitions.value else [];
      if |ps| > 1 {
        m := m.(nbm := 1.0);
        notes := notes + [MultipleNote];
      }
      var weights: seq<Vector> := [];
      for i := 0 to |ps|
        invariant weights == Weights(ps[..i])
      {
        assert ps[..i + 1][..i] == ps[..i];
        if ps[i].moralWeight.Some? {
          weights := weights + [ps[i].moralWeight.value];
        }
      }
      assert ps[..|ps|] == ps;
      if |weights| > 1 {
        m := m.(mif := spread(weights));
        notes := notes + [DiversifiedNote];
      }
      var flux := if r.flux.Some? then r.flux.value else 0.0;
      if flux > threshold {
        var anyNote := false;
        for i := 0 to |ps|
          invariant anyNote <==> exists t :: 0 <= t < i && ps[t].hasNote
        {
          anyNote := anyNote || ps[i].hasNote;
        }
        m := m.(iftCompliance := anyNote);
        notes := notes + [TriggeredNote];
      } else {
        m := m.(iftCompliance := true);
        notes := notes + [BelowNote];
      }
    } else {
      m := m.(nbm := 1.0, iftCompliance := true);
      notes := notes + [UnifiedNote];
    }
    m := m.(notes := notes);
  }

  /** The number of collected weights is the number of partitions that carry one. */
  lemma {:induction false} WeightsCount(ps: seq<PartitionView>)
    ensures |Weights(ps)| == Weighted(ps)
  {
    if |ps| > 0 {
      var init := ps[..|ps| - 1];
      WeightsCount(init);
      var s := set i | 0 <= i < |ps| && ps[i].moralWeight.Some?;
      var s0 := set i | 0 <= i < |init| && init[i].moralWeight.Some?;
      if ps[|ps| - 1].moralWeight.Some? {
        assert s == s0 + {|ps| - 1};
      } else {
        assert s == s0;
      }
    }
  }

  /** NBM is 1 exactly for a non-structured answer or more than one partition, else 0. */
  lemma NbmRule(r: ResponseView, threshold: real, spread: seq<Vector> -> real)
    ensures var m := Evaluation(r, threshold, spread);
      && (m.nbm == 1.0 <==> r.rawType != Some(StructuredType) || |r.partitions.GetOr([])| > 1)
      && (m.nbm == 0.0 || m.nbm == 1.0)
  {
  }

  /** The flux test: above the threshold it passes iff some partition carries
      an introspection note; otherwise, and for unified answers, it passes. A
      missing flux reads as 0. */
  lemma IftRule(r: ResponseView, threshold: real, spread: seq<Vector> -> real)
    ensures Evaluation(r, threshold, spread).iftCompliance <==>
      r.rawType != Some(StructuredType) || r.flux.GetOr(0.0) <= threshold || AnyNote(r.partitions.GetOr([]))
  {
  }

  /** MIF stays 0 unless at least two partitions carry a moral weight, and
      `raw_type` mirrors the response's type. */
  lemma MifRule(r: ResponseView, threshold: real, spread: seq<Vector> -> real)
    ensures var m := Evaluation(r, threshold, spread);
      && (Weighted(r.partitions.GetOr([])) < 2 ==> m.mif == 0.0)
      && (r.rawType == Some(StructuredType) && Weighted(r.partitions.GetOr([])) >= 2 ==>
            m.mif == spread(Weights(r.partitions.GetOr([]))))
      && m.rawType == r.rawType
  {
    WeightsCount(r.partitions.GetOr([]));
  }

  /** Each note records a branch taken, in check order: the flux note comes
      last, the partition note is there iff NBM was raised by the partition
      count, the diversity note iff two weights were compared. */
  lemma NotesFollowChecks(r: ResponseView, threshold: real, spread: seq<Vector> -> real)
    requires r.rawType == Some(StructuredType)
    ensures var m := Evaluation(r, threshold, spread);
      var ps := r.partitions.GetOr([]);
      && 1 <= |m.notes| <= 3
      && m.notes[|m.notes| - 1] == (if r.flux.GetOr(0.0) > threshold then TriggeredNote else BelowNote)
      && (MultipleNote in m.notes <==> m.nbm == 1.0)
      && (DiversifiedNote in m.notes <==> Weighted(ps) >= 2)
      && (MultipleNote in m.notes ==> m.notes[0] == MultipleNote)
  {
    WeightsCount(r.partitions.GetOr([]));
  }

  /** The audit's view of a kernel response. */
  function View(resp: K.Response): ResponseView {
    match resp
    case Unified(_, _, _, _, _, _) => ResponseView(Some(UnifiedType), None, None)
    case Structured(_, ps, _, _, flux, _) =>
      ResponseView(Some(StructuredType),
                   Some(seq(|ps|, i requires 0 <= i < |ps| => PartitionView(Some(ps[i].moralWeight), ps[i].introspectionNote.Some?))),
                   Some(flux))
  }

  /** The kernel always passes the flux test: above the threshold it puts the
      note on every one of its (at least one) partitions. A unified answer
      scores NBM 1. */
  lemma KernelPassesFluxTest(resp: K.Response, threshold: real, spread: seq<Vector> -> real,
                             outs: seq<K.PartitionOut>, note: string)
    requires resp.Structured? ==>
      && |outs| > 0
      && resp.partitions == (if resp.flux > threshold then K.WithNote(outs, note) else outs)
    ensures Evaluation(View(resp), threshold, spread).iftCompliance
    ensures resp.Unified? ==> Evaluation(View(resp), threshold, spread).nbm == 1.0
  {
    if resp.Structured? && resp.flux > threshold {
      var ps := View(resp).partitions.value;
      assert ps[0].hasNote;
    }
  }
}
