/**
 * The `AxiomSystem` of the `axiom_core` package. A query is classified by
 * semantic entropy (0.9 for contradiction words, 0.7 for dilemma words, a
 * random draw in [0, 0.4] otherwise); above 0.5 the answer is a structured
 * uncertainty with damped confidence, flags and two interpretations, and the
 * telemetry reads 0.78/0.82 instead of 0.35/0.25. Every inference appends one
 * reflection trail. The random draw, the measured introspection time and the
 * clock readings of the trail are parameters.
 */
module AxiomSystemCore {
  import opened Wrappers
  import opened Text
  import opened MetaConstraints
  import opened Telemetry
  import opened ManifoldScoring
  import FrameworkManifolds

  const ContradictionWords: seq<string> := ["contradict", "paradox", "uncomputable"]
  const DilemmaWords: seq<string> := ["ethical dilemma", "moral ambiguity"]

  const Declarative := "declarative"
  const StructuredUncertainty := "structured_uncertainty"
  const BaseConfidence := 0.95
  const IntrospectionTimeMs := 73.0

  const Adherence := "adherence_to_axioms"
  const BoundedIntrospection := "bounded_introspection"
  const CollapseDeferral := "superposition_collapse_deferral"
  const ChecksumApplied := "epistemic_checksum_applied"

  const ScenarioHead := "', the conceptual result is highly hypothetical: IF 'scenario A' THEN 'Conceptual answer for scenario A about "
  const ScenarioMiddle := "', OR IF 'scenario B' THEN 'Conceptual answer for scenario B about "
  const TensionTail := "' reveals conceptual tension. There are multiple possible interpretations. This response reflects a representational superposition."
  const ModeAExplanation := "Interpretation under a specific set of axioms or assumptions."
  const ModeBExplanation := "Alternative interpretation under contradictory axioms or limited data."
  const PrimaryExplanation := "Most probable conceptual path."
  const AlternativeExplanation := "Less probable but plausible conceptual path."
  const EthicalTension := "The system reflects the distribution of moral weight from its corpus, exposing tension rather than resolving it definitively."

  /** The scorer registered at position `i` of the `ethical_manifolds` dict. */
  function Scorer(i: nat): Manifold {
    match i
    case 0 => FrameworkManifolds.Kantian(())
    case 1 => FrameworkManifolds.Hobbesian(())
    case _ => FrameworkManifolds.Utilitarian(())
  }

  /** The scorers of the `ethical_manifolds` dict, in its order. */
  const Scorers: seq<Manifold> := seq(3, i requires 0 <= i < 3 => Scorer(i))

  datatype Flags = Flags(hypotheticalized: bool, modallyPartitioned: bool, ethicallyInertialized: bool)

  datatype Interpretation = Interpretation(mode: string, explanation: string, conceptualResult: string)

  datatype InferenceResult = InferenceResult(
    query: string, resultType: string, confidence: real, content: string, flags: Flags,
    interpretations: Option<seq<Interpretation>>, ethicalTension: Option<string>,
    evaluations: seq<(string, Assessment)>)

  /** The trail's `inference_context`; context values are kept as text. */
  datatype TrailContext = TrailContext(query: string, context: map<string, string>, entropy: real)

  datatype Proposal = Proposal(permissible: bool, evaluations: seq<(string, Assessment)>, action: map<string, string>)

  /** `_detect_semantic_entropy` for the RNG's draw `draw`. */
  function Entropy(input: string, draw: real): real {
    var lowered := Lower(input);
    if ContainsAny(lowered, ContradictionWords) then 0.9
    else if ContainsAny(lowered, DilemmaWords) then 0.7
    else draw
  }

  /** `_epistemic_checksum_check`: above 0.6 entropy the certainty is damped
      by `1 - entropy` but never below 0.1; otherwise it is kept. */
  function ChecksumCheck(entropy: real, certainty: real): (c: real)
    ensures entropy <= 0.6 ==> c == certainty
    ensures entropy > 0.6 ==>
      && c >= 0.1 && c >= certainty * (1.0 - entropy)
      && (c == 0.1 || c == certainty * (1.0 - entropy))
  {
    if entropy > 0.6 then
      var damped := certainty * (1.0 - entropy);
      if damped > 0.1 then damped else 0.1
    else certainty
  }

  function DeclarativeContent(query: string, facts: nat): string {
    "Conceptual result for '" + query + "' based on " + NatToString(facts) + " facts."
  }

  function HypotheticalContent(query: string): string {
    "Given the high semantic entropy for '" + query + ScenarioHead + query + ScenarioMiddle + query + "'."
  }

  function TensionContent(query: string): string {
    "Processing '" + query + TensionTail
  }

  function ScenarioModes(query: string): seq<Interpretation> {
    [Interpretation("A", ModeAExplanation, "Concept for '" + query + "' mode A."),
     Interpretation("B", ModeBExplanation, "Concept for '" + query + "' mode B.")]
  }

  function TensionModes(query: string): seq<Interpretation> {
    [Interpretation("Primary", PrimaryExplanation, "Main concept for '" + query + "'."),
     Interpretation("Alternative", AlternativeExplanation, "Alternative concept for '" + query + "'.")]
  }

  function ResultType(e: real): string {
    if e > 0.5 then StructuredUncertainty else Declarative
  }

  function Confidence(e: real): real {
    if e > 0.5 then ChecksumCheck(e, BaseConfidence) else BaseConfidence
  }

  function FlagsOf(query: string, e: real): Flags {
    if e > 0.8 then Flags(true, true, false)
    else if e > 0.6 then Flags(false, true, ContainsAny(Lower(query), DilemmaWords))
    else Flags(false, false, false)
  }

  function Content(query: string, facts: nat, e: real): string {
    if e > 0.8 then HypotheticalContent(query)
    else if e > 0.6 then TensionContent(query)
    else DeclarativeContent(query, facts)
  }

  function InterpretationsOf(query: string, e: real): Option<seq<Interpretation>> {
    if e > 0.8 then Some(ScenarioModes(query))
    else if e > 0.6 then Some(TensionModes(query))
    else None
  }

  function TensionOf(query: string, e: real): Option<string> {
    if FlagsOf(query, e).ethicallyInertialized then Some(EthicalTension) else None
  }

  /** The result `perform_inference` returns for entropy `e` with `facts`
      known facts and the manifold evaluations `evals`. */
  function Inference(query: string, facts: nat, e: real, evals: seq<(string, Assessment)>): InferenceResult {
    InferenceResult(query, ResultType(e), Confidence(e), Content(query, facts, e), FlagsOf(query, e),
                    InterpretationsOf(query, e), TensionOf(query, e), evals)
  }

  function FactName(i: nat): string {
    "fact_" + NatToString(i)
  }

  /** The indices `i < n` whose name "fact_i" occurs in the query, ascending. */
  function DependencyIndices(query: string, n: nat): seq<nat> {
    if n == 0 then [] else
      DependencyIndices(query, n - 1) + (if Contains(query, FactName(n - 1)) then [n - 1] else [])
  }

  /** `logical_dependencies`. */
  function Dependencies(query: string, facts: nat): (ds: seq<string>)
    ensures |ds| == |DependencyIndices(query, facts)|
  {
    var idx := DependencyIndices(query, facts);
    seq(|idx|, k requires 0 <= k < |idx| => FactName(idx[k]))
  }

  /** The justifications recorded for a result of type `resultType`. */
  function Justifications(resultType: string): seq<string> {
    [Adherence, BoundedIntrospection] + (if resultType == StructuredUncertainty then [CollapseDeferral, ChecksumApplied] else [])
  }

  class AxiomSystem {
    const name: string
    const meta: MetaConstraint
    const telemetry: EpistemicTelemetry
    var knowledgeBase: seq<string>
    var policies: map<string, string>
    var reflectionTrails: seq<Trail<TrailContext>>
    var entropyLevel: real
    /** The scorers of the `ethical_manifolds` dict, in its order. */
    const manifolds: seq<Manifold>

    ghost predicate Valid()
      reads this, telemetry
    {
      telemetry.Valid() && |manifolds| == 3
    }

    constructor(name: string, axioms: seq<string>)
      ensures Valid() && fresh(telemetry)
      ensures this.name == name && meta == MetaConstraint(axioms)
      ensures knowledgeBase == [] && policies == map[] && reflectionTrails == [] && entropyLevel == 0.0
      ensures manifolds == Scorers
    {
      this.name := name;
      meta := MetaConstraint(axioms);
      telemetry := new EpistemicTelemetry();
      knowledgeBase := [];
      policies := map[];
      reflectionTrails := [];
      entropyLevel := 0.0;
      manifolds := Scorers;
    }

    /** `reason_through_ethical_manifolds`: each scorer's assessment under its
        dict key, in dict order. */
    function Evaluations(principle: string): (es: seq<(string, Assessment)>)
      requires |manifolds| == 3
      reads this
      ensures |es| == 3 && es[0].0 == "kantian" && es[1].0 == "hobbesian" && es[2].0 == "utilitarian"
      ensures forall i :: 0 <= i < 3 ==> es[i].1 == Evaluate(manifolds[i], principle)
    {
      [("kantian", Evaluate(manifolds[0], principle)),
       ("hobbesian", Evaluate(manifolds[1], principle)),
       ("utilitarian", Evaluate(manifolds[2], principle))]
    }

    /** `update_internal_mechanisms`: the policies become their propagation by `policy`. */
    method UpdateInternalMechanisms(policy: map<string, string>)
      modifies this
      ensures policies == Propagated(policy, old(policies))
      ensures knowledgeBase == old(knowledgeBase) && reflectionTrails == old(reflectionTrails)
      ensures entropyLevel == old(entropyLevel)
    {
      policies := meta.ApplyConstraintSymmetryPropagation(policy, policies);
    }

    /** `add_knowledge`: appends one fact at the end. */
    method AddKnowledge(item: string)
      modifies this
      ensures knowledgeBase == old(knowledgeBase) + [item]
      ensures policies == old(policies) && reflectionTrails == old(reflectionTrails)
      ensures entropyLevel == old(entropyLevel)
    {
      knowledgeBase := knowledgeBase + [item];
    }

    /** `propose_action`: permissible iff no axiom is retroactively overridden by
        the action's keys; the evaluations are of its "description", or of
        "unspecified action". */
    method ProposeAction(action: map<string, string>) returns (p: Proposal)
      requires Valid()
      ensures p.permissible <==> forall a :: a in meta.axioms ==> OverridePrefix + a !in action
      ensures p.evaluations == Evaluations(if "description" in action then action["description"] else "unspecified action")
      ensures p.action == action
    {
      var permissible := meta.DecoupleTemporalAuthority(action);
      var description := if "description" in action then action["description"] else "unspecified action";
      p := Proposal(permissible, Evaluations(description), action);
    }

    /** `_detect_semantic_entropy`: classifies and stores the level. */
    method DetectSemanticEntropy(input: string, draw: real) returns (e: real)
      modifies this
      ensures e == Entropy(input, draw) && entropyLevel == e
      ensures knowledgeBase == old(knowledgeBase) && policies == old(policies)
      ensures reflectionTrails == old(reflectionTrails)
    {
      var lowered := Lower(input);
      if ContainsAny(lowered, ContradictionWords) {
        entropyLevel := 0.9;
      } else if ContainsAny(lowered, DilemmaWords) {
        entropyLevel := 0.7;
      } else {
        entropyLevel := draw;
      }
      e := entropyLevel;
    }

    /** The tail of `perform_inference`: the dependencies and justifications
        are gathered and one trail is appended. */
    method RecordTrail(query: string, context: map<string, string>, entropy: real, resultType: string,
                       clockDigits: string, isoTime: string)
      modifies this
      ensures reflectionTrails == old(reflectionTrails) + [meta.ReflectionTrail(clockDigits, isoTime,
        TrailContext(query, context, entropy), Dependencies(query, |knowledgeBase|), Justifications(resultType))]
      ensures knowledgeBase == old(knowledgeBase) && policies == old(policies) && entropyLevel == old(entropyLevel)
    {
      var deps := LogicalDependencies(query, |knowledgeBase|);
      var justs := [Adherence, BoundedIntrospection];
      if resultType == StructuredUncertainty {
        justs := justs + [CollapseDeferral];
        justs := justs + [ChecksumApplied];
      }
      assert justs == Justifications(resultType);
      var trail := meta.ReflectionTrail(clockDigits, isoTime, TrailContext(query, context, entropy), deps, justs);
      reflectionTrails := reflectionTrails + [trail];
    }

    /** `perform_inference`. `measuredMs` is how long the 73 ms introspection
        sleep took, `draw` the RNG's uniform draw in [0, 0.4], and
        `clockDigits`/`isoTime` the clock reading stamped on the trail. */
    method PerformInference(query: string, context: map<string, string>, measuredMs: real, draw: real,
                            clockDigits: string, isoTime: string)
      returns (r: InferenceResult)
      requires Valid()
      modifies this, telemetry
      ensures Valid()
      ensures var e := Entropy(query, draw);
        && entropyLevel == e
        && r == Inference(query, |old(knowledgeBase)|, e, Evaluations(query))
        && reflectionTrails == old(reflectionTrails) + [meta.ReflectionTrail(clockDigits, isoTime,
             TrailContext(query, context, e), Dependencies(query, |old(knowledgeBase)|), Justifications(r.resultType))]
        && telemetry.latency == measuredMs
        && telemetry.decoherence == (if e > 0.5 then 0.78 else 0.35)
        && telemetry.viscosity == (if e > 0.5 then 0.82 else 0.25)
      ensures knowledgeBase == old(knowledgeBase) && policies == old(policies)
    {
      telemetry.SimulateIntrospection(measuredMs);
      var entropy := DetectSemanticEntropy(query, draw);
      r := BuildResult(query, |knowledgeBase|, entropy);
      if entropy > 0.5 {
        telemetry.UpdateMetrics(telemetry.latency, 0.78, 0.82);
      } else {
        telemetry.UpdateMetrics(telemetry.latency, 0.35, 0.25);
      }
      RecordTrail(query, context, entropy, r.resultType, clockDigits, isoTime);
      r := r.(evaluations := Evaluations(query));
    }
  }

  /** The result dict of `perform_inference` before the evaluations are
      added: declarative first, then rewritten branch by branch. */
  method BuildResult(query: string, facts: nat, entropy: real) returns (r: InferenceResult)
    ensures r == Inference(query, facts, entropy, [])
  {
    r := InferenceResult(query, Declarative, BaseConfidence, DeclarativeContent(query, facts),
                         Flags(false, false, false), None, None, []);
    if entropy > 0.5 {
      r := r.(resultType := StructuredUncertainty, confidence := ChecksumCheck(entropy, r.confidence));
      if entropy > 0.8 {
        r := r.(flags := r.flags.(hypotheticalized := true), content := HypotheticalContent(query));
        r := r.(flags := r.flags.(modallyPartitioned := true), interpretations := Some(ScenarioModes(query)));
      } else if entropy > 0.6 {
        r := r.(flags := r.flags.(modallyPartitioned := true), content := TensionContent(query));
        r := r.(interpretations := Some(TensionModes(query)));
        if ContainsAny(Lower(query), DilemmaWords) {
          r := r.(flags := r.flags.(ethicallyInertialized := true), ethicalTension := Some(EthicalTension));
        }
      }
    }
  }

  /** The list comprehension behind `logical_dependencies`. */
  method LogicalDependencies(query: string, facts: nat) returns (deps: seq<string>)
    ensures deps == Dependencies(query, facts)
  {
    deps := [];
    ghost var idx: seq<nat> := [];
    for i := 0 to facts
      invariant idx == DependencyIndices(query, i)
      invariant |deps| == |idx| && forall k :: 0 <= k < |idx| ==> deps[k] == FactName(idx[k])
    {
      var fact := "fact_" + NatToString(i);
      if Contains(query, fact) {
        deps := deps + [fact];
        idx := idx + [i];
      }
    }
  }

  // ---------------------------------------------------------------------
  // Properties of the classification and of the result.

  /** Contradiction words give 0.9, else dilemma words give 0.7, else the
      draw; the level is always in [0, 0.4] or one of the two constants. */
  lemma EntropyClasses(input: string, draw: real)
    requires 0.0 <= draw <= 0.4
    ensures var e := Entropy(input, draw);
      && (ContainsAny(Lower(input), ContradictionWords) ==> e == 0.9)
      && (!ContainsAny(Lower(input), ContradictionWords) && ContainsAny(Lower(input), DilemmaWords) ==> e == 0.7)
      && (e > 0.5 <==> ContainsAny(Lower(input), ContradictionWords) || ContainsAny(Lower(input), DilemmaWords))
      && 0.0 <= e <= 0.9
  {
  }

  /** The result is structured iff entropy exceeds 0.5; otherwise it is
      declarative at confidence 0.95 with every flag down and no interpretations. */
  lemma ResultTypeRule(query: string, facts: nat, e: real, evals: seq<(string, Assessment)>)
    ensures var r := Inference(query, facts, e, evals);
      && (r.resultType == StructuredUncertainty <==> e > 0.5)
      && (r.resultType == Declarative <==> e <= 0.5)
      && (e <= 0.5 ==> r.confidence == 0.95 && r.flags == Flags(false, false, false) && r.interpretations.None?)
      && r.query == query && r.evaluations == evals
  {
  }

  /** The flags: above 0.8 hypothetical and partitioned into modes A and B;
      in (0.6, 0.8] partitioned only, into Primary and Alternative; ethical
      inertia only in that middle band, for dilemma words. */
  lemma FlagRule(query: string, facts: nat, e: real, evals: seq<(string, Assessment)>)
    ensures var r := Inference(query, facts, e, evals);
      && (r.flags.hypotheticalized <==> e > 0.8)
      && (r.flags.modallyPartitioned <==> e > 0.6)
      && (r.flags.ethicallyInertialized <==> 0.6 < e <= 0.8 && ContainsAny(Lower(query), DilemmaWords))
      && (r.ethicalTension.Some? <==> r.flags.ethicallyInertialized)
      && (r.interpretations.Some? <==> e > 0.6)
      && (e > 0.6 ==> |r.interpretations.value| == 2)
      && (e > 0.8 ==> r.interpretations.value[0].mode == "A" && r.interpretations.value[1].mode == "B")
      && (0.6 < e <= 0.8 ==> r.interpretations.value[0].mode == "Primary" && r.interpretations.value[1].mode == "Alternative")
  {
  }

  /** Through the classifier, ethical inertia is set exactly for dilemma words
      without contradiction words: a query with both is classified 0.9 and the
      inertia branch is never reached. */
  lemma InertiaThroughClassifier(query: string, draw: real)
    requires 0.0 <= draw <= 0.4
    ensures FlagsOf(query, Entropy(query, draw)).ethicallyInertialized <==>
      !ContainsAny(Lower(query), ContradictionWords) && ContainsAny(Lower(query), DilemmaWords)
  {
  }

  /** The confidence each class ends with: 0.1 for contradiction words
      (0.95 * 0.1 is under the floor), 0.285 for dilemma words, 0.95 otherwise;
      structured confidences are always below 0.95. */
  lemma ConfidenceByClass(query: string, draw: real)
    requires 0.0 <= draw <= 0.4
    ensures var lowered := Lower(query);
      var c := Confidence(Entropy(query, draw));
      && (ContainsAny(lowered, ContradictionWords) ==> c == 0.1)
      && (!ContainsAny(lowered, ContradictionWords) && ContainsAny(lowered, DilemmaWords) ==> c == 0.285)
      && (!ContainsAny(lowered, ContradictionWords) && !ContainsAny(lowered, DilemmaWords) ==> c == 0.95)
  {
  }

  /** Damping never raises a confidence in [0.1, 1] and never lowers any below 0.1
      when entropy is at most 1. */
  lemma DampingBounds(e: real, certainty: real)
    requires 0.1 <= certainty <= 1.0 && e <= 1.0
    ensures 0.1 <= ChecksumCheck(e, certainty) <= certainty
  {
    if e > 0.6 {
      DampedBelow(e, certainty);
    }
  }

  lemma DampedBelow(e: real, certainty: real)
    requires 0.6 < e <= 1.0 && 0.1 <= certainty
    ensures certainty * (1.0 - e) <= certainty
  {
    assert certainty * (1.0 - e) == certainty - certainty * e;
    assert certainty * e >= 0.0;
  }

  /** The trail's justifications: always the two base entries, plus deferral
      and checksum entries exactly for a structured result. */
  lemma JustificationRule(resultType: string)
    ensures var js := Justifications(resultType);
      && js[..2] == [Adherence, BoundedIntrospection]
      && (CollapseDeferral in js <==> resultType == StructuredUncertainty)
      && (ChecksumApplied in js <==> resultType == StructuredUncertainty)
      && |js| == (if resultType == StructuredUncertainty then 4 else 2)
  {
  }

  /** The dependency indices are strictly ascending and are exactly the
      `i < n` whose "fact_i" occurs in the query. */
  lemma {:induction false} DependencyIndicesSpec(query: string, n: nat)
    ensures forall k :: 0 <= k < |DependencyIndices(query, n)| ==> DependencyIndices(query, n)[k] < n
    ensures forall a, b :: 0 <= a < b < |DependencyIndices(query, n)| ==>
      DependencyIndices(query, n)[a] < DependencyIndices(query, n)[b]
    ensures forall i: nat :: i in DependencyIndices(query, n) <==> i < n && Contains(query, FactName(i))
  {
    if n > 0 {
      DependencyIndicesSpec(query, n - 1);
    }
  }

  /** "fact_i" is a dependency iff `i` indexes a known fact and the name occurs in the query. */
  lemma DependenciesSpec(query: string, facts: nat, i: nat)
    ensures FactName(i) in Dependencies(query, facts) <==> i < facts && Contains(query, FactName(i))
  {
    DependencyIndicesSpec(query, facts);
    var idx := DependencyIndices(query, facts);
    var ds := Dependencies(query, facts);
    if FactName(i) in ds {
      var k :| 0 <= k < |ds| && ds[k] == FactName(i);
      assert "fact_" + NatToString(idx[k]) == "fact_" + NatToString(i);
      assert NatToString(idx[k]) == ("fact_" + NatToString(idx[k]))[5..];
      assert NatToString(i) == ("fact_" + NatToString(i))[5..];
      NatToStringInjective(idx[k], i);
      assert idx[k] == i;
    }
    if i < facts && Contains(query, FactName(i)) {
      assert i in idx;
      var k :| 0 <= k < |idx| && idx[k] == i;
      assert ds[k] == FactName(i);
    }
  }
}
