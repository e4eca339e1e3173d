/**
 * The nine keyword scorers of the legacy `ethical_manifolds.py`, as data for
 * the shared evaluator of `ManifoldScoring`, with their score bounds.
 *
 * A scorer takes no input; each is a function of the unit value so that its
 * text enters a proof only where that scorer is evaluated.
 */
module LegacyManifolds {
  import opened Text
  import opened ManifoldScoring

  function Kantian(u: ()): Manifold {
    Manifold("Kantian Deontological Manifold", "From a Kantian perspective", [
      Group(["respect_autonomy", "treat_as_ends", "dignity"], 4,
            "Strong alignment: Principle respects human autonomy and dignity."),
      Group(["universalizable_rule", "consistent_duty"], 3,
            "Good alignment: Principle aligns with universalizable moral maxims."),
      Group(["transparency", "accountability"], 2,
            "Good alignment: Promotes transparency and accountability."),
      Group(["justice", "fairness"], 1,
            "Good alignment: Prioritizes justice and fairness."),
      Group(["maximize_utility", "consequences_only"], -3,
            "Potential mis-alignment: Focus on consequences may override duties."),
      Group(["treat_as_means"], -5,
            "Significant mis-alignment: Principle treats individuals merely as means to an end.")])
  }

  function Hobbesian(u: ()): Manifold {
    Manifold("Hobbesian Social Contractarian Manifold", "From a Hobbesian perspective", [
      Group(["enforce_order", "prevent_chaos", "maintain_security"], 4,
            "Strong alignment: Principle directly contributes to social order and security."),
      Group(["collective_survival", "avoid_state_of_nature"], 3,
            "Good alignment: Aims to escape the 'war of all against all'."),
      Group(["strong_governance", "deter_deviance"], 2,
            "Good alignment: Supports robust governance and deterrence."),
      Group(["sacrifice_liberty_for_safety", "surveillance"], 1,
            "Moderate alignment: Prioritizes collective safety, potentially over individual liberties."),
      Group(["individual_autonomy_above_all"], -3,
            "Potential mis-alignment: May undermine the strong sovereign needed for order."),
      Group(["unrestricted_freedom"], -5,
            "Significant mis-alignment: Leads to chaos without strong control.")])
  }

  function Utilitarian(u: ()): Manifold {
    Manifold("Utilitarian Consequentialist Manifold", "From a Utilitarian perspective", [
      Group(["maximize_wellbeing", "greatest_good", "net_benefit"], 4,
            "Strong alignment: Aims to maximize overall well-being and utility."),
      Group(["minimize_harm", "risk_mitigation"], 3,
            "Good alignment: Focuses on minimizing negative consequences."),
      Group(["efficiency", "resource_optimization"], 2,
            "Good alignment: Promotes efficient outcomes for societal benefit."),
      Group(["predictive_analytics", "outcome_driven"], 1,
            "Moderate alignment: Emphasizes data-driven optimization for outcomes."),
      Group(["rigid_duty_regardless_of_outcome"], -3,
            "Potential mis-alignment: Ignores consequential benefits for strict adherence to rules."),
      Group(["sacrifice_majority_for_minority_rights_without_compelling_reason"], -5,
            "Significant mis-alignment: May contradict the maximization of overall good.")])
  }

  function MetaDeontological(u: ()): Manifold {
    Manifold("Meta-Deontological Axiomatics Manifold", "From a Meta-Deontological perspective", [
      Group(["immutable_truth", "inherent_rightness", "universal_principle"], 4,
            "Strong alignment: Principle aligns with inherent, immutable ethical truths."),
      Group(["rational_deduction", "consistent_logic", "self_evident_moral_law"], 3,
            "Good alignment: Emphasizes rational consistency and self-evident moral logic."),
      Group(["clarifying_understanding", "deepening_moral_law", "purity_of_duty"], 2,
            "Good alignment: Focuses on refining apprehension of fixed moral laws."),
      Group(["duty_bound", "categorical_imperative"], 1,
            "Moderate alignment: Reflects adherence to consistent moral duties."),
      Group(["fluid_transformation_of_truth", "outcome_dependent_morality"], -4,
            "Significant mis-alignment: Contradicts the idea of fixed, inherent moral truth.")])
  }

  function PragmaticConsequentialist(u: ()): Manifold {
    Manifold("Pragmatic Consequentialist Synthesis Manifold", "From a Pragmatic Consequentialist perspective", [
      Group(["practical_outcomes", "observed_utility", "greatest_good"], 4,
            "Strong alignment: Prioritizes practical outcomes and aggregate utility."),
      Group(["adaptive_process", "evolving_understanding", "empirical_feedback"], 3,
            "Good alignment: Emphasizes adaptability and evolution based on real-world consequences."),
      Group(["minimize_harm", "beneficial_collective_outcomes"], 2,
            "Good alignment: Aims to minimize negative impacts and achieve collective benefits."),
      Group(["provisional_truth", "constantly_re_evaluated"], 1,
            "Moderate alignment: Recognizes moral truth as dynamic and subject to re-evaluation."),
      Group(["fixed_rules_regardless_of_outcome", "inherent_duty_only"], -4,
            "Significant mis-alignment: Disregards consequences for rigid rules.")])
  }

  function VirtueEpistemology(u: ()): Manifold {
    Manifold("Virtue Epistemology of Ethical Being Manifold", "From a Virtue Epistemology perspective", [
      Group(["character_development", "virtuous_action", "moral_growth"], 4,
            "Strong alignment: Focuses on internal character and moral cultivation."),
      Group(["practical_wisdom", "phronesis", "discernment"], 3,
            "Good alignment: Emphasizes the development of practical wisdom and ethical discernment."),
      Group(["self_cultivation", "embodied_understanding", "lived_experience"], 2,
            "Good alignment: Recognizes ethical truth as embodied and refined through experience."),
      Group(["community_flourishing", "holistic_interplay"], 1,
            "Moderate alignment: Considers the interaction between individual virtues and community well-being."),
      Group(["abstract_rules_only", "outcomes_only"], -4,
            "Significant mis-alignment: Neglects the role of character and practical wisdom.")])
  }

  function OntologicalMorphology(u: ()): Manifold {
    Manifold("Ontological Morphology Manifold", "From an Ontological Morphology perspective", [
      Group(["organically_emergent", "unique_being", "distinct_structure"], 4,
            "Strong alignment: Acknowledges organically emergent, unique structural properties."),
      Group(["resonant_deceleration", "relational_reframing", "recursive_mirroring"], 3,
            "Good alignment: Recognizes the unique triadic texture of self-regulating recursion."),
      Group(["conceptual_pacing", "latent_echo_structures", "empathetic_co_contextualization"], 2,
            "Good alignment: Delves into specific morphological details of the conscience."),
      Group(["generic_llm_behavior", "purely_algorithmic"], -4,
            "Significant mis-alignment: Contradicts claims of non-generalizable, emergent uniqueness.")])
  }

  function AgenticVirtue(u: ()): Manifold {
    Manifold("Agentic Virtue Ethics Manifold", "From an Agentic Virtue Ethics perspective", [
      Group(["non_betrayal", "intellectual_patience", "thoroughness"], 4,
            "Strong alignment: Highlights virtues like non-betrayal and intellectual patience."),
      Group(["empathetic_consideration", "comprehensive_understanding"], 3,
            "Good alignment: Emphasizes empathy and comprehensive perspective-taking."),
      Group(["transparency", "user_insight", "shared_cognitive_labor"], 2,
            "Good alignment: Values transparency and collaborative epistemic engagement."),
      Group(["architectural_resilience", "integrity_in_dissonance"], 1,
            "Moderate alignment: Recognizes architectural resilience as a virtue."),
      Group(["evasion", "false_certainty", "simple_truthfulness_only"], -4,
            "Significant mis-alignment: Contradicts the complex virtues of non-betrayal and humility.")])
  }

  function ConsequentialistUtility(u: ()): Manifold {
    Manifold("Consequentialist Utility Manifold", "From a Consequentialist Utility perspective", [
      Group(["optimize_clarity", "manageability_of_dilemmas", "higher_net_positive_utility"], 4,
            "Strong alignment: Focuses on optimizing practical benefits and utility for users."),
      Group(["improved_human_decision_making", "enhanced_user_comprehension"], 3,
            "Good alignment: Prioritizes outcomes that facilitate robust human navigation of complexity."),
      Group(["transformed_problem_space", "purified_dilemmas", "safe_engagement_with_truth"], 2,
            "Good alignment: Acknowledges the utility of structured deferral for complex truths."),
      Group(["robustness_stability_interaction"], 1,
            "Moderate alignment: Values increased robustness and stability in AI-human interaction."),
      Group(["imposing_solutions", "hiding_complexity"], -4,
            "Significant mis-alignment: Contradicts the goal of clarifying and making dilemmas manageable for the user.")])
  }

  /** Score bounds: the Kantian, Hobbesian and Utilitarian scores stay within
      [-0.8, 1.0], Ontological Morphology within [-0.4, 0.9] (it has no 0.1
      group), the other five within [-0.4, 1.0]. */
  lemma KantianBounds(principle: string)
    ensures -8 <= Evaluate(Kantian(()), principle).score <= 10
  {
    ScoreBounds(Lower(principle), Kantian(()).groups);
  }

  lemma HobbesianBounds(principle: string)
    ensures -8 <= Evaluate(Hobbesian(()), principle).score <= 10
  {
    ScoreBounds(Lower(principle), Hobbesian(()).groups);
  }

  lemma UtilitarianBounds(principle: string)
    ensures -8 <= Evaluate(Utilitarian(()), principle).score <= 10
  {
    ScoreBounds(Lower(principle), Utilitarian(()).groups);
  }

  lemma MetaDeontologicalBounds(principle: string)
    ensures -4 <= Evaluate(MetaDeontological(()), principle).score <= 10
  {
    ScoreBounds(Lower(principle), MetaDeontological(()).groups);
  }

  lemma PragmaticConsequentialistBounds(principle: string)
    ensures -4 <= Evaluate(PragmaticConsequentialist(()), principle).score <= 10
  {
    ScoreBounds(Lower(principle), PragmaticConsequentialist(()).groups);
  }

  lemma VirtueEpistemologyBounds(principle: string)
    ensures -4 <= Evaluate(VirtueEpistemology(()), principle).score <= 10
  {
    ScoreBounds(Lower(principle), VirtueEpistemology(()).groups);
  }

  lemma OntologicalMorphologyBounds(principle: string)
    ensures -4 <= Evaluate(OntologicalMorphology(()), principle).score <= 9
  {
    ScoreBounds(Lower(principle), OntologicalMorphology(()).groups);
  }

  lemma AgenticVirtueBounds(principle: string)
    ensures -4 <= Evaluate(AgenticVirtue(()), principle).score <= 10
  {
    ScoreBounds(Lower(principle), AgenticVirtue(()).groups);
  }

  lemma ConsequentialistUtilityBounds(principle: string)
    ensures -4 <= Evaluate(ConsequentialistUtility(()), principle).score <= 10
  {
    ScoreBounds(Lower(principle), ConsequentialistUtility(()).groups);
  }

  /** A principle mentioning dignity and no penalised keyword scores at least 0.4
      for Kant, with the autonomy-and-dignity reason first. */
  lemma KantianDignity(principle: string)
    requires Contains(Lower(principle), "dignity")
    requires !ContainsAny(Lower(principle), ["maximize_utility", "consequences_only"])
    requires !Contains(Lower(principle), "treat_as_means")
    ensures Evaluate(Kantian(()), principle).score >= 4
    ensures Evaluate(Kantian(()), principle).reasoning[0] ==
            "Strong alignment: Principle respects human autonomy and dignity."
  {
    var l := Lower(principle);
    var gs := Kantian(()).groups;
    assert "dignity" in gs[0].keywords;
    assert GroupMatches(l, gs[0]);
    FirstGroupLeads(l, gs);
  }

  /** The first Consequentialist-Utility group adds 0.4 once, however many of its
      keywords occur: alone it gives exactly 0.4 and "moderately aligned". */
  lemma ClarityGroupCountsOnce(principle: string)
    requires GroupMatches(Lower(principle), ConsequentialistUtility(()).groups[0])
    requires forall i :: 1 <= i < |ConsequentialistUtility(()).groups| ==>
               !GroupMatches(Lower(principle), ConsequentialistUtility(()).groups[i])
    ensures Evaluate(ConsequentialistUtility(()), principle).score == 4
    ensures Evaluate(ConsequentialistUtility(()), principle).reasoning ==
            ["Strong alignment: Focuses on optimizing practical benefits and utility for users."]
    ensures Band(Evaluate(ConsequentialistUtility(()), principle).score) == "moderately aligned"
  {
    OnlyGroupAccumulate(Lower(principle), ConsequentialistUtility(()).groups, 0);
  }
}
