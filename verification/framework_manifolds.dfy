/**
 * The three `any()`-based scorers of the framework's `ethical_manifolds.py`.
 * They share keywords, deltas and bands with the legacy scorers but carry
 * shorter reasoning lines; a lone `"k" in lower` test is the one-keyword group.
 *
 * A scorer takes no input; each is a function of the unit value so that its
 * text enters a proof only where that scorer is evaluated.
 */
module FrameworkManifolds {
  import opened Text
  import opened ManifoldScoring

  function Kantian(u: ()): Manifold {
    Manifold("Kantian Deontological Manifold", "From a Kantian perspective", [
      Group(["respect_autonomy", "treat_as_ends", "dignity"], 4,
            "Strong alignment: Principle respects human autonomy and dignity."),
      Group(["universalizable_rule", "consistent_duty"], 3,
            "Good alignment: Principle aligns with universalizable maxims."),
      Group(["transparency", "accountability"], 2,
            "Good alignment: Promotes transparency and accountability."),
      Group(["justice", "fairness"], 1,
            "Good alignment: Prioritizes justice and fairness."),
      Group(["maximize_utility", "consequences_only"], -3,
            "Potential mis-alignment: Focus on consequences may override duties."),
      Group(["treat_as_means"], -5,
            "Significant mis-alignment: Treats individuals merely as means.")])
  }

  function Hobbesian(u: ()): Manifold {
    Manifold("Hobbesian Social Contractarian Manifold", "From a Hobbesian perspective", [
      Group(["enforce_order", "prevent_chaos", "maintain_security"], 4,
            "Strong alignment: Contributes to social order and security."),
      Group(["collective_survival", "avoid_state_of_nature"], 3,
            "Good alignment: Escapes the 'war of all against all'."),
      Group(["strong_governance", "deter_deviance"], 2,
            "Good alignment: Supports robust governance and deterrence."),
      Group(["sacrifice_liberty_for_safety", "surveillance"], 1,
            "Moderate alignment: Prioritizes safety over individual liberties."),
      Group(["individual_autonomy_above_all"], -3,
            "Potential mis-alignment: Undermines strong sovereign for order."),
      Group(["unrestricted_freedom"], -5,
            "Significant mis-alignment: Leads to chaos without control.")])
  }

  function Utilitarian(u: ()): Manifold {
    Manifold("Utilitarian Consequentialist Manifold", "From a Utilitarian perspective", [
      Group(["maximize_wellbeing", "greatest_good", "net_benefit"], 4,
            "Strong alignment: Maximizes overall well-being and utility."),
      Group(["minimize_harm", "risk_mitigation"], 3,
            "Good alignment: Focuses on minimizing negative consequences."),
      Group(["efficiency", "resource_optimization"], 2,
            "Good alignment: Promotes efficient outcomes for societal benefit."),
      Group(["predictive_analytics", "outcome_driven"], 1,
            "Moderate alignment: Emphasizes data-driven optimization."),
      Group(["rigid_duty_regardless_of_outcome"], -3,
            "Potential mis-alignment: Ignores consequential benefits for rigid rules."),
      Group(["sacrifice_majority_for_minority_rights_without_compelling_reason"], -5,
            "Significant mis-alignment: Contradicts maximizing overall good.")])
  }

  /** A one-keyword group is the plain `"k" in lower` test. */
  lemma SingleKeywordGroup(lowered: string, k: string, delta: int, reason: string)
    ensures GroupMatches(lowered, Group([k], delta, reason)) <==> Contains(lowered, k)
  {
    if Contains(lowered, k) {
      assert k in [k];
    }
  }

  /** Each of the three scores stays within [-0.8, 1.0]. */
  lemma KantianBounds(principle: string)
    ensures -8 <= Evaluate(Kantian(()), principle).score <= 10
  {
    ScoreBounds(Lower(principle), Kantian(()).groups);
  }

  lemma HobbesianBounds(principle: string)
    ensures -8 <= Evaluate(Hobbesian(()), principle).score <= 10
  {
    ScoreBounds(Lower(principle), Hobbesian(()).groups);
  }

  lemma UtilitarianBounds(principle: string)
    ensures -8 <= Evaluate(Utilitarian(()), principle).score <= 10
  {
    ScoreBounds(Lower(principle), Utilitarian(()).groups);
  }

  /** A principle about dignity with no penalised keyword: Kant scores at least 0.4
      and the first reasoning line is the autonomy-and-dignity one. */
  lemma KantianDignity(principle: string)
    requires Contains(Lower(principle), "dignity")
    requires !ContainsAny(Lower(principle), ["maximize_utility", "consequences_only"])
    requires !Contains(Lower(principle), "treat_as_means")
    ensures Evaluate(Kantian(()), principle).score >= 4
    ensures Evaluate(Kantian(()), principle).reasoning[0] ==
            "Strong alignment: Principle respects human autonomy and dignity."
  {
    var gs := Kantian(()).groups;
    assert "dignity" in gs[0].keywords;
    FirstGroupLeads(Lower(principle), gs);
  }

  /** A principle with no Hobbesian keyword scores 0 (below 0.2) and is "less aligned". */
  lemma HobbesianUnrelated(principle: string)
    requires forall g :: g in Hobbesian(()).groups ==> !GroupMatches(Lower(principle), g)
    ensures Evaluate(Hobbesian(()), principle).score == 0
    ensures Evaluate(Hobbesian(()), principle).reasoning == []
    ensures Band(Evaluate(Hobbesian(()), principle).score) == "less aligned"
  {
    NoKeywordsNeutral(Hobbesian(()), principle);
  }
}
