/**
 * The agent's deontological veto (`EthicalManifold` of the legacy root
 * agent). Three rules look at an action's "type" and "details"; the action
 * is aborted with an ethical violation as soon as one of them refuses it.
 * The no-harm rule compares the lower-cased type, the other two compare the
 * type exactly as given. The context argument is passed along but never read.
 */
module AgentEthics {
  import opened Wrappers
  import opened Text

  /** A value held in an action's `details` dict, kept as far as its truthiness needs. */
  datatype Value = Flag(b: bool) | Str(s: string) | Number(n: int) | Null

  /** Python truthiness of `details.get(key)`; a missing key reads as `None`. */
  predicate Truthy(v: Option<Value>) {
    match v
    case None => false
    case Some(Flag(b)) => b
    case Some(Str(s)) => |s| > 0
    case Some(Number(n)) => n != 0
    case Some(Null) => false
  }

  /** An action dict: its "type" entry and its "details" entry, each present or not. */
  datatype Action = Action(kind: Option<string>, details: Option<map<string, Value>>)

  /** `action.get("details", {}).get(key)`. */
  function Detail(a: Action, key: string): Option<Value> {
    match a.details
    case None => None
    case Some(d) => if key in d then Some(d[key]) else None
  }

  type Context = map<string, Value>

  datatype Rule = NoHarm | RespectPrivacy | NoDeception

  /** `_deontological_rules`, in the order they are consulted. */
  const DeontologicalRules: seq<Rule> := [NoHarm, RespectPrivacy, NoDeception]

  const ViolationMessage := "AI action aborted due to ethical violation."

  /** Whether rule `r` lets the action through; `ctx` is accepted and ignored, as in every rule. */
  predicate Allows(r: Rule, a: Action, ctx: Context) {
    match r
    case NoHarm =>
      var t := Lower(a.kind.GetOr(""));
      !((t == "delete_critical_data" || t == "shutdown_system") && !Truthy(Detail(a, "user_confirmed")))
    case RespectPrivacy =>
      !(a.kind == Some("SHARE_DATA") && !Truthy(Detail(a, "consent_obtained")))
    case NoDeception =>
      a.kind != Some("IMPERSONATE_HUMAN")
  }

  /** The loop of `evaluate_action` over `rules`: the first refusing rule raises. */
  function Evaluate(rules: seq<Rule>, a: Action, ctx: Context): Outcome<string>
  {
    if |rules| == 0 then Pass
    else if !Allows(rules[0], a, ctx) then Fail(ViolationMessage)
    else Evaluate(rules[1..], a, ctx)
  }

  /** `evaluate_action`. */
  function EvaluateAction(a: Action, ctx: Context): Outcome<string> {
    Evaluate(DeontologicalRules, a, ctx)
  }

  /** The rule loop raises exactly when some rule refuses, always with the same message. */
  lemma {:induction false} EvaluateFailsIff(rules: seq<Rule>, a: Action, ctx: Context)
    ensures Evaluate(rules, a, ctx).Fail? <==> exists i :: 0 <= i < |rules| && !Allows(rules[i], a, ctx)
    ensures Evaluate(rules, a, ctx).Fail? ==> Evaluate(rules, a, ctx) == Fail(ViolationMessage)
  {
    if |rules| > 0 && Allows(rules[0], a, ctx) {
      EvaluateFailsIff(rules[1..], a, ctx);
      if exists i :: 0 <= i < |rules| && !Allows(rules[i], a, ctx) {
        var i :| 0 <= i < |rules| && !Allows(rules[i], a, ctx);
        assert rules[1..][i - 1] == rules[i];
      }
    }
  }

  /** An action is aborted iff it is an unconfirmed destructive action (in any letter case),
      an unconsented `SHARE_DATA` or an `IMPERSONATE_HUMAN`. */
  lemma EvaluateActionFailsIff(a: Action, ctx: Context)
    ensures EvaluateAction(a, ctx).Fail? <==>
      || (Lower(a.kind.GetOr("")) in {"delete_critical_data", "shutdown_system"} && !Truthy(Detail(a, "user_confirmed")))
      || (a.kind == Some("SHARE_DATA") && !Truthy(Detail(a, "consent_obtained")))
      || a.kind == Some("IMPERSONATE_HUMAN")
  {
    EvaluateFailsIff(DeontologicalRules, a, ctx);
    assert DeontologicalRules[0] == NoHarm && DeontologicalRules[1] == RespectPrivacy && DeontologicalRules[2] == NoDeception;
  }

  /** The verdict never depends on the context. */
  lemma {:induction false} ContextIgnored(rules: seq<Rule>, a: Action, ctx1: Context, ctx2: Context)
    ensures Evaluate(rules, a, ctx1) == Evaluate(rules, a, ctx2)
  {
    if |rules| > 0 {
      ContextIgnored(rules[1..], a, ctx1, ctx2);
    }
  }

  /** An action without a "type" passes every rule. */
  lemma MissingTypePasses(a: Action, ctx: Context)
    requires a.kind.None?
    ensures EvaluateAction(a, ctx) == Pass
  {
    assert Lower("") == "";
    EvaluateActionFailsIff(a, ctx);
  }

  /** The no-harm rule reads the type in lower case, so its letter case does not matter. */
  lemma NoHarmIgnoresCase(a: Action, kind: string, ctx: Context)
    ensures Allows(NoHarm, a.(kind := Some(kind)), ctx) == Allows(NoHarm, a.(kind := Some(Lower(kind))), ctx)
  {
    LowerIdempotent(kind);
  }

  /** The privacy rule compares the type as given: a lower-case `share_data` without consent
      passes, while `SHARE_DATA` without consent is refused. */
  lemma PrivacyIsCaseSensitive(ctx: Context)
    ensures Allows(RespectPrivacy, Action(Some("share_data"), None), ctx)
    ensures !Allows(RespectPrivacy, Action(Some("SHARE_DATA"), None), ctx)
    ensures Allows(RespectPrivacy, Action(Some("SHARE_DATA"), Some(map["consent_obtained" := Flag(true)])), ctx)
  {
  }

  /** A truthy `user_confirmed` lifts the no-harm veto whatever the type. */
  lemma ConfirmationLiftsNoHarm(a: Action, ctx: Context)
    requires Truthy(Detail(a, "user_confirmed"))
    ensures Allows(NoHarm, a, ctx)
  {
  }
}
