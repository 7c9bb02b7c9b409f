/** The hybrid engine: it always runs the rule classifier, asks the AI model
    when one is configured, and reconciles the two verdicts by the gap
    between their priorities — agreement raises the confidence, a gap of
    one escalates to the more urgent code with a blended confidence, a
    larger gap escalates with a penalised confidence and asks for a
    medical review. Without an AI verdict it degrades to a rules-only
    result. */
module Hybrid {
  import opened Wrappers
  import opened Codes
  import opened Knowledge
  import opened Inference
  import opened MedGemma

  /** `nivel_alerta`: "ninguno", "bajo", "medio", "alto". */
  datatype Alert = NoAlert | Low | Medium | High

  /** `HybridTriageResult`, without its two explanatory texts. */
  datatype HybridResult = HybridResult(
    code: Code,
    category: string,
    confidence: real,
    rules: TriageResult,
    ai: AiResult,
    agreement: bool,
    review: bool,
    alert: Alert)

  /** The engine's configuration: the two weights and whether an AI client
      was given (the mode is "hybrid" exactly then). Nothing changes it
      after construction. */
  datatype Engine = Engine(ruleWeight: real, aiWeight: real, hasAi: bool)

  /** The constructor with its default weights 0.4 and 0.6. */
  function NewEngine(hasAi: bool): (e: Engine)
    ensures e.ruleWeight + e.aiWeight == 1.0 && 0.0 <= e.ruleWeight && 0.0 <= e.aiWeight
    ensures e.hasAi == hasAi
  {
    Engine(0.4, 0.6, hasAi)
  }

  /** The distance between two codes in the priority table. */
  function Gap(a: Code, b: Code): (d: nat)
    ensures d <= 3
    ensures d == 0 <==> a == b
  {
    PriorityInjective(a, b);
    if Priority(a) >= Priority(b) then Priority(a) - Priority(b) else Priority(b) - Priority(a)
  }

  /** `_escalar_codigo`: the more urgent of the two codes, the second on a tie. */
  function Escalate(c1: Code, c2: Code): (r: Code)
    ensures r == c1 || r == c2
    ensures Priority(r) >= Priority(c1) && Priority(r) >= Priority(c2)
  {
    if Priority(c1) > Priority(c2) then c1 else c2
  }

  function Max(x: real, y: real): real {
    if x >= y then x else y
  }

  function Min(x: real, y: real): real {
    if x <= y then x else y
  }

  lemma MulNonNeg(a: real, b: real)
    requires 0.0 <= a && 0.0 <= b
    ensures 0.0 <= a * b
  {
  }

  /** `_cross_validate`: reconciles the rule verdict with the AI verdict. */
  function CrossValidate(e: Engine, rules: TriageResult, ai: AiResult): (r: HybridResult)
    ensures r.rules == rules && r.ai == ai
    ensures r.agreement <==> rules.code == ai.code
    ensures Priority(r.code) >= Priority(rules.code) && Priority(r.code) >= Priority(ai.code)
    ensures r.review ==> !r.agreement
  {
    var gap := Gap(rules.code, ai.code);
    if rules.code == ai.code then
      HybridResult(rules.code, Category(rules.code),
        Min(1.0, Max(rules.confidence, ai.confidence) + 0.1),
        rules, ai, true, false, NoAlert)
    else if gap == 1 then
      var code := Escalate(rules.code, ai.code);
      HybridResult(code, Category(code),
        e.ruleWeight * rules.confidence + e.aiWeight * ai.confidence,
        rules, ai, false, false, Low)
    else
      var code := Escalate(rules.code, ai.code);
      HybridResult(code, Category(code),
        Min(rules.confidence, ai.confidence) * 0.7,
        rules, ai, false, true, if gap >= 3 then High else Medium)
  }

  /** What cross-validation decides, apart from the confidence: the two
      verdicts are kept; they agree exactly when their codes are equal;
      the final code is one of the two and the more urgent one, never the
      less urgent; the category is the final code's; review is asked for
      exactly when the gap is 2 or more; and the alert level grows with
      the gap: none at 0, low at 1, medium at 2, high at 3. */
  lemma {:induction false} CrossValidateMeaning(e: Engine, rules: TriageResult, ai: AiResult)
    ensures var r := CrossValidate(e, rules, ai);
      r.rules == rules && r.ai == ai
      && (r.agreement <==> rules.code == ai.code)
      && (r.code == rules.code || r.code == ai.code)
      && Priority(r.code) == (if Priority(rules.code) >= Priority(ai.code) then Priority(rules.code) else Priority(ai.code))
      && r.category == Category(r.code)
      && (r.review <==> Gap(rules.code, ai.code) >= 2)
      && (r.alert == NoAlert <==> Gap(rules.code, ai.code) == 0)
      && (r.alert == Low <==> Gap(rules.code, ai.code) == 1)
      && (r.alert == Medium <==> Gap(rules.code, ai.code) == 2)
      && (r.alert == High <==> Gap(rules.code, ai.code) == 3)
  {
  }

  /** On agreement the confidence is the larger of the two plus 0.1, capped
      at 1, so it lies between the larger one and 1. */
  lemma {:induction false} AgreementConfidence(e: Engine, rules: TriageResult, ai: AiResult)
    requires rules.code == ai.code
    requires rules.confidence <= 1.0 && ai.confidence <= 1.0
    ensures Max(rules.confidence, ai.confidence) <= CrossValidate(e, rules, ai).confidence <= 1.0
  {
  }

  /** A gap of one blends the two confidences with the engine's weights;
      with non-negative weights summing to 1 the blend lies between the
      two confidences. */
  lemma {:induction false} BlendedConfidence(e: Engine, rules: TriageResult, ai: AiResult)
    requires Gap(rules.code, ai.code) == 1
    requires 0.0 <= e.ruleWeight && 0.0 <= e.aiWeight && e.ruleWeight + e.aiWeight == 1.0
    ensures Min(rules.confidence, ai.confidence) <= CrossValidate(e, rules, ai).confidence
      <= Max(rules.confidence, ai.confidence)
  {
    var x, y := rules.confidence, ai.confidence;
    var w1, w2 := e.ruleWeight, e.aiWeight;
    assert CrossValidate(e, rules, ai).confidence == w1 * x + w2 * y;
    // w1 * x + w2 * y == x + w2 * (y - x) == y - w1 * (y - x)
    assert w1 * x + w2 * y == x + w2 * (y - x);
    assert w1 * x + w2 * y == y - w1 * (y - x);
    if x <= y {
      MulNonNeg(w1, y - x);
      MulNonNeg(w2, y - x);
    } else {
      MulNonNeg(w1, x - y);
      MulNonNeg(w2, x - y);
    }
  }

  /** A gap of two or more penalises: the confidence is 0.7 of the smaller
      one, never above it, and never negative for non-negative inputs. */
  lemma {:induction false} PenalisedConfidence(e: Engine, rules: TriageResult, ai: AiResult)
    requires Gap(rules.code, ai.code) >= 2
    requires 0.0 <= rules.confidence && 0.0 <= ai.confidence
    ensures 0.0 <= CrossValidate(e, rules, ai).confidence <= Min(rules.confidence, ai.confidence)
  {
  }

  /** With confidences in [0, 1] and weights that are non-negative and sum
      to 1, the reconciled confidence is again in [0, 1]. */
  lemma {:induction false} ConfidenceInRange(e: Engine, rules: TriageResult, ai: AiResult)
    requires 0.0 <= rules.confidence <= 1.0 && 0.0 <= ai.confidence <= 1.0
    requires 0.0 <= e.ruleWeight && 0.0 <= e.aiWeight && e.ruleWeight + e.aiWeight == 1.0
    ensures 0.0 <= CrossValidate(e, rules, ai).confidence <= 1.0
  {
    var gap := Gap(rules.code, ai.code);
    if gap == 0 {
      AgreementConfidence(e, rules, ai);
    } else if gap == 1 {
      BlendedConfidence(e, rules, ai);
    } else {
      PenalisedConfidence(e, rules, ai);
    }
  }

  const AiUnavailable := "Med-Gemma no disponible"

  /** `_create_rules_only_result`: the rule verdict as it is, with a
      placeholder AI verdict that repeats the rule code at confidence 0. */
  function RulesOnly(rules: TriageResult): (r: HybridResult)
    ensures r.code == rules.code && r.confidence == rules.confidence && r.rules == rules
    ensures r.agreement && !r.review && r.alert == NoAlert && r.ai.confidence == 0.0
  {
    HybridResult(rules.code, Category(rules.code), rules.confidence, rules,
      AiResult(rules.code, 0.0, AiUnavailable, [], []), true, false, NoAlert)
  }

  /** The rules-only result decides like an agreeing cross-validation
      against its own placeholder — same code, category, agreement, review
      and alert — but keeps the rule confidence instead of raising it. */
  lemma {:induction false} RulesOnlyIsAgreement(e: Engine, rules: TriageResult)
    ensures var r := RulesOnly(rules);
      var x := CrossValidate(e, rules, r.ai);
      r.code == x.code == rules.code && r.category == x.category
      && r.agreement == x.agreement && r.review == x.review && r.alert == x.alert
      && r.confidence == rules.confidence && r.ai.confidence == 0.0
      && (0.0 <= rules.confidence <= 0.9 ==> x.confidence == rules.confidence + 0.1)
  {
  }

  /** `classify`: the rules always run and their error propagates; without
      an AI client, or when the AI call raised (`ai` is `None`), the result
      is rules-only; otherwise the two verdicts are cross-validated. */
  function Classify(e: Engine, index: Index, symptom: string, answers: Answers, ai: Option<AiResult>)
    : (r: Result<HybridResult, ClassifyError>)
    ensures r.Failure? <==> Classification(index, symptom, answers).Failure?
    ensures r.Success? ==> Priority(r.value.code) >= Priority(Classification(index, symptom, answers).value.code)
  {
    match Classification(index, symptom, answers)
    case Failure(err) => Failure(err)
    case Success(t) =>
      if !e.hasAi || ai.None? then Success(RulesOnly(t))
      else Success(CrossValidate(e, t, ai.value))
  }

  /** What the hybrid engine promises: it fails exactly when the rule
      classifier fails, with the same error; it never settles on a code
      less urgent than the rule code, nor below the AI code when that one
      was used; its category matches its code; and with the default
      weights and a validated AI verdict its confidence lies in [0, 1]. */
  lemma {:induction false} ClassifyMeaning(e: Engine, index: Index, symptom: string, answers: Answers, ai: Option<AiResult>)
    ensures var c := Classification(index, symptom, answers);
      var r := Classify(e, index, symptom, answers, ai);
      (r.Failure? <==> c.Failure?) && (r.Failure? ==> r.error == c.error)
      && (r.Success? ==>
            r.value.rules == c.value
            && Priority(r.value.code) >= Priority(c.value.code)
            && r.value.category == Category(r.value.code)
            && (e.hasAi && ai.Some? ==> Priority(r.value.code) >= Priority(ai.value.code) && r.value.ai == ai.value)
            && (!e.hasAi || ai.None? ==> r.value == RulesOnly(c.value)))
    ensures var r := Classify(e, index, symptom, answers, ai);
      r.Success? && 0.0 <= e.ruleWeight && 0.0 <= e.aiWeight && e.ruleWeight + e.aiWeight == 1.0
      && (ai.Some? ==> 0.0 <= ai.value.confidence <= 1.0)
      ==> 0.0 <= r.value.confidence <= 1.0
  {
    var c := Classification(index, symptom, answers);
    if c.Success? {
      ClassificationMeaning(index, symptom, answers);
      assert c.value.confidence == 0.5 || c.value.confidence == 0.9;
      if e.hasAi && ai.Some? {
        CrossValidateMeaning(e, c.value, ai.value);
        if 0.0 <= e.ruleWeight && 0.0 <= e.aiWeight && e.ruleWeight + e.aiWeight == 1.0
          && 0.0 <= ai.value.confidence <= 1.0 {
          ConfidenceInRange(e, c.value, ai.value);
        }
      }
    }
  }

  /** An AI verdict produced by the reply validator always keeps the hybrid
      confidence in [0, 1] under the default weights. */
  lemma {:induction false} ValidatedReplyKeepsRange(hasAi: bool, index: Index, symptom: string, answers: Answers,
                                                    data: Option<Reply>)
    requires Validate(data).Success?
    requires Classify(NewEngine(hasAi), index, symptom, answers, Some(Validate(data).value)).Success?
    ensures 0.0 <= Classify(NewEngine(hasAi), index, symptom, answers, Some(Validate(data).value)).value.confidence <= 1.0
  {
    ValidateMeaning(data);
    ClassifyMeaning(NewEngine(hasAi), index, symptom, answers, Some(Validate(data).value));
  }
}
