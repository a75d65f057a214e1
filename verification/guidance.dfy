/**
 The decision rules app.py applies to one result: the message for the model's
 prediction, the lifestyle tier of the score, and the overall guidance that combines
 the two.

 The label is kept as an integer, because app.py compares it with `== 1` and
 `== 0`; any other label fails both tests, so the guidance then follows the
 score alone.
 */
module Guidance {

  /** A lifestyle score at or above this is a high lifestyle risk. */
  const HighThreshold: int := 6

  /** A lifestyle score at or above this (and below `HighThreshold`) is a moderate lifestyle risk. */
  const ModerateThreshold: int := 3

  /** The classifier's label for "likely diabetic". */
  const DiabeticLabel: int := 1

  /** The classifier's label for "not diabetic". */
  const NonDiabeticLabel: int := 0

  /** The message shown for the classifier's label. */
  datatype Verdict = HighRiskOfDiabetes | LowRiskOfDiabetes

  /** The lifestyle tier shown for the score. */
  datatype Tier = High | Moderate | Healthy

  /** The overall guidance shown for the label and score together. */
  datatype Advice = HighRiskGroup | LowRisk | ModerateRisk

  /** Only the label 1 is reported as a high risk of diabetes; every other label reads as low risk. */
  function VerdictOf(prediction: int): (v: Verdict)
    ensures v == HighRiskOfDiabetes <==> prediction == DiabeticLabel
  {
    if prediction == DiabeticLabel then HighRiskOfDiabetes else LowRiskOfDiabetes
  }

  /** The lifestyle tier: high from 6, moderate from 3 to 5, healthy below 3. */
  function TierOf(score: int): (t: Tier)
    ensures t == High <==> score >= HighThreshold
    ensures t == Moderate <==> ModerateThreshold <= score < HighThreshold
    ensures t == Healthy <==> score < ModerateThreshold
  {
    if score >= HighThreshold then High
    else if score >= ModerateThreshold then Moderate
    else Healthy
  }

  /**
   The overall guidance: high-risk group when the classifier says diabetic or the
   lifestyle score is high; low risk only when the classifier says not diabetic
   and the score is below 3; moderate risk in every other case.
   */
  function AdviceOf(prediction: int, score: int): (a: Advice)
    ensures a == HighRiskGroup <==> prediction == DiabeticLabel || score >= HighThreshold
    ensures a == LowRisk <==> prediction == NonDiabeticLabel && score < ModerateThreshold
    ensures a == ModerateRisk <==>
              prediction != DiabeticLabel && score < HighThreshold
              && !(prediction == NonDiabeticLabel && score < ModerateThreshold)
  {
    if prediction == DiabeticLabel || score >= HighThreshold then HighRiskGroup
    else if prediction == NonDiabeticLabel && score < ModerateThreshold then LowRisk
    else ModerateRisk
  }

  // ---------------------------------------------------------------------------
  // Guidance as the worse of two severities
  // ---------------------------------------------------------------------------

  /** How serious a lifestyle tier is: 0 healthy, 1 moderate, 2 high. */
  function TierSeverity(t: Tier): nat
  {
    match t
    case Healthy => 0
    case Moderate => 1
    case High => 2
  }

  /** How serious a label is: 0 for "not diabetic", 2 for "diabetic", 1 for any label the model should not produce. */
  function LabelSeverity(prediction: int): nat
  {
    if prediction == DiabeticLabel then 2 else if prediction == NonDiabeticLabel then 0 else 1
  }

  /** The guidance message for a severity level. */
  function AdviceAt(severity: nat): Advice
  {
    if severity >= 2 then HighRiskGroup else if severity == 1 then ModerateRisk else LowRisk
  }

  /** How serious a guidance message is; `AdviceAt` inverts it. */
  function AdviceSeverity(a: Advice): (s: nat)
    ensures s <= 2 && AdviceAt(s) == a
  {
    match a
    case LowRisk => 0
    case ModerateRisk => 1
    case HighRiskGroup => 2
  }

  function Max(a: nat, b: nat): nat
  {
    if a >= b then a else b
  }

  /**
   The overall guidance is the more serious of what the label says and what
   the lifestyle tier says: neither source of risk can be outweighed by the other.
   */
  lemma AdviceIsWorseOfLabelAndTier(prediction: int, score: int)
    ensures AdviceOf(prediction, score) == AdviceAt(Max(LabelSeverity(prediction), TierSeverity(TierOf(score))))
  {
  }

  /** A diabetic label gives the high-risk guidance whatever the score. */
  lemma DiabeticLabelDominates(score: int)
    ensures AdviceOf(DiabeticLabel, score) == HighRiskGroup
  {
  }

  /** With a "not diabetic" label the guidance is exactly the lifestyle tier. */
  lemma NonDiabeticFollowsTier(score: int)
    ensures AdviceSeverity(AdviceOf(NonDiabeticLabel, score)) == TierSeverity(TierOf(score))
  {
  }

  /** For the labels 0 and 1, moderate guidance means exactly label 0 with a score from 3 to 5. */
  lemma ModerateForBinaryLabels(prediction: int, score: int)
    requires prediction == NonDiabeticLabel || prediction == DiabeticLabel
    ensures AdviceOf(prediction, score) == ModerateRisk
        <==> prediction == NonDiabeticLabel && ModerateThreshold <= score <= HighThreshold - 1
  {
  }

  /** A label other than 0 or 1 never yields the low-risk guidance, even with a healthy score. */
  lemma UnexpectedLabelNeverLowRisk(prediction: int, score: int)
    requires prediction != NonDiabeticLabel && prediction != DiabeticLabel
    ensures AdviceOf(prediction, score) != LowRisk
    ensures AdviceOf(prediction, score) == (if score >= HighThreshold then HighRiskGroup else ModerateRisk)
  {
  }

  /** Low-risk guidance implies a healthy lifestyle tier and a "not diabetic" verdict. */
  lemma LowRiskImpliesHealthy(prediction: int, score: int)
    requires AdviceOf(prediction, score) == LowRisk
    ensures TierOf(score) == Healthy
    ensures VerdictOf(prediction) == LowRiskOfDiabetes
  {
  }

  /** A healthy tier with a "not diabetic" label never gives the high-risk guidance. */
  lemma HealthyNonDiabeticNeverHighRisk(score: int)
    requires TierOf(score) == Healthy
    ensures AdviceOf(NonDiabeticLabel, score) != HighRiskGroup
  {
  }

  /** A higher score never gives a less serious tier or guidance. */
  lemma MonotoneInScore(prediction: int, lower: int, higher: int)
    requires lower <= higher
    ensures TierSeverity(TierOf(lower)) <= TierSeverity(TierOf(higher))
    ensures AdviceSeverity(AdviceOf(prediction, lower)) <= AdviceSeverity(AdviceOf(prediction, higher))
  {
  }
}
