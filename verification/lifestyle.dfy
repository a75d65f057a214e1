/**
 The lifestyle scorer of risk_calc.py (`calculate_lifestyle_risk`).

 The scorer takes the form's answers as text and adds points for five
 independent habits. `LifestyleRisk` is the scorer as written, over the raw
 strings it compares. The rule table below it (`Factor`, `Points`, `Total`)
 is an independent description of the same rubric over a parsed `Profile`,
 and the lemmas connect the two and state what the rubric promises.
 */
module Lifestyle {

  /** A yes/no radio answer. Only the exact text "Yes" is a Yes. */
  datatype Answer = Yes | No

  /** An activity band. Any text other than the three listed options is `Other`. */
  datatype Activity = Low | Moderate | High | Other

  /** The largest score the rubric can give, shown to the user as the denominator "/ 9". */
  const MaxScore: int := 9

  /** Sleeping strictly fewer hours than this counts as short sleep. */
  const ShortSleepHours: int := 6

  /** The scorer as written: five checks over the raw answers, each adding its points. */
  function LifestyleRisk(smoking: string, alcohol: string, activity: string,
                         sleepHours: int, familyHistory: string): (score: int)
    ensures 0 <= score <= MaxScore
  {
    (if smoking == "Yes" then 2 else 0)
    + (if alcohol == "Yes" then 1 else 0)
    + (if activity == "Low" then 2 else if activity == "Moderate" then 1 else 0)
    + (if sleepHours < ShortSleepHours then 1 else 0)
    + (if familyHistory == "Yes" then 3 else 0)
  }

  // ---------------------------------------------------------------------------
  // The rubric as a rule table over parsed answers
  // ---------------------------------------------------------------------------

  function AnswerOf(text: string): (a: Answer)
    ensures a == Yes <==> text == "Yes"
  {
    if text == "Yes" then Yes else No
  }

  function ActivityOf(text: string): (a: Activity)
    ensures a == Low <==> text == "Low"
    ensures a == Moderate <==> text == "Moderate"
    ensures a == High <==> text == "High"
    ensures a == Other <==> text !in {"Low", "Moderate", "High"}
  {
    if text == "Low" then Low
    else if text == "Moderate" then Moderate
    else if text == "High" then High
    else Other
  }

  /** The five lifestyle answers of one submission, parsed. */
  datatype Profile = Profile(smoking: Answer, alcohol: Answer, activity: Activity,
                             sleepHours: int, familyHistory: Answer)

  function ProfileOf(smoking: string, alcohol: string, activity: string,
                     sleepHours: int, familyHistory: string): Profile
  {
    Profile(AnswerOf(smoking), AnswerOf(alcohol), ActivityOf(activity),
            sleepHours, AnswerOf(familyHistory))
  }

  /** The habits the rubric looks at; each row of the rule table is about one of them. */
  datatype Factor = Smoking | Alcohol | PhysicalActivity | Sleep | FamilyHistory

  /** The rule table, in the order the scorer checks it. */
  const Factors: seq<Factor> := [Smoking, Alcohol, PhysicalActivity, Sleep, FamilyHistory]

  /** The most points a factor can add. */
  function Weight(f: Factor): nat
  {
    match f
    case Smoking => 2
    case Alcohol => 1
    case PhysicalActivity => 2
    case Sleep => 1
    case FamilyHistory => 3
  }

  /** The points one factor adds for a profile: its weight when the riskiest value is given. */
  function Points(f: Factor, p: Profile): (n: nat)
    ensures n <= Weight(f)
    ensures f != PhysicalActivity ==> n == 0 || n == Weight(f)
  {
    match f
    case Smoking => if p.smoking == Yes then 2 else 0
    case Alcohol => if p.alcohol == Yes then 1 else 0
    case PhysicalActivity =>
      (match p.activity
       case Low => 2
       case Moderate => 1
       case _ => 0)
    case Sleep => if p.sleepHours < ShortSleepHours then 1 else 0
    case FamilyHistory => if p.familyHistory == Yes then 3 else 0
  }

  /** The sum of the weights of a list of factors. */
  function MaxTotal(fs: seq<Factor>): nat
  {
    if |fs| == 0 then 0 else Weight(fs[0]) + MaxTotal(fs[1..])
  }

  /** The points a list of factors adds for a profile, each factor counted independently. */
  function Total(fs: seq<Factor>, p: Profile): (t: nat)
    ensures t <= MaxTotal(fs)
  {
    if |fs| == 0 then 0 else Points(fs[0], p) + Total(fs[1..], p)
  }

  // ---------------------------------------------------------------------------
  // The scorer agrees with the rule table
  // ---------------------------------------------------------------------------

  /** The rule table's weights add up to the displayed maximum of 9. */
  lemma MaxTotalIsMaxScore()
    ensures MaxTotal(Factors) == MaxScore
  {
    assert Factors[1..][1..][1..][1..][1..] == [];
  }

  /** The rule table's total is the sum of its five rows. */
  lemma TotalOfFive(p: Profile)
    ensures Total(Factors, p)
         == Points(Smoking, p) + Points(Alcohol, p) + Points(PhysicalActivity, p)
            + Points(Sleep, p) + Points(FamilyHistory, p)
  {
    assert Total([FamilyHistory], p) == Points(FamilyHistory, p) by {
      assert [FamilyHistory][1..] == [];
    }
    assert Total([Sleep, FamilyHistory], p) == Points(Sleep, p) + Total([FamilyHistory], p) by {
      assert [Sleep, FamilyHistory][1..] == [FamilyHistory];
    }
    assert Total([PhysicalActivity, Sleep, FamilyHistory], p)
        == Points(PhysicalActivity, p) + Total([Sleep, FamilyHistory], p) by {
      assert [PhysicalActivity, Sleep, FamilyHistory][1..] == [Sleep, FamilyHistory];
    }
    assert Total([Alcohol, PhysicalActivity, Sleep, FamilyHistory], p)
        == Points(Alcohol, p) + Total([PhysicalActivity, Sleep, FamilyHistory], p) by {
      assert [Alcohol, PhysicalActivity, Sleep, FamilyHistory][1..]
          == [PhysicalActivity, Sleep, FamilyHistory];
    }
    assert Factors[1..] == [Alcohol, PhysicalActivity, Sleep, FamilyHistory];
  }

  /** The score is the sum of the five independent per-factor contributions of the rule table. */
  lemma ScoreIsSumOfFactors(smoking: string, alcohol: string, activity: string,
                            sleepHours: int, familyHistory: string)
    ensures LifestyleRisk(smoking, alcohol, activity, sleepHours, familyHistory)
         == Total(Factors, ProfileOf(smoking, alcohol, activity, sleepHours, familyHistory))
  {
    TotalOfFive(ProfileOf(smoking, alcohol, activity, sleepHours, familyHistory));
  }

  // ---------------------------------------------------------------------------
  // Per-factor contributions
  // ---------------------------------------------------------------------------

  /** Answering "Yes" to smoking gives exactly 2 more than any other answer. */
  lemma SmokingAddsTwo(other: string, alcohol: string, activity: string,
                       sleepHours: int, familyHistory: string)
    requires other != "Yes"
    ensures LifestyleRisk("Yes", alcohol, activity, sleepHours, familyHistory)
         == LifestyleRisk(other, alcohol, activity, sleepHours, familyHistory) + 2
  {
  }

  /** Answering "Yes" to alcohol gives exactly 1 more than any other answer. */
  lemma AlcoholAddsOne(smoking: string, other: string, activity: string,
                       sleepHours: int, familyHistory: string)
    requires other != "Yes"
    ensures LifestyleRisk(smoking, "Yes", activity, sleepHours, familyHistory)
         == LifestyleRisk(smoking, other, activity, sleepHours, familyHistory) + 1
  {
  }

  /** Answering "Yes" to family history gives exactly 3 more than any other answer. */
  lemma FamilyHistoryAddsThree(smoking: string, alcohol: string, activity: string,
                               sleepHours: int, other: string)
    requires other != "Yes"
    ensures LifestyleRisk(smoking, alcohol, activity, sleepHours, "Yes")
         == LifestyleRisk(smoking, alcohol, activity, sleepHours, other) + 3
  {
  }

  /**
   The activity band adds exactly one of 2, 1 or 0 over the "High" band: 2 for
   "Low", 1 for "Moderate", and nothing for "High" or any other text.
   */
  lemma ActivityBands(smoking: string, alcohol: string, activity: string,
                      sleepHours: int, familyHistory: string)
    ensures var extra := LifestyleRisk(smoking, alcohol, activity, sleepHours, familyHistory)
                       - LifestyleRisk(smoking, alcohol, "High", sleepHours, familyHistory);
            && (extra == 2 <==> activity == "Low")
            && (extra == 1 <==> activity == "Moderate")
            && (extra == 0 <==> activity != "Low" && activity != "Moderate")
  {
  }

  /** Short sleep adds exactly 1, and only for strictly fewer than 6 hours: 6 hours adds nothing. */
  lemma SleepBoundary(smoking: string, alcohol: string, activity: string,
                      sleepHours: int, familyHistory: string)
    ensures LifestyleRisk(smoking, alcohol, activity, sleepHours, familyHistory)
         == LifestyleRisk(smoking, alcohol, activity, ShortSleepHours, familyHistory)
            + (if sleepHours < ShortSleepHours then 1 else 0)
    ensures LifestyleRisk(smoking, alcohol, activity, ShortSleepHours, familyHistory)
         == LifestyleRisk(smoking, alcohol, activity, ShortSleepHours + 1, familyHistory)
  {
  }

  // ---------------------------------------------------------------------------
  // Extremes and monotonicity
  // ---------------------------------------------------------------------------

  /** The maximum 9 is reached exactly when every answer is the riskiest one. */
  lemma MaximumOnlyWhenAllRisky(smoking: string, alcohol: string, activity: string,
                                sleepHours: int, familyHistory: string)
    ensures LifestyleRisk(smoking, alcohol, activity, sleepHours, familyHistory) == MaxScore
        <==> smoking == "Yes" && alcohol == "Yes" && activity == "Low"
             && sleepHours < ShortSleepHours && familyHistory == "Yes"
  {
  }

  /** The minimum 0 is reached exactly when no answer adds points. */
  lemma MinimumOnlyWhenNoneRisky(smoking: string, alcohol: string, activity: string,
                                 sleepHours: int, familyHistory: string)
    ensures LifestyleRisk(smoking, alcohol, activity, sleepHours, familyHistory) == 0
        <==> smoking != "Yes" && alcohol != "Yes" && activity != "Low" && activity != "Moderate"
             && sleepHours >= ShortSleepHours && familyHistory != "Yes"
  {
  }

  /** How risky an answer is: Yes above No. */
  function AnswerRank(a: Answer): nat
  {
    if a == Yes then 1 else 0
  }

  /** How risky an activity band is: Low above Moderate above High and any other text. */
  function ActivityRank(a: Activity): nat
  {
    match a
    case Low => 2
    case Moderate => 1
    case _ => 0
  }

  /** `q` is at least as risky as `p` in every habit (fewer sleep hours being riskier). */
  predicate AtLeastAsRisky(q: Profile, p: Profile)
  {
    && AnswerRank(q.smoking) >= AnswerRank(p.smoking)
    && AnswerRank(q.alcohol) >= AnswerRank(p.alcohol)
    && ActivityRank(q.activity) >= ActivityRank(p.activity)
    && q.sleepHours <= p.sleepHours
    && AnswerRank(q.familyHistory) >= AnswerRank(p.familyHistory)
  }

  /** A list of factors never adds fewer points when every factor in it adds at least as many. */
  lemma {:induction false} TotalMonotone(fs: seq<Factor>, p: Profile, q: Profile)
    requires forall i :: 0 <= i < |fs| ==> Points(fs[i], p) <= Points(fs[i], q)
    ensures Total(fs, p) <= Total(fs, q)
    decreases |fs|
  {
    if |fs| > 0 {
      assert forall i :: 0 <= i < |fs[1..]| ==> fs[1..][i] == fs[i + 1];
      TotalMonotone(fs[1..], p, q);
    }
  }

  /** Making any habit riskier, alone or together with others, never lowers the score. */
  lemma RiskierNeverScoresLower(p: Profile, q: Profile)
    requires AtLeastAsRisky(q, p)
    ensures Total(Factors, p) <= Total(Factors, q)
  {
    forall i | 0 <= i < |Factors|
      ensures Points(Factors[i], p) <= Points(Factors[i], q)
    {
    }
    TotalMonotone(Factors, p, q);
  }

  /** Two profiles that differ in one factor only differ in score by that factor's points. */
  lemma OneFactorChanges(p: Profile, q: Profile, f: Factor)
    requires forall g: Factor :: g != f ==> Points(g, p) == Points(g, q)
    ensures Total(Factors, q) - Total(Factors, p) == Points(f, q) - Points(f, p)
  {
    TotalOfFive(p);
    TotalOfFive(q);
  }
}
