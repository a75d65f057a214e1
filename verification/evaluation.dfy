/**
 One submission of the app.py form: the clinical fields go to the predictor as
 a named record, the lifestyle answers go to the scorer, and the decision rules
 turn the two results into the messages shown.
 */
module Evaluation {
  import opened Wrappers
  import opened Predictor
  import Lifestyle
  import Guidance

  /** The eight clinical fields of the form. */
  datatype HealthProfile = HealthProfile(
    pregnancies: int,
    glucose: int,
    bloodPressure: int,
    skinThickness: int,
    insulin: int,
    bmi: real,
    pedigree: real,
    age: int)

  /** What one submission shows: the label and its message, the score, its tier, and the guidance. */
  datatype Report = Report(
    prediction: int,
    verdict: Guidance.Verdict,
    score: int,
    tier: Guidance.Tier,
    advice: Guidance.Advice)

  /**
   The record the form hands the predictor, one entry per clinical field. Its
   keys are exactly the names the predictor reads.
   */
  function UserData(h: HealthProfile): (m: map<string, Value>)
    ensures forall i :: 0 <= i < |FeatureNames| ==> FeatureNames[i] in m
    ensures forall k :: k in m ==> k in FeatureNames
  {
    map[
      "Pregnancies" := IntValue(h.pregnancies),
      "Glucose" := IntValue(h.glucose),
      "BloodPressure" := IntValue(h.bloodPressure),
      "SkinThickness" := IntValue(h.skinThickness),
      "Insulin" := IntValue(h.insulin),
      "BMI" := DecimalValue(h.bmi),
      "DiabetesPedigreeFunction" := DecimalValue(h.pedigree),
      "Age" := IntValue(h.age)
    ]
  }

  /**
   The row the classifier sees for a profile, listed field by field. Entry i is
   what the form's record holds under the i-th feature name, which
   `FeatureNamesMatchTraining` shows is the i-th training column.
   */
  function ProfileRow(h: HealthProfile): (row: seq<Value>)
    ensures |row| == |FeatureNames|
    ensures forall i :: 0 <= i < |row| ==> UserData(h)[FeatureNames[i]] == row[i]
  {
    var row := [IntValue(h.pregnancies), IntValue(h.glucose), IntValue(h.bloodPressure),
                IntValue(h.skinThickness), IntValue(h.insulin), DecimalValue(h.bmi),
                DecimalValue(h.pedigree), IntValue(h.age)];
    RowMatchesRecord(h, row);
    row
  }

  /** The feature names differ pairwise; each differs from the others in its first two letters or its length. */
  lemma FeatureNamesDistinct()
    ensures forall i, j :: 0 <= i < j < |FeatureNames| ==> FeatureNames[i] != FeatureNames[j]
  {
    forall i, j | 0 <= i < j < |FeatureNames|
      ensures FeatureNames[i] != FeatureNames[j]
    {
      var a, b := FeatureNames[i], FeatureNames[j];
      assert |a| >= 2 && |b| >= 2;
      assert a[0] != b[0] || a[1] != b[1] || |a| != |b|;
    }
  }

  /** Listing the fields in the predictor's reading order gives, at each position, the record's entry of that name. */
  lemma RowMatchesRecord(h: HealthProfile, row: seq<Value>)
    requires row == [IntValue(h.pregnancies), IntValue(h.glucose), IntValue(h.bloodPressure),
                     IntValue(h.skinThickness), IntValue(h.insulin), DecimalValue(h.bmi),
                     DecimalValue(h.pedigree), IntValue(h.age)]
    ensures forall i :: 0 <= i < |FeatureNames| ==> UserData(h)[FeatureNames[i]] == row[i]
  {
    var m := UserData(h);
    forall i | 0 <= i < |FeatureNames|
      ensures m[FeatureNames[i]] == row[i]
    {
      if i == 0 {
        assert FeatureNames[0] == "Pregnancies" && m["Pregnancies"] == row[0];
      } else if i == 1 {
        assert FeatureNames[1] == "Glucose" && m["Glucose"] == row[1];
      } else if i == 2 {
        assert FeatureNames[2] == "BloodPressure" && m["BloodPressure"] == row[2];
      } else if i == 3 {
        assert FeatureNames[3] == "SkinThickness" && m["SkinThickness"] == row[3];
      } else if i == 4 {
        assert FeatureNames[4] == "Insulin" && m["Insulin"] == row[4];
      } else if i == 5 {
        assert FeatureNames[5] == "BMI" && m["BMI"] == row[5];
      } else if i == 6 {
        assert FeatureNames[6] == "DiabetesPedigreeFunction" && m["DiabetesPedigreeFunction"] == row[6];
      } else {
        assert FeatureNames[7] == "Age" && m["Age"] == row[7];
      }
    }
  }

  /**
   One submission: the prediction is made first, and only a model that could
   not be loaded makes it fail; then the score is computed and the messages
   are chosen from the two results.
   */
  function Evaluate(model: Option<Classifier>, h: HealthProfile,
                    smoking: string, alcohol: string, activity: string,
                    sleepHours: int, familyHistory: string): (r: Result<Report, Error>)
    ensures r.Err? <==> model.None?
    ensures r.Err? ==> r.error == ModelUnavailable
    ensures r.Ok? ==> r.value.prediction == model.value.decide(ProfileRow(h))
    ensures r.Ok? ==> 0 <= r.value.score <= Lifestyle.MaxScore
    ensures r.Ok? ==> r.value.score == Lifestyle.Total(Lifestyle.Factors,
                        Lifestyle.ProfileOf(smoking, alcohol, activity, sleepHours, familyHistory))
    ensures r.Ok? && r.value.advice == Guidance.LowRisk ==>
              r.value.tier == Guidance.Healthy && r.value.verdict == Guidance.LowRiskOfDiabetes
    ensures r.Ok? && r.value.verdict == Guidance.HighRiskOfDiabetes ==> r.value.advice == Guidance.HighRiskGroup
    ensures r.Ok? ==> && r.value.verdict == Guidance.VerdictOf(r.value.prediction)
                      && r.value.tier == Guidance.TierOf(r.value.score)
                      && r.value.advice == Guidance.AdviceOf(r.value.prediction, r.value.score)
  {
    match DiabetesRisk(model, UserData(h))
    case Err(e) => Err(e)
    case Ok(prediction) =>
      var score := Lifestyle.LifestyleRisk(smoking, alcohol, activity, sleepHours, familyHistory);
      Lifestyle.ScoreIsSumOfFactors(smoking, alcohol, activity, sleepHours, familyHistory);
      Ok(Report(prediction, Guidance.VerdictOf(prediction), score,
                Guidance.TierOf(score), Guidance.AdviceOf(prediction, score)))
  }

  /** Every lifestyle tier and every guidance message is reachable from some answers. */
  lemma EveryMessageReachable()
    ensures Guidance.TierOf(Lifestyle.LifestyleRisk("Yes", "Yes", "Low", 5, "Yes")) == Guidance.High
    ensures Guidance.TierOf(Lifestyle.LifestyleRisk("Yes", "No", "Moderate", 7, "No")) == Guidance.Moderate
    ensures Guidance.TierOf(Lifestyle.LifestyleRisk("No", "No", "High", 8, "No")) == Guidance.Healthy
    ensures Guidance.AdviceOf(0, Lifestyle.LifestyleRisk("No", "No", "High", 8, "No")) == Guidance.LowRisk
    ensures Guidance.AdviceOf(0, Lifestyle.LifestyleRisk("Yes", "No", "Moderate", 7, "No")) == Guidance.ModerateRisk
    ensures Guidance.AdviceOf(1, Lifestyle.LifestyleRisk("No", "No", "High", 8, "No")) == Guidance.HighRiskGroup
  {
  }
}
