# MediPredict rule engine, in Dafny

A model of the decision logic in MediPredict, a small diabetes-risk form. One
submission works like this. The eight clinical fields are gathered into a
named record. The predictor reads them out in the training column order and
asks a pre-trained classifier for a label (1 = likely diabetic, 0 = not). The
five lifestyle answers are scored by an additive rubric from 0 to 9. The app
then picks three messages: one for the label, a lifestyle tier for the score,
and an overall guidance that combines the two.

Files and modules:

- `wrappers.dfy` (`Wrappers`): `Option` and `Result`. These carry the two ways a prediction can fail.
- `lifestyle.dfy` (`Lifestyle`): `calculate_lifestyle_risk`. `LifestyleRisk` is the scorer as written. It works over the raw answer strings and compares them exactly as the source does. `Profile`, `Factor`, `Points` and `Total` restate the same rubric as a rule table over parsed answers. This is the independent reference the lemmas compare against.
- `predictor.dfy` (`Predictor`): `calculate_diabetes_risk`. It covers the training column list, building the feature row by name, and the opaque classifier.
- `guidance.dfy` (`Guidance`): the three decision rules of `app.py`.
- `evaluation.dfy` (`Evaluation`): one form submission, end to end.

Modelling choices:

- The classifier is a `Classifier` wrapping a total function from a feature row to an integer label. scikit-learn's `predict` labels every row of a batch on its own, so `PredictBatch` applies that function row by row.
- The model file is loaded once, when `risk_calc.py` is imported. The result of that load is an `Option<Classifier>`. A file that cannot be loaded makes the import raise, so nothing is ever predicted. The model shows this as `Err(ModelUnavailable)` from every prediction.
- A missing key in the submitted record makes Python raise `KeyError`. The model shows this as `Err(MissingField(name))`, naming the first missing name in reading order.
- The label stays an `int`. `app.py` tests `== 1` and `== 0`. Any other label fails both label tests, so the guidance follows the score alone: high risk from 6, moderate below.
- The answers stay strings. Only the exact text `"Yes"` scores for smoking, alcohol and family history. `"Low"` and `"Moderate"` are the only activity texts that score; any other activity text adds 0.

## Model

| member | source | states |
|---|---|---|
| `Lifestyle.LifestyleRisk` | risk_calc.py:7-24 | Every score lies between 0 and the displayed maximum 9, whatever the answers. |
| `Lifestyle.AnswerOf` | risk_calc.py:12-15 | An answer counts as Yes exactly when its text is "Yes". |
| `Lifestyle.ActivityOf` | risk_calc.py:16-19 | "Low", "Moderate" and "High" are the only named bands. Every other text is the fall-through band. |
| `Lifestyle.Points` | risk_calc.py:11-23 | Each rule adds at most its weight (2, 1, 2, 1, 3). Every rule except activity adds all of its weight or nothing. |
| `Lifestyle.Total` | risk_calc.py:11-24 | The points of a list of rules never exceed the sum of their weights. |
| `Lifestyle.MaxTotalIsMaxScore` | risk_calc.py:11-24 | The weights of the five rules add up to 9. |
| `Lifestyle.TotalOfFive` | risk_calc.py:11-24 | The rule table's total is the sum of its five independent rows. |
| `Lifestyle.ScoreIsSumOfFactors` | risk_calc.py:11-24 | For all inputs, the scorer equals the rule-table sum of the five per-factor contributions. |
| `Lifestyle.SmokingAddsTwo` | risk_calc.py:12-13 | With everything else fixed, smoking "Yes" scores exactly 2 more than any other smoking text. |
| `Lifestyle.AlcoholAddsOne` | risk_calc.py:14-15 | With everything else fixed, alcohol "Yes" scores exactly 1 more than any other alcohol text. |
| `Lifestyle.FamilyHistoryAddsThree` | risk_calc.py:22-23 | With everything else fixed, family history "Yes" scores exactly 3 more than any other text. |
| `Lifestyle.ActivityBands` | risk_calc.py:16-19 | Compared with "High", activity adds exactly one of 2, 1 or 0: 2 iff "Low", 1 iff "Moderate", 0 otherwise. The bands never both fire. |
| `Lifestyle.SleepBoundary` | risk_calc.py:20-21 | Sleep adds 1 iff the hours are strictly below 6. Six hours scores the same as seven. |
| `Lifestyle.MaximumOnlyWhenAllRisky` | risk_calc.py:11-24 | The score is 9 iff the answers are Yes, Yes, "Low", fewer than 6 hours of sleep, and Yes. |
| `Lifestyle.MinimumOnlyWhenNoneRisky` | risk_calc.py:11-24 | The score is 0 iff no answer is "Yes", the activity is neither "Low" nor "Moderate", and sleep is at least 6 hours. |
| `Lifestyle.TotalMonotone` | risk_calc.py:11-24 | If each rule adds at least as much for one profile as for another, so does their sum. |
| `Lifestyle.RiskierNeverScoresLower` | risk_calc.py:11-24 | Making any habits riskier, one or several at once, never lowers the score. Fewer sleep hours count as riskier. |
| `Lifestyle.OneFactorChanges` | risk_calc.py:11-24 | Two profiles that differ in one factor differ in score by exactly that factor's change in points. |
| `Guidance.VerdictOf` | app.py:55-58 | The high-risk model message is shown iff the label is 1. |
| `Guidance.TierOf` | app.py:64-69 | The tier is High iff score ≥ 6, Moderate iff 3 ≤ score < 6, Healthy iff score < 3. Exactly one tier applies. |
| `Guidance.AdviceOf` | app.py:74-79 | High-risk guidance iff label 1 or score ≥ 6. Low-risk iff label 0 and score < 3. Moderate in every other case. |
| `Guidance.AdviceIsWorseOfLabelAndTier` | app.py:64-79 | The guidance is the more serious of the label's severity and the tier's severity. An unexpected label counts as moderate. |
| `Guidance.DiabeticLabelDominates` | app.py:74-75 | Label 1 gives high-risk guidance whatever the score. |
| `Guidance.NonDiabeticFollowsTier` | app.py:64-79 | With label 0, the guidance has exactly the lifestyle tier's severity. |
| `Guidance.ModerateForBinaryLabels` | app.py:74-79 | For labels 0 and 1, moderate guidance means exactly label 0 with a score from 3 to 5. |
| `Guidance.UnexpectedLabelNeverLowRisk` | app.py:74-79 | A label other than 0 or 1 never gives low-risk guidance. It gives high-risk from a score of 6, and moderate below that. |
| `Guidance.LowRiskImpliesHealthy` | app.py:64-79 | Low-risk guidance implies the Healthy tier and the low-risk model message. |
| `Guidance.HealthyNonDiabeticNeverHighRisk` | app.py:64-79 | A Healthy tier with label 0 never gives high-risk guidance. |
| `Guidance.MonotoneInScore` | app.py:64-79 | For a fixed label, a higher score never gives a less serious tier or a less serious guidance. |
| `Predictor.Without` | diabetes_model.py:14 | Filtering out a column name removes every copy of it and keeps every other column as many times as it occurred. A name that is absent leaves the list unchanged. |
| `Predictor.WithoutOne` | diabetes_model.py:14 | A single column is kept iff it is not the dropped name. |
| `Predictor.WithoutAppend` | diabetes_model.py:14 | Filtering a concatenation filters each part in place. With `WithoutOne`, this fixes the result as the other columns in their original order. |
| `Predictor.DropColumn` | diabetes_model.py:14 | Dropping a column fails with a missing-key error iff the column is absent. Otherwise the list gets shorter and is the order-preserving filter `Without`: exactly the other columns, in their original order. |
| `Predictor.WithoutKeepsAll` | diabetes_model.py:14 | If the filter keeps as many columns as it was given, the dropped name was not among them. |
| `Predictor.OutcomeIsLastColumn` | diabetes_model.py:7-10 | The training columns are the eight feature names followed by "Outcome", and "Outcome" is not a feature name. |
| `Predictor.DropTrailingColumn` | diabetes_model.py:7-14 | Filtering out a column that appears only at the end gives back the columns before it, in order. |
| `Predictor.FeatureNamesMatchTraining` | risk_calc.py:41-50 | Dropping "Outcome" from the training columns succeeds and gives exactly the eight names the predictor reads, in the same order. |
| `Predictor.FeatureRow` | risk_calc.py:41-50 | Building a row succeeds iff every name is in the record. The row then has one entry per name, and entry i is the record's value for name i. Otherwise it fails with the first missing name. |
| `Predictor.DiabetesRisk` | risk_calc.py:41-53 | The prediction fails iff the model could not be loaded or a feature is missing. With a loaded model, the error names the first missing feature in reading order. Otherwise the result is the classifier's label for the row built in the feature order, with no transformation. |
| `Predictor.PredictBatch` | risk_calc.py:52 | A batch prediction gives one label per row. |
| `Predictor.SingleRowPrediction` | risk_calc.py:52-53 | The first label for a one-row batch is the classifier's label for that row. |
| `Evaluation.ProfileRow` | risk_calc.py:41-50 | The row has one entry per feature name. Entry i is what the form's record holds under the i-th feature name, which is the i-th training column. |
| `Evaluation.FeatureNamesDistinct` | diabetes_model.py:7-10 | No two feature names are equal, so no field can shadow another in the record. |
| `Evaluation.RowMatchesRecord` | risk_calc.py:41-50 | Listing the profile's fields in the predictor's reading order gives, at each position, the record's entry under that name. |
| `Evaluation.UserData` | app.py:35-44 | The form's record has a key for every feature name the predictor reads, and no other keys. |
| `Evaluation.Evaluate` | app.py:46-79 | A submission fails iff the model is unavailable. Otherwise the label is the classifier's label for the profile's row, and the score is the rule-table sum, within 0..9. The messages shown are the label's verdict, the score's tier, and the guidance for the label and score. Low-risk guidance comes only with a Healthy tier and the low-risk model message. The high-risk model message always comes with high-risk guidance. |
| `Evaluation.EveryMessageReachable` | app.py:61-79 | The scorer's range reaches every tier and every guidance message: scores 9, 3 and 0 give High, Moderate and Healthy. |

## Left out

- The Streamlit page (app.py:1-30 and the rendering calls in app.py:52-81) is not modelled. Only the choice of message is. The form's widget ranges are not used as preconditions, because none of the modelled rules depends on them.
- `joblib.load` (risk_calc.py:5) reads a file. Its result is a parameter of type `Option<Classifier>`.
- The internals of `model.predict` (a scikit-learn random forest) are not modelled. The classifier is an arbitrary function from rows to integer labels, so no claim is made that labels are 0 or 1.
- The training script (diabetes_model.py) is left out apart from its column list and the drop of "Outcome". It does CSV I/O, a random split, fitting and serialisation.
- BMI and the pedigree function are floats in the source. They are carried as `real` values, and nothing is computed with them. numpy's conversion of the row to one float array is not modelled.
- Sleep hours are an integer, as the slider produces. A fractional number of hours would compare against 6 the same way.
- The `__main__` test block (risk_calc.py:56-69) is not modelled, because its output depends on the trained model.
