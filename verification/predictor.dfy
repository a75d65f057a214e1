/**
 The risk predictor of risk_calc.py (`calculate_diabetes_risk`): it reads the
 eight clinical fields out of the submitted record by name, in a fixed order,
 and asks the trained classifier for the label of that one row.

 The classifier itself is opaque. It is modelled as a total function from a
 feature row to a label, and the model file it is loaded from as an optional
 classifier: a file that cannot be loaded is `None`.
 */
module Predictor {
  import opened Wrappers

  /** One feature value. The clinical form gives integers and decimal numbers. */
  datatype Value = IntValue(n: int) | DecimalValue(x: real)

  /** The trained classifier: the label it gives one feature row. */
  datatype Classifier = Classifier(decide: seq<Value> -> int)

  /** What can go wrong when predicting. */
  datatype Error =
    | MissingField(name: string)   // a name that is not present
    | ModelUnavailable              // the model file could not be loaded

  /** The columns of the training data, the label column last. */
  const TrainingColumns: seq<string> :=
    ["Pregnancies", "Glucose", "BloodPressure", "SkinThickness", "Insulin",
     "BMI", "DiabetesPedigreeFunction", "Age", "Outcome"]

  /** The training data's label column, which is dropped from the features. */
  const OutcomeColumn: string := "Outcome"

  /** The names the predictor reads from the submitted record, in the order it reads them. */
  const FeatureNames: seq<string> :=
    ["Pregnancies", "Glucose", "BloodPressure", "SkinThickness", "Insulin",
     "BMI", "DiabetesPedigreeFunction", "Age"]

  /** The columns other than the given one, in their original order. */
  function Without(columns: seq<string>, name: string): (kept: seq<string>)
    ensures forall c :: c in kept <==> c in columns && c != name
    ensures |kept| <= |columns|
    ensures name !in columns ==> kept == columns
    ensures multiset(kept)[name] == 0
    ensures forall c :: c != name ==> multiset(kept)[c] == multiset(columns)[c]
  {
    if |columns| == 0 then []
    else
      assert columns == [columns[0]] + columns[1..];
      if columns[0] == name then Without(columns[1..], name)
      else [columns[0]] + Without(columns[1..], name)
  }

  /**
   Dropping a column by name: every column of that name is removed, and a name
   that is not a column raises a missing-key error.
   */
  function DropColumn(columns: seq<string>, name: string): (r: Result<seq<string>, Error>)
    ensures r.Err? <==> name !in columns
    ensures r.Err? ==> r.error == MissingField(name)
    ensures r.Ok? ==> |r.value| < |columns|
    ensures r.Ok? ==> forall c :: c in r.value <==> c in columns && c != name
    ensures r.Ok? ==> r.value == Without(columns, name)
  {
    if name !in columns then Err(MissingField(name))
    else
      var kept := Without(columns, name);
      assert name !in kept;
      assert |kept| != |columns| by {
        if |kept| == |columns| { WithoutKeepsAll(columns, name); }
      }
      Ok(kept)
  }

  /** Filtering one column keeps it exactly when it is not the dropped name. */
  lemma WithoutOne(c: string, name: string)
    ensures Without([c], name) == if c == name then [] else [c]
  {
    assert [c][1..] == [];
  }

  /** Filtering a concatenation filters each part in place, so the kept columns stay in order. */
  lemma {:induction false} WithoutAppend(a: seq<string>, b: seq<string>, name: string)
    ensures Without(a + b, name) == Without(a, name) + Without(b, name)
  {
    if |a| == 0 {
      assert a + b == b;
    } else {
      assert (a + b)[0] == a[0];
      assert (a + b)[1..] == a[1..] + b;
      WithoutAppend(a[1..], b, name);
    }
  }

  /** A filter that keeps as many columns as it was given removed none of them. */
  lemma {:induction false} WithoutKeepsAll(columns: seq<string>, name: string)
    requires |Without(columns, name)| == |columns|
    ensures name !in columns
  {
    if |columns| > 0 && columns[0] != name {
      WithoutKeepsAll(columns[1..], name);
      assert columns == [columns[0]] + columns[1..];
    }
  }

  /**
   The predictor reads exactly the training feature columns, in the training
   order: the i-th value of every row it builds is the i-th training column.
   */
  lemma FeatureNamesMatchTraining()
    ensures DropColumn(TrainingColumns, OutcomeColumn) == Ok(FeatureNames)
    ensures |FeatureNames| == 8
  {
    OutcomeIsLastColumn();
    DropTrailingColumn(FeatureNames, OutcomeColumn);
    var columns := FeatureNames + [OutcomeColumn];
    assert OutcomeColumn in columns by {
      assert columns[|columns| - 1] == OutcomeColumn;
    }
    var r := DropColumn(columns, OutcomeColumn);
    assert r == Ok(Without(columns, OutcomeColumn));
  }

  /** The label column is the last training column and is not one of the feature names. */
  lemma OutcomeIsLastColumn()
    ensures TrainingColumns == FeatureNames + [OutcomeColumn]
    ensures OutcomeColumn !in FeatureNames
  {
    forall i | 0 <= i < |FeatureNames|
      ensures FeatureNames[i] != OutcomeColumn
    {
      assert FeatureNames[i][0] != OutcomeColumn[0] || |FeatureNames[i]| != |OutcomeColumn|;
    }
  }

  /** Dropping a column that only appears last leaves the columns before it unchanged. */
  lemma {:induction false} DropTrailingColumn(columns: seq<string>, name: string)
    requires name !in columns
    ensures Without(columns + [name], name) == columns
  {
    if |columns| > 0 {
      assert (columns + [name])[1..] == columns[1..] + [name];
      DropTrailingColumn(columns[1..], name);
      assert [columns[0]] + columns[1..] == columns;
    } else {
      assert ([] + [name])[1..] == [];
    }
  }

  /**
   The row of values a record holds under the given names, in that order; a
   name the record lacks fails with the first such name.
   */
  function FeatureRow<V>(names: seq<string>, record: map<string, V>): (r: Result<seq<V>, Error>)
    ensures r.Ok? <==> forall i :: 0 <= i < |names| ==> names[i] in record
    ensures r.Ok? ==> |r.value| == |names|
    ensures r.Ok? ==> forall i :: 0 <= i < |names| ==> names[i] in record && r.value[i] == record[names[i]]
    ensures r.Err? ==> exists j :: 0 <= j < |names| && r.error == MissingField(names[j])
                                   && names[j] !in record
                                   && forall i :: 0 <= i < j ==> names[i] in record
  {
    if |names| == 0 then Ok([])
    else if names[0] !in record then Err(MissingField(names[0]))
    else
      match FeatureRow(names[1..], record)
      case Err(e) => Err(e)
      case Ok(rest) => Ok([record[names[0]]] + rest)
  }

  /**
   The prediction for one submitted record: the classifier's label for the row
   of the eight feature fields, passed back untransformed. It fails when the
   model could not be loaded, and otherwise when a field is missing.
   */
  function DiabetesRisk(model: Option<Classifier>, record: map<string, Value>): (r: Result<int, Error>)
    ensures model.None? ==> r == Err(ModelUnavailable)
    ensures model.Some? && r.Err? ==>
              exists j :: 0 <= j < |FeatureNames| && r.error == MissingField(FeatureNames[j])
                          && FeatureNames[j] !in record
                          && forall i :: 0 <= i < j ==> FeatureNames[i] in record
    ensures r.Ok? <==> model.Some? && forall i :: 0 <= i < |FeatureNames| ==> FeatureNames[i] in record
    ensures r.Ok? ==> forall row: seq<Value> ::
              |row| == |FeatureNames| && (forall i :: 0 <= i < |row| ==> row[i] == record[FeatureNames[i]])
              ==> r.value == model.value.decide(row)
  {
    match model
    case None => Err(ModelUnavailable)
    case Some(classifier) =>
      match FeatureRow(FeatureNames, record)
      case Err(e) => Err(e)
      case Ok(row) =>
        SingleRowPrediction(classifier, row);
        assert forall other: seq<Value> ::
          |other| == |FeatureNames| && (forall i :: 0 <= i < |other| ==> other[i] == record[FeatureNames[i]])
          ==> other == row;
        Ok(PredictBatch(classifier, [row])[0])
  }

  /** The classifier's labels for a batch of rows, one per row, each from that row alone. */
  function PredictBatch(classifier: Classifier, rows: seq<seq<Value>>): (labels: seq<int>)
    ensures |labels| == |rows|
  {
    seq(|rows|, i requires 0 <= i < |rows| => classifier.decide(rows[i]))
  }

  /** The prediction for a batch of one row is the classifier's label for that row. */
  lemma SingleRowPrediction(classifier: Classifier, row: seq<Value>)
    ensures PredictBatch(classifier, [row]) == [classifier.decide(row)]
  {
  }
}
