/**
 One run of the page from form to result panel: prepare the feature row, ask
 the classifier for the probability of the positive class, and derive the
 panel from it. The classifier is a parameter; a row that cannot be prepared
 stops the run before any probability exists.
 */
module Analysis {
  import opened Wrappers
  import opened Frames
  import opened Features
  import opened Risk

  /**
   Prepares the row and, only when that succeeds, assesses the probability
   `probabilityOf` assigns to it. A schema error never yields an assessment.
   */
  method Analyze(form: FormInputs, featureNames: seq<string>, probabilityOf: seq<real> -> real)
    returns (row: Result<seq<real>, SchemaError>, outcome: Option<Assessment>)
    ensures row.Ok? <==> forall i :: 0 <= i < |featureNames| ==> ValueNamed(form, featureNames[i]).Some?
    ensures row.Ok? ==> |row.value| == |featureNames|
    ensures row.Ok? ==> forall i :: 0 <= i < |featureNames| ==> ValueNamed(form, featureNames[i]) == Some(row.value[i])
    ensures row.Err? ==> forall n :: n in row.error.names <==> n in featureNames && ValueNamed(form, n) == None
    ensures outcome.Some? <==> row.Ok?
    ensures row.Ok? ==> outcome.value == Assess(probabilityOf(row.value))
  {
    row := PrepareInput(form, featureNames);
    if row.Ok? {
      outcome := Some(Assess(probabilityOf(row.value)));
    } else {
      outcome := None;
    }
  }

  /**
   Projecting the assembled frame (every column, each with its value) onto a
   feature list made of the assembler's own column labels, in any order and
   with any repetition, always succeeds and yields those columns' values in
   the list's order.
   */
  lemma ColumnLabelsResolve(form: FormInputs, cols: seq<Column>)
    ensures Select(map c: Column :: FieldValue(form, c), ColumnNamed, seq(|cols|, i requires 0 <= i < |cols| => Name(cols[i])))
         == Ok(seq(|cols|, i requires 0 <= i < |cols| => FieldValue(form, cols[i])))
  {
    var frame := map c: Column :: FieldValue(form, c);
    var labels := seq(|cols|, i requires 0 <= i < |cols| => Name(cols[i]));
    var values := seq(|cols|, i requires 0 <= i < |cols| => FieldValue(form, cols[i]));
    forall i | 0 <= i < |labels|
      ensures ColumnNamed(labels[i]) == Some(cols[i])
    {
      NameRoundTrip(cols[i]);
    }
    var r := Select(frame, ColumnNamed, labels);
    assert r.Ok?;
    assert r.value == values;
  }

  /** The worked example: a form with high blood pressure, BMI 32.5, health rating 4 and age code 9. */
  const ExampleForm: FormInputs := FormInputs(
    highBP := true, highChol := false, bmi := 32.5, smoker := false, physActivity := true,
    genHlth := 4, mentHlth := 5, physHlth := 3, diffWalk := false,
    sex := 1, age := 9, education := 4, income := 5)

  /**
   The example's engineered columns are 32.5 and 36, and a probability of 0.62
   for it is a high tier with a positive finding.
   */
  lemma WorkedExample()
    ensures WithinWidgetDomain(ExampleForm)
    ensures FieldValue(ExampleForm, RiskFactor) == 32.5
    ensures FieldValue(ExampleForm, AgeGenHlth) == 36.0
    ensures Assess(0.62) == Assessment(High, 0.62, RiskDetected)
  {
  }
}
