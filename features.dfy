/**
 The feature row that app.py hands to the classifier: the form values become
 one row of 21 columns (checkboxes as 1/0, eight columns held constant), two
 engineered columns are added, and the row is reordered by the externally
 loaded `feature_names` list.
 */
module Features {
  import opened Wrappers
  import opened Frames

  /** The values the form widgets supply (app.py:96-150). */
  datatype FormInputs = FormInputs(
    highBP: bool,
    highChol: bool,
    bmi: real,
    smoker: bool,
    physActivity: bool,
    genHlth: int,
    mentHlth: int,
    physHlth: int,
    diffWalk: bool,
    sex: int,
    age: int,
    education: int,
    income: int)

  /** The ranges the widgets themselves enforce; the app does not re-check them. */
  predicate WithinWidgetDomain(form: FormInputs)
  {
    && 15.0 <= form.bmi <= 50.0
    && 1 <= form.genHlth <= 5
    && 0 <= form.mentHlth <= 30
    && 0 <= form.physHlth <= 30
    && (form.sex == 0 || form.sex == 1)
    && 1 <= form.age <= 13
    && 1 <= form.education <= 6
    && 1 <= form.income <= 8
  }

  /** The columns the assembler produces: 21 form columns and 2 engineered ones. */
  datatype Column =
    | HighBP | HighChol | CholCheck | BMI | Smoker | Stroke | HeartDiseaseorAttack
    | PhysActivity | Fruits | Veggies | HvyAlcoholConsump | AnyHealthcare | NoDocbcCost
    | GenHlth | MentHlth | PhysHlth | DiffWalk | Sex | Age | Education | Income
    | RiskFactor | AgeGenHlth

  /** The column label in the frame, as the trained model knows it. */
  function Name(c: Column): string
  {
    match c
    case HighBP => "HighBP"
    case HighChol => "HighChol"
    case CholCheck => "CholCheck"
    case BMI => "BMI"
    case Smoker => "Smoker"
    case Stroke => "Stroke"
    case HeartDiseaseorAttack => "HeartDiseaseorAttack"
    case PhysActivity => "PhysActivity"
    case Fruits => "Fruits"
    case Veggies => "Veggies"
    case HvyAlcoholConsump => "HvyAlcoholConsump"
    case AnyHealthcare => "AnyHealthcare"
    case NoDocbcCost => "NoDocbcCost"
    case GenHlth => "GenHlth"
    case MentHlth => "MentHlth"
    case PhysHlth => "PhysHlth"
    case DiffWalk => "DiffWalk"
    case Sex => "Sex"
    case Age => "Age"
    case Education => "Education"
    case Income => "Income"
    case RiskFactor => "Risk_Factor"
    case AgeGenHlth => "Age_GenHlth"
  }

  /** Every column, in the order the frame is built. */
  const AllColumns: seq<Column> := [
    HighBP, HighChol, CholCheck, BMI, Smoker, Stroke, HeartDiseaseorAttack,
    PhysActivity, Fruits, Veggies, HvyAlcoholConsump, AnyHealthcare, NoDocbcCost,
    GenHlth, MentHlth, PhysHlth, DiffWalk, Sex, Age, Education, Income,
    RiskFactor, AgeGenHlth]

  /** The first of `cols` labelled `name`, if any. */
  function FindColumn(name: string, cols: seq<Column>): (c: Option<Column>)
    ensures c.Some? ==> c.value in cols && Name(c.value) == name
  {
    if cols == [] then None
    else if Name(cols[0]) == name then Some(cols[0])
    else FindColumn(name, cols[1..])
  }

  /** Label lookup: the column a label names, if the frame has one by that label. */
  function ColumnNamed(name: string): Option<Column>
  {
    FindColumn(name, AllColumns)
  }

  /**
   No two columns share a label: the length and the first two characters of a
   label already tell the columns apart.
   */
  lemma NameInjective(c: Column, d: Column)
    ensures Name(c) == Name(d) ==> c == d
  {
    LabelKeyIdentifies(c);
    LabelKeyIdentifies(d);
  }

  function LabelKey(s: string): (int, char, char)
    requires |s| >= 2
  {
    (|s|, s[0], s[1])
  }

  function ColumnWithKey(key: (int, char, char)): Option<Column>
  {
    match key
    case (3, 'B', _) => Some(BMI)
    case (3, 'S', _) => Some(Sex)
    case (3, 'A', _) => Some(Age)
    case (6, 'H', _) => Some(HighBP)
    case (6, 'S', 'm') => Some(Smoker)
    case (6, 'S', 't') => Some(Stroke)
    case (6, 'F', _) => Some(Fruits)
    case (6, 'I', _) => Some(Income)
    case (7, 'V', _) => Some(Veggies)
    case (7, 'G', _) => Some(GenHlth)
    case (8, 'H', _) => Some(HighChol)
    case (8, 'M', _) => Some(MentHlth)
    case (8, 'P', _) => Some(PhysHlth)
    case (8, 'D', _) => Some(DiffWalk)
    case (9, 'C', _) => Some(CholCheck)
    case (9, 'E', _) => Some(Education)
    case (11, 'N', _) => Some(NoDocbcCost)
    case (11, 'R', _) => Some(RiskFactor)
    case (11, 'A', _) => Some(AgeGenHlth)
    case (12, _, _) => Some(PhysActivity)
    case (13, _, _) => Some(AnyHealthcare)
    case (17, _, _) => Some(HvyAlcoholConsump)
    case (20, _, _) => Some(HeartDiseaseorAttack)
    case _ => None
  }

  lemma LabelKeyIdentifies(c: Column)
    ensures |Name(c)| >= 2 && ColumnWithKey(LabelKey(Name(c))) == Some(c)
  {
  }

  /** Searching a column list for a column's own label finds that column. */
  lemma {:induction false} FindOwnLabel(c: Column, cols: seq<Column>)
    requires c in cols
    ensures FindColumn(Name(c), cols) == Some(c)
  {
    if cols[0] == c {
    } else {
      NameInjective(c, cols[0]);
      FindOwnLabel(c, cols[1..]);
    }
  }

  /** Every column is found again by its own label. */
  lemma NameRoundTrip(c: Column)
    ensures ColumnNamed(Name(c)) == Some(c)
  {
    assert c in AllColumns by {
      match c
      case _ =>
    }
    FindOwnLabel(c, AllColumns);
  }

  /** A checkbox as the frame stores it: 1 when checked, 0 when not, nothing else. */
  function Flag(checked: bool): (v: real)
    ensures v == 1.0 <==> checked
    ensures v == 0.0 <==> !checked
  {
    if checked then 1.0 else 0.0
  }

  /**
   Reference definition of the assembled row, one column at a time: the value
   column `c` carries for this form.
   */
  function FieldValue(form: FormInputs, c: Column): (v: real)
    ensures WithinWidgetDomain(form) ==> 0.0 <= v <= 65.0
  {
    match c
    case HighBP => Flag(form.highBP)
    case HighChol => Flag(form.highChol)
    case CholCheck => 1.0
    case BMI => form.bmi
    case Smoker => Flag(form.smoker)
    case Stroke => 0.0
    case HeartDiseaseorAttack => 0.0
    case PhysActivity => Flag(form.physActivity)
    case Fruits => 1.0
    case Veggies => 1.0
    case HvyAlcoholConsump => 0.0
    case AnyHealthcare => 1.0
    case NoDocbcCost => 0.0
    case GenHlth => form.genHlth as real
    case MentHlth => form.mentHlth as real
    case PhysHlth => form.physHlth as real
    case DiffWalk => Flag(form.diffWalk)
    case Sex => form.sex as real
    case Age => form.age as real
    case Education => form.education as real
    case Income => form.income as real
    case RiskFactor => form.bmi * Flag(form.highBP)
    case AgeGenHlth =>
      var v := (form.age as real) * (form.genHlth as real);
      assert WithinWidgetDomain(form) ==> 0.0 <= v <= 65.0 by {
        if WithinWidgetDomain(form) {
          ProductOfCodes(form.age, form.genHlth);
        }
      }
      v
  }

  /** The value a label selects from the assembled row, or None for an unknown label. */
  function ValueNamed(form: FormInputs, name: string): Option<real>
  {
    match ColumnNamed(name)
    case Some(c) => Some(FieldValue(form, c))
    case None => None
  }

  /** Whether `c` is one of the two engineered columns. */
  predicate Engineered(c: Column)
  {
    c == RiskFactor || c == AgeGenHlth
  }

  /**
   The frame built from the form (the `pd.DataFrame` call): the 21 form columns,
   without the engineered ones, each holding its reference value.
   */
  function FormFrame(form: FormInputs): (frame: map<Column, real>)
    ensures forall c :: c in frame <==> !Engineered(c)
    ensures forall c :: c in frame ==> frame[c] == FieldValue(form, c)
  {
    map c: Column | !Engineered(c) :: FieldValue(form, c)
  }

  /**
   The one-row frame of app.py once feature engineering has added the two
   derived columns, computed from the already encoded columns. It holds every
   column, each with the value FieldValue defines.
   */
  method AssembleFrame(form: FormInputs) returns (frame: map<Column, real>)
    ensures forall c :: c in frame && frame[c] == FieldValue(form, c)
  {
    frame := FormFrame(form);
    frame := frame[RiskFactor := frame[BMI] * frame[HighBP]];
    frame := frame[AgeGenHlth := frame[Age] * frame[GenHlth]];
  }

  /**
   The data preparation of app.py: assemble the frame, then project it onto
   `featureNames`. Entry i of the result is the value the assembled row holds
   under featureNames[i]; a label the assembler does not produce is an error,
   never a default.
   */
  method PrepareInput(form: FormInputs, featureNames: seq<string>)
    returns (r: Result<seq<real>, SchemaError>)
    ensures r.Ok? <==> forall i :: 0 <= i < |featureNames| ==> ValueNamed(form, featureNames[i]).Some?
    ensures r.Ok? ==> |r.value| == |featureNames|
    ensures r.Ok? ==> forall i :: 0 <= i < |featureNames| ==> ValueNamed(form, featureNames[i]) == Some(r.value[i])
    ensures r.Err? ==> forall n :: n in r.error.names <==> n in featureNames && ValueNamed(form, n) == None
  {
    var frame := AssembleFrame(form);
    r := Select(frame, ColumnNamed, featureNames);
  }

  // Properties of the assembled row.

  /** Each checkbox column is 1 exactly when the box is checked and 0 exactly when it is not. */
  lemma CheckboxesAreBinary(form: FormInputs)
    ensures (FieldValue(form, HighBP) == 1.0 <==> form.highBP) && (FieldValue(form, HighBP) == 0.0 <==> !form.highBP)
    ensures (FieldValue(form, HighChol) == 1.0 <==> form.highChol) && (FieldValue(form, HighChol) == 0.0 <==> !form.highChol)
    ensures (FieldValue(form, Smoker) == 1.0 <==> form.smoker) && (FieldValue(form, Smoker) == 0.0 <==> !form.smoker)
    ensures (FieldValue(form, PhysActivity) == 1.0 <==> form.physActivity) && (FieldValue(form, PhysActivity) == 0.0 <==> !form.physActivity)
    ensures (FieldValue(form, DiffWalk) == 1.0 <==> form.diffWalk) && (FieldValue(form, DiffWalk) == 0.0 <==> !form.diffWalk)
  {
  }

  /** The eight columns the form does not ask about. */
  predicate Fixed(c: Column)
  {
    c in {CholCheck, Stroke, HeartDiseaseorAttack, Fruits, Veggies, HvyAlcoholConsump, AnyHealthcare, NoDocbcCost}
  }

  /** The fixed columns hold the same value whatever the form says. */
  lemma FixedColumnsIgnoreForm(form: FormInputs, other: FormInputs, c: Column)
    requires Fixed(c)
    ensures FieldValue(form, c) == FieldValue(other, c)
  {
  }

  /** The constants the fixed columns hold. */
  lemma FixedColumnValues(form: FormInputs)
    ensures FieldValue(form, CholCheck) == 1.0 && FieldValue(form, Stroke) == 0.0
    ensures FieldValue(form, HeartDiseaseorAttack) == 0.0 && FieldValue(form, Fruits) == 1.0
    ensures FieldValue(form, Veggies) == 1.0 && FieldValue(form, HvyAlcoholConsump) == 0.0
    ensures FieldValue(form, AnyHealthcare) == 1.0 && FieldValue(form, NoDocbcCost) == 0.0
  {
  }

  /**
   Risk_Factor is the BMI column times the encoded HighBP column: zero when the
   box is unchecked, the BMI itself when it is checked. Since the form's BMI is
   at least 15, it is zero exactly when the box is unchecked.
   */
  lemma RiskFactorFollowsHighBP(form: FormInputs)
    ensures FieldValue(form, RiskFactor) == FieldValue(form, BMI) * FieldValue(form, HighBP)
    ensures !form.highBP ==> FieldValue(form, RiskFactor) == 0.0
    ensures form.highBP ==> FieldValue(form, RiskFactor) == form.bmi
    ensures WithinWidgetDomain(form) ==> (FieldValue(form, RiskFactor) == 0.0 <==> !form.highBP)
  {
  }

  /**
   Age_GenHlth multiplies the raw age code (not an age in years) by GenHlth,
   so within the widget ranges it lies between 1 and 65.
   */
  lemma AgeGenHlthRange(form: FormInputs)
    requires WithinWidgetDomain(form)
    ensures FieldValue(form, AgeGenHlth) == FieldValue(form, Age) * FieldValue(form, GenHlth)
    ensures FieldValue(form, Age) == form.age as real
    ensures 1.0 <= FieldValue(form, AgeGenHlth) <= 65.0
  {
    ProductOfCodes(form.age, form.genHlth);
  }

  /** The product of an age code and a health rating, both as reals, stays within 1..65. */
  lemma ProductOfCodes(a: int, g: int)
    requires 1 <= a <= 13 && 1 <= g <= 5
    ensures 1.0 <= (a as real) * (g as real) <= 65.0
  {
    assert 1 <= a * g <= 65 by {
      assert a * g <= 13 * g <= 65;
      assert a * g >= 1 * g >= 1;
    }
    assert (a as real) * (g as real) == (a * g) as real;
  }

  /** A column's own label selects that column's value. */
  lemma LabelSelectsColumn(form: FormInputs, c: Column)
    ensures ValueNamed(form, Name(c)) == Some(FieldValue(form, c))
  {
    NameRoundTrip(c);
  }

  /** A label selects nothing exactly when no column carries it. */
  lemma UnknownLabel(form: FormInputs, name: string)
    ensures ValueNamed(form, name).None? <==> forall c :: Name(c) != name
  {
    if c :| Name(c) == name {
      NameRoundTrip(c);
    }
  }
}
