# Diabetes risk form: a Dafny model

`app.py` is a single-page form. It collects health-survey answers and turns
them into the feature row of a pre-trained diabetes classifier. It reports the
classifier's probability as a three-band risk tier, a progress bar and a
recommendation based on a threshold. A sidebar calculator computes a
body-mass index and its category. This project models the deterministic parts:

- **Feature assembly** (`Features`, `Frames`). The form becomes a one-row frame
  of 21 columns: checkboxes become 1/0 and eight survey columns hold fixed
  values. The frame gains the engineered columns `Risk_Factor = BMI * HighBP`
  and `Age_GenHlth = Age * GenHlth`. It is then projected, by label, onto the
  externally loaded `feature_names` list.
  - Columns are a datatype, and `Name` gives each one its label.
  - `FieldValue` is the reference definition of each column's value.
  - `AssembleFrame` builds the frame step by step, as the source does, and is
    proved to agree with `FieldValue`.
  - Label projection, `frame[feature_names]`, is `Frames.Select`. It either
    reorders the values into the list's order or fails with an error naming
    every absent label.
- **Risk decision** (`Risk`). Tiers are Low below 0.3, Medium below 0.6 and
  High otherwise. The progress bar's fill is `min(p, 1.0)`. The recommendation
  is positive when `p > 0.3`. The two comparisons disagree at exactly
  p = 0.3: the tier is Medium but the recommendation is negative.
- **BMI calculator** (`BodyMass`). The index is weight over the square of the
  height in metres. Categories cut at 18.5, 25 and 30.
- **Age-group labels** (`AgeLabels`, with `Decimal` for the digits of an
  integer). These are the texts the age select box shows for codes 1..13.
- **One run** (`Analysis`). Prepare the row, apply the classifier (a
  parameter) and assess the probability. A schema error yields no assessment.

Probabilities, BMI and all column values are `real`, so in the model the
boundary cases (0.3, 0.6, 18.5, 25, 30) are exact. The program computes in
IEEE doubles, which can land just below a boundary (see "## Left out").

## Model

| member | source | states |
|---|---|---|
| Frames.MissingLabels | app.py:261 | a label is reported missing exactly when it is one of the selected labels and selects no column of the frame |
| Frames.Take | app.py:261 | when every label selects a column, the row has one entry per label and entry i is the frame's value under label i |
| Frames.Select | app.py:261 | projection succeeds exactly when every label selects a column; it then yields the labels' values in label order, and otherwise fails with a non-empty error listing exactly the absent labels |
| Features.FindColumn | app.py:261 | a column found for a label is one of the searched columns and carries that label |
| Features.Flag | app.py:232-248 | a checkbox is stored as 1 exactly when checked and as 0 exactly when not |
| Features.FieldValue | app.py:231-258 | the reference value of each of the 23 columns; within the widget ranges every column lies in 0..65 (its per-column values are what CheckboxesAreBinary, FixedColumnValues, RiskFactorFollowsHighBP and AgeGenHlthRange state) |
| Features.FormFrame | app.py:231-253 | the frame the `pd.DataFrame` call builds holds exactly the 21 form columns, not the two engineered ones, each with its reference value |
| Features.NameInjective | app.py:231-258 | no two columns of the frame share a label |
| Features.FindOwnLabel | app.py:261 | searching columns that include c for c's label finds c itself |
| Features.NameRoundTrip | app.py:261 | looking up any column's label in the frame's label index finds that column |
| Features.AssembleFrame | app.py:231-258 | the frame after feature engineering holds every one of the 23 columns, each with the value the form and the derivation rules give it |
| Features.PrepareInput | app.py:231-261 | the prepared row exists exactly when every listed feature name is a column label; it then has one entry per name, entry i being that column's assembled value, and otherwise the error names exactly the unknown labels |
| Features.CheckboxesAreBinary | app.py:232-248 | each checkbox column is 1 exactly when its box is checked and 0 exactly when it is not |
| Features.FixedColumnsIgnoreForm | app.py:234-244 | the eight columns the form does not ask about have the same value for every form |
| Features.FixedColumnValues | app.py:234-244 | CholCheck, Fruits, Veggies and AnyHealthcare are 1; Stroke, HeartDiseaseorAttack, HvyAlcoholConsump and NoDocbcCost are 0 |
| Features.RiskFactorFollowsHighBP | app.py:257 | Risk_Factor is the BMI column times the HighBP column: 0 when unchecked, the BMI when checked, and (with the BMI input's lower bound of 15) 0 only when unchecked |
| Features.AgeGenHlthRange | app.py:258 | Age_GenHlth is the Age column times the GenHlth column; the Age column is the raw code, not an age in years; within the widget ranges the product lies in 1..65 |
| Features.LabelSelectsColumn | app.py:261 | a column's own label selects that column's assembled value |
| Features.UnknownLabel | app.py:261 | a label selects nothing exactly when no column of the frame carries it |
| Risk.RiskTier | app.py:282-287 | the tier is Low exactly below 0.3, Medium exactly on [0.3, 0.6) and High exactly from 0.6 |
| Risk.TierMonotone | app.py:282-287 | a higher probability never gets a lower tier |
| Risk.ProgressFill | app.py:290 | the bar's fill is the minimum of the probability and 1, and is non-negative for a non-negative probability |
| Risk.Assess | app.py:277-298 | the result panel never shows a positive recommendation beside a Low tier, always shows one beside a High tier, and for a probability in [0, 1] fills the bar with exactly the probability |
| Risk.RecommendMonotone | app.py:298 | once a probability gets the positive recommendation, every higher one does too |
| Risk.Recommend | app.py:295-298 | the recommendation is positive exactly when the tier is above Low and the probability is not the threshold 0.3, which is strict `p > 0.3` told apart from the tier's `p < 0.3` |
| Risk.DisagreementAtThreshold | app.py:282-298 | tier and recommendation disagree exactly at p = 0.3, where the tier is Medium and the recommendation negative |
| BodyMass.HeightMeters | app.py:69 | the height in metres times 100 is the height in centimetres |
| BodyMass.CalculateBmi | app.py:69-70 | for heights and weights the inputs accept, the index is positive and times the squared height in metres gives the weight |
| BodyMass.BmiIsUnique | app.py:69-70 | the index is the only number that times the squared height gives the weight |
| BodyMass.BmiIncreasesWithWeight | app.py:69-70 | at a fixed height, more weight gives a strictly higher index |
| BodyMass.BmiDecreasesWithHeight | app.py:69-70 | at a fixed weight, more height gives a strictly lower index |
| BodyMass.BmiRange | app.py:65-70 | over the inputs' ranges (100..250 cm, 30..300 kg) the index lies in 4.8..300 |
| BodyMass.CategoryMatchesBand | app.py:74-81 | an index gets a category exactly when it lies in that category's half-open band: below 18.5, [18.5, 25), [25, 30), from 30 |
| BodyMass.BandsDisjoint | app.py:74-81 | no index lies in two category bands |
| BodyMass.CategoryMonotone | app.py:74-81 | a higher index never gets a lighter category |
| BodyMass.DefaultInputIsNormal | app.py:65-81 | the inputs' defaults, 170 cm and 70 kg, give a Normal index |
| BodyMass.Categorize | app.py:74-81 | the category reported for an index is one whose band contains the index (CategoryMatchesBand gives the converse) |
| Decimal.NatToString | app.py:98 | an integer's decimal text is a non-empty run of digits without a leading zero, one digit long exactly for values below 10 |
| Decimal.ParseNat | app.py:98 | text reads as a number exactly when it is a non-empty run of digits, and a run without a leading zero reads as the number whose decimal text it is |
| Decimal.DigitsOfNat | app.py:98 | the digits of n denote n |
| Decimal.CanonicalDigitsAreText | app.py:98 | a non-empty digit run without a leading zero is the decimal text of the number it denotes, so decimal text and reading back are inverse on such runs |
| Decimal.ParseNatRoundTrip | app.py:98 | reading back an integer's decimal text gives the integer |
| Decimal.NatToStringInjective | app.py:98 | different integers have different decimal texts |
| AgeLabels.RangeTextRoundTrip | app.py:98 | reading back the text "lo-hi" or "from+" of a range gives the range |
| AgeLabels.RangeTextInjective | app.py:98 | different ranges have different texts |
| AgeLabels.OldestLabelText | app.py:98 | the label "80+" is the text of the range from 80 upward |
| AgeLabels.AgeLabel | app.py:96-98 | the label shown for age code x is the text of the written range: 18+5(x-1) to 24+5(x-1) for codes 1..12, 80 upward for code 13 |
| AgeLabels.AgeLabelNamesRange | app.py:98 | each age code's label, as written, reads as the range 18+5(x-1) to 24+5(x-1), and as 80 upward for code 13 |
| AgeLabels.AgeLabelsDistinct | app.py:96-98 | different age codes are shown with different labels |
| AgeLabels.WrittenBoundedSpan | app.py:98 | as written, every bounded label, codes 1 to 12, spans seven years |
| AgeLabels.WrittenRangesOverlap | app.py:98 | as written, ages 18+5x and 19+5x are claimed by both code x and code x+1, for every code x from 1 to 11 |
| AgeLabels.SecondLabelOverlapsFirst | app.py:98 | as written, code 2 is shown as "23-29", and age 23 lies in both code 1's and code 2's label |
| AgeLabels.SurveyCode | app.py:96-98 | every adult age has a survey age code in 1..13 |
| AgeLabels.SurveyAgeLabel | app.py:96-98 | the corrected label for code x is the text of the survey's group for x |
| AgeLabels.SurveyLabelNamesRange | app.py:96-98 | each corrected label reads as the survey's group for its code: 18-24, 25-29, ..., 75-79, 80+ |
| AgeLabels.SurveyRangesPartition | app.py:96-98 | every adult age lies in the corrected range of exactly one code, the one SurveyCode gives |
| AgeLabels.SurveyRangesContiguous | app.py:96-98 | each corrected range starts right after the previous one ends |
| AgeLabels.SurveyAgreesAtEnds | app.py:96-98 | the corrected and the written ranges agree for codes 1 and 13 only |
| Analysis.Analyze | app.py:231-298 | a run yields an assessment exactly when the row can be prepared; the row is the projection PrepareInput promises; the assessment is the tier, fill and recommendation of the classifier's probability for that row |
| Analysis.ColumnLabelsResolve | app.py:257-261 | projecting the assembled frame onto a list of the frame's own labels, in any order and with repetition, succeeds and yields those columns' values in the list's order |
| Analysis.WorkedExample | app.py:231-298 | with HighBP checked, BMI 32.5, GenHlth 4 and age code 9, Risk_Factor is 32.5 and Age_GenHlth is 36; a probability of 0.62 gives tier High, a progress fill of 0.62 and a positive recommendation |

## Left out

- Page layout, styling, images, expanders and fixed metric text (app.py:8-25, 153-227) are presentation only.
- Loading the classifier and the feature-name list (app.py:27-45) is file I/O. The list is a parameter of `PrepareInput` and `Analyze`. A failed load stops the page before any of the modelled code runs.
- `predict_proba` (app.py:267) is the opaque trained model. It is the parameter `probabilityOf` of `Analysis.Analyze`, and nothing is assumed about its range.
- The spinner, `time.sleep` and the button presses (app.py:68, 265, 270-272) are UI events. The models cover what happens once a button is pressed.
- Percentage and one-decimal formatting of the probability and the BMI (app.py:71, 83, 279, 302-303, 315-316) is float-to-text rounding and is not modelled.
- IEEE floating point is not modelled. Every value is an exact `real`. pandas keeps the flag and code columns as integers and the BMI as a float; the model does not track that distinction, which the classifier sees only as numbers. Near a category boundary the program and the model can differ. In doubles `1.6 ** 2` is 2.5600000000000005, so 160 cm and 64 kg give 24.999999999999996 and the program reports Normal, where the model's exact 25 is Overweight (`BodyMass.CategoryMatchesBand`). 220 cm and 121 kg behave the same way.
- The widgets' ranges (app.py:65-66, 96-150) are enforced by Streamlit, not by app.py. `WithinWidgetDomain` and `InInputRange` state them. Only the BMI calculator and the range lemmas require them; assembly and projection accept any form, as the source does.
- The education, income and sex labels (app.py:101-135) are display-only lookups of fixed tables and are not modelled.
- Frames.Select: pandas raises a `KeyError` that stops the script. The model returns an error value that lists every absent label; the exact text of the pandas message is not modelled.

## Findings

| source | as written | input that shows it | evidently intended | confidence | as-written member | corrected member |
|---|---|---|---|---|---|---|
| app.py:98 | age code x is labelled "{18+(x-1)*5}-{24+(x-1)*5}", so every bounded label spans seven years and overlaps the next by two | code 2 is shown as "23-29"; age 23 also lies in code 1's "18-24" | the survey's five-year groups 18-24, 25-29, ..., 75-79, 80+, which give each adult age exactly one code | high; not executed | AgeLabels.SecondLabelOverlapsFirst | AgeLabels.SurveyRangesPartition |
