/**
 The sidebar's body-mass-index calculator: a height in whole centimetres and a
 weight in whole kilograms give weight over height-in-metres squared, and the
 index falls into one of four categories. The number inputs bound both values,
 which the calculator relies on for a positive height.
 */
module BodyMass {

  /** The height input's bounds, in centimetres. */
  const MinHeightCm: int := 100
  const MaxHeightCm: int := 250
  /** The weight input's bounds, in kilograms. */
  const MinWeightKg: int := 30
  const MaxWeightKg: int := 300

  /** Whether a height and weight are values the two number inputs can hold. */
  predicate InInputRange(heightCm: int, weightKg: int)
  {
    MinHeightCm <= heightCm <= MaxHeightCm && MinWeightKg <= weightKg <= MaxWeightKg
  }

  /** A height in centimetres, in metres. */
  function HeightMeters(heightCm: int): (m: real)
    ensures m * 100.0 == heightCm as real
  {
    heightCm as real / 100.0
  }

  /** The body-mass index: weight over the square of the height in metres. */
  function CalculateBmi(heightCm: int, weightKg: int): (bmi: real)
    requires InInputRange(heightCm, weightKg)
    ensures bmi > 0.0
    ensures bmi * (HeightMeters(heightCm) * HeightMeters(heightCm)) == weightKg as real
  {
    var m := HeightMeters(heightCm);
    assert m * m > 0.0 by { assert m >= 1.0; }
    weightKg as real / (m * m)
  }

  /** The index is the only value that, times the squared height, gives the weight. */
  lemma BmiIsUnique(heightCm: int, weightKg: int, b: real)
    requires InInputRange(heightCm, weightKg)
    requires b * (HeightMeters(heightCm) * HeightMeters(heightCm)) == weightKg as real
    ensures b == CalculateBmi(heightCm, weightKg)
  {
    var s := HeightMeters(heightCm) * HeightMeters(heightCm);
    assert s > 0.0 by { assert HeightMeters(heightCm) >= 1.0; }
    var c := CalculateBmi(heightCm, weightKg);
    assert (b - c) * s == 0.0;
  }

  /** More weight at the same height gives a higher index. */
  lemma BmiIncreasesWithWeight(heightCm: int, w1: int, w2: int)
    requires InInputRange(heightCm, w1) && InInputRange(heightCm, w2)
    requires w1 < w2
    ensures CalculateBmi(heightCm, w1) < CalculateBmi(heightCm, w2)
  {
    var s := HeightMeters(heightCm) * HeightMeters(heightCm);
    assert s > 0.0 by { assert HeightMeters(heightCm) >= 1.0; }
    var b1, b2 := CalculateBmi(heightCm, w1), CalculateBmi(heightCm, w2);
    assert (b2 - b1) * s == (w2 - w1) as real;
  }

  /** More height at the same weight gives a lower index. */
  lemma BmiDecreasesWithHeight(h1: int, h2: int, weightKg: int)
    requires InInputRange(h1, weightKg) && InInputRange(h2, weightKg)
    requires h1 < h2
    ensures CalculateBmi(h2, weightKg) < CalculateBmi(h1, weightKg)
  {
    var m1, m2 := HeightMeters(h1), HeightMeters(h2);
    assert 1.0 <= m1 < m2;
    var s1, s2 := m1 * m1, m2 * m2;
    assert 0.0 < s1 < s2 by {
      assert m1 * m1 < m1 * m2 < m2 * m2;
    }
    var b1, b2 := CalculateBmi(h1, weightKg), CalculateBmi(h2, weightKg);
    assert b1 * s1 == b2 * s2;
    assert b2 * s1 < b2 * s2;
    ScaleCancels(b2, b1, s1);
  }

  /** Dividing both sides of a strict inequality by the same positive factor. */
  lemma ScaleCancels(x: real, y: real, s: real)
    requires s > 0.0 && x * s < y * s
    ensures x < y
  {
    assert (y - x) * s > 0.0;
  }

  /** Over the inputs' ranges the index lies between 4.8 (30 kg at 2.5 m) and 300 (300 kg at 1 m). */
  lemma BmiRange(heightCm: int, weightKg: int)
    requires InInputRange(heightCm, weightKg)
    ensures 4.8 <= CalculateBmi(heightCm, weightKg) <= 300.0
  {
    var m := HeightMeters(heightCm);
    var s := m * m;
    assert 1.0 <= s <= 6.25 by {
      assert 1.0 <= m <= 2.5;
      assert 1.0 <= m * m <= 2.5 * m <= 6.25;
    }
    var b := CalculateBmi(heightCm, weightKg);
    assert b * s == weightKg as real;
    assert b * s >= 30.0 && b * s <= 300.0;
    assert b * 6.25 >= 30.0 by { assert b * 6.25 >= b * s; }
    assert b <= 300.0 by { assert b * 1.0 <= b * s; }
  }

  /** The category the calculator reports for an index. */
  datatype BmiCategory = Underweight | Normal | Overweight | Obese

  /** The category cut points, each the lower end of the next category. */
  const NormalFrom: real := 18.5
  const OverweightFrom: real := 25.0
  const ObeseFrom: real := 30.0

  /** The category for an index: strict comparisons, lowest category first. */
  function Categorize(bmi: real): (c: BmiCategory)
    ensures InBand(c, bmi)
  {
    if bmi < NormalFrom then Underweight
    else if bmi < OverweightFrom then Normal
    else if bmi < ObeseFrom then Overweight
    else Obese
  }

  /** The half-open band of indices each category names, stated independently of the cascade. */
  predicate InBand(c: BmiCategory, bmi: real)
  {
    match c
    case Underweight => bmi < 18.5
    case Normal => 18.5 <= bmi < 25.0
    case Overweight => 25.0 <= bmi < 30.0
    case Obese => 30.0 <= bmi
  }

  /** The order of the categories, lightest first. */
  function Severity(c: BmiCategory): (k: nat)
    ensures k <= 3
  {
    match c
    case Underweight => 0
    case Normal => 1
    case Overweight => 2
    case Obese => 3
  }

  /** An index gets a category exactly when it lies in that category's band. */
  lemma CategoryMatchesBand(bmi: real, c: BmiCategory)
    ensures Categorize(bmi) == c <==> InBand(c, bmi)
  {
  }

  /** The bands do not overlap: an index lies in exactly one. */
  lemma BandsDisjoint(bmi: real, c: BmiCategory, d: BmiCategory)
    requires InBand(c, bmi) && InBand(d, bmi)
    ensures c == d
  {
  }

  /** A higher index never gets a lighter category. */
  lemma CategoryMonotone(b1: real, b2: real)
    requires b1 <= b2
    ensures Severity(Categorize(b1)) <= Severity(Categorize(b2))
  {
  }

  /** The calculator's default input, 170 cm and 70 kg, is a normal weight. */
  lemma DefaultInputIsNormal()
    ensures Categorize(CalculateBmi(170, 70)) == Normal
  {
    var b := CalculateBmi(170, 70);
    assert b * (1.7 * 1.7) == 70.0;
    assert 18.5 <= b < 25.0 by {
      assert 18.5 * 2.89 < 70.0 < 25.0 * 2.89;
    }
  }
}
