/**
 The labels of the age-group select box. The box offers the survey's age codes
 1..13 and shows each as a range of years, code 13 as an open-ended "80+". The
 code itself, not the range, is what reaches the feature record.

 As written, code x is shown as "{18+(x-1)*5}-{24+(x-1)*5}": every bounded
 label spans seven years and overlaps the next one by two ("18-24", "23-29",
 ...). The survey's own five-year groups are 18-24, 25-29, ..., 75-79, 80+,
 which partition the adult ages; both are modelled, with the overlap
 exhibited for the first and the partition proved for the second.
 */
module AgeLabels {
  import opened Wrappers
  import opened Decimal

  /** The years an age label names. */
  datatype AgeRange = Bounded(lo: nat, hi: nat) | OpenEnded(from: nat)

  /** Whether an age in years falls in a range. */
  predicate Covers(r: AgeRange, age: int)
  {
    match r
    case Bounded(lo, hi) => lo <= age <= hi
    case OpenEnded(from) => from <= age
  }

  /** The text of a range: "lo-hi", or "from+". */
  function RangeText(r: AgeRange): (s: string)
    ensures |s| >= 2
  {
    match r
    case Bounded(lo, hi) => NatToString(lo) + "-" + NatToString(hi)
    case OpenEnded(from) => NatToString(from) + "+"
  }

  /** The position of the first `c` in `s`, if any. */
  function IndexOf(s: string, c: char): (r: Option<nat>)
    ensures r.Some? ==> r.value < |s| && s[r.value] == c && c !in s[..r.value]
    ensures r.None? ==> c !in s
  {
    if s == [] then None
    else if s[0] == c then Some(0)
    else
      match IndexOf(s[1..], c)
      case None => None
      case Some(k) =>
        assert s[..k + 1] == [s[0]] + s[1..][..k];
        Some(k + 1)
  }

  /** Reads a range back from its text; text of any other shape is not a range. */
  function ParseRange(s: string): (r: Option<AgeRange>)
  {
    if |s| > 0 && s[|s| - 1] == '+' then
      match ParseNat(s[..|s| - 1])
      case Some(from) => Some(OpenEnded(from))
      case None => None
    else
      match IndexOf(s, '-')
      case None => None
      case Some(k) =>
        match (ParseNat(s[..k]), ParseNat(s[k + 1..]))
        case (Some(lo), Some(hi)) => Some(Bounded(lo, hi))
        case _ => None
  }

  /** The first separator after a run without separators is found right after that run. */
  lemma {:induction false} IndexAfterRun(a: string, c: char, b: string)
    requires c !in a
    ensures IndexOf(a + [c] + b, c) == Some(|a|)
  {
    if a != [] {
      assert (a + [c] + b)[1..] == a[1..] + [c] + b;
      IndexAfterRun(a[1..], c, b);
    }
  }

  /** Reading back the text of a range gives the range. */
  lemma RangeTextRoundTrip(r: AgeRange)
    ensures ParseRange(RangeText(r)) == Some(r)
  {
    match r
    case Bounded(lo, hi) =>
      var a, b := NatToString(lo), NatToString(hi);
      var s := a + "-" + b;
      assert s[|s| - 1] == b[|b| - 1];
      assert '-' !in a by {
        assert forall i :: 0 <= i < |a| ==> IsDigit(a[i]);
      }
      IndexAfterRun(a, '-', b);
      assert s[..|a|] == a;
      assert s[|a| + 1..] == b;
      ParseNatRoundTrip(lo);
      ParseNatRoundTrip(hi);
    case OpenEnded(from) =>
      var s := NatToString(from) + "+";
      assert s[..|s| - 1] == NatToString(from);
      ParseNatRoundTrip(from);
  }

  /** Different ranges have different texts. */
  lemma RangeTextInjective(r: AgeRange, q: AgeRange)
    requires RangeText(r) == RangeText(q)
    ensures r == q
  {
    RangeTextRoundTrip(r);
    RangeTextRoundTrip(q);
  }

  /** The oldest group's label, "80+", is the text of the range from 80 upward. */
  lemma OldestLabelText()
    ensures RangeText(OpenEnded(80)) == "80+"
  {
    assert NatToString(80) == NatToString(8) + [DigitChar(0)];
  }

  // ---------------------------------------------------------------------------
  // As written

  /** The label the select box shows for age code `x`: the text of the range WrittenRange gives. */
  function AgeLabel(x: int): (s: string)
    requires 1 <= x <= 13
    ensures s == RangeText(WrittenRange(x))
  {
    if x < 13 then NatToString(18 + (x - 1) * 5) + "-" + NatToString(24 + (x - 1) * 5)
    else OldestLabelText(); "80+"
  }

  /** The range the label of age code `x` names. */
  function WrittenRange(x: int): (r: AgeRange)
    requires 1 <= x <= 13
  {
    if x < 13 then Bounded(18 + (x - 1) * 5, 24 + (x - 1) * 5) else OpenEnded(80)
  }

  /** Each label reads as the range it was built from. */
  lemma AgeLabelNamesRange(x: int)
    requires 1 <= x <= 13
    ensures ParseRange(AgeLabel(x)) == Some(WrittenRange(x))
  {
    RangeTextRoundTrip(WrittenRange(x));
  }

  /** Different codes are shown with different labels. */
  lemma AgeLabelsDistinct(x: int, y: int)
    requires 1 <= x <= 13 && 1 <= y <= 13
    requires AgeLabel(x) == AgeLabel(y)
    ensures x == y
  {
    AgeLabelNamesRange(x);
    AgeLabelNamesRange(y);
  }

  /** Every bounded label, codes 1 to 12, spans seven years, where a five-year group was meant. */
  lemma WrittenBoundedSpan(x: int)
    requires 1 <= x <= 12
    ensures WrittenRange(x).Bounded? && WrittenRange(x).hi - WrittenRange(x).lo == 6
  {
  }

  /**
   The two oldest years of each bounded label below the last are also the two
   youngest of the next one: an age of 18 + 5x years is claimed by both code x
   and code x + 1.
   */
  lemma WrittenRangesOverlap(x: int)
    requires 1 <= x < 12
    ensures Covers(WrittenRange(x), 18 + 5 * x) && Covers(WrittenRange(x + 1), 18 + 5 * x)
    ensures Covers(WrittenRange(x), 19 + 5 * x) && Covers(WrittenRange(x + 1), 19 + 5 * x)
  {
  }

  /** The smallest instance: code 2 is shown as "23-29", and age 23 is in both code 1's and code 2's label. */
  lemma SecondLabelOverlapsFirst()
    ensures AgeLabel(2) == "23-29"
    ensures Covers(WrittenRange(1), 23) && Covers(WrittenRange(2), 23)
  {
    assert NatToString(23) == NatToString(2) + [DigitChar(3)];
    assert NatToString(29) == NatToString(2) + [DigitChar(9)];
  }

  // ---------------------------------------------------------------------------
  // The survey's five-year groups

  /** The years survey age code `x` stands for: 18-24, then five-year groups, then 80 and over. */
  function SurveyRange(x: int): (r: AgeRange)
    requires 1 <= x <= 13
  {
    if x == 1 then Bounded(18, 24)
    else if x < 13 then Bounded(15 + 5 * x, 19 + 5 * x)
    else OpenEnded(80)
  }

  /** The label for age code `x` that names the survey's own group: the text of SurveyRange(x). */
  function SurveyAgeLabel(x: int): (s: string)
    requires 1 <= x <= 13
    ensures s == RangeText(SurveyRange(x))
  {
    if x < 13 then NatToString(if x == 1 then 18 else 15 + 5 * x) + "-" + NatToString(19 + 5 * x)
    else OldestLabelText(); "80+"
  }

  /** The survey age code of an adult age in years. */
  function SurveyCode(age: int): (x: int)
    requires age >= 18
    ensures 1 <= x <= 13
  {
    if age < 25 then 1
    else if age >= 80 then 13
    else (age - 15) / 5
  }

  /** Each corrected label reads as the survey's group for that code. */
  lemma SurveyLabelNamesRange(x: int)
    requires 1 <= x <= 13
    ensures ParseRange(SurveyAgeLabel(x)) == Some(SurveyRange(x))
  {
    RangeTextRoundTrip(SurveyRange(x));
  }

  /** Every adult age lies in exactly one survey group: the one its code names. */
  lemma SurveyRangesPartition(x: int, age: int)
    requires 1 <= x <= 13 && age >= 18
    ensures Covers(SurveyRange(x), age) <==> x == SurveyCode(age)
  {
  }

  /** The survey groups follow on from each other with no gap and no overlap. */
  lemma SurveyRangesContiguous(x: int)
    requires 1 <= x < 12
    ensures SurveyRange(x + 1).lo == SurveyRange(x).hi + 1
    ensures SurveyRange(12).hi + 1 == SurveyRange(13).from
  {
  }

  /** The corrected labels agree with the written ones on the youngest and the oldest group only. */
  lemma SurveyAgreesAtEnds(x: int)
    requires 1 <= x <= 13
    ensures SurveyRange(x) == WrittenRange(x) <==> x == 1 || x == 13
  {
  }
}
