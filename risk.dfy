/**
 What the page makes of the model's probability of the positive class: a
 three-band risk tier shown beside the score, the fill of the progress bar,
 and the recommendation, which compares the score with a separate threshold.
 The tier and the recommendation use different comparisons at 0.3, and the
 lemmas below pin down exactly where they disagree.
 */
module Risk {

  /** The badge shown beside the score. */
  datatype Tier = Low | Medium | High

  /** The upper end (exclusive) of the low band. */
  const LowBandEnd: real := 0.3
  /** The upper end (exclusive) of the medium band. */
  const MediumBandEnd: real := 0.6
  /** The decision threshold, lowered from 0.5 to favour recall. */
  const Threshold: real := 0.3

  /** The tier badge for a probability: strict comparisons, low first. */
  function RiskTier(p: real): (t: Tier)
    ensures t == Low <==> p < 0.3
    ensures t == Medium <==> 0.3 <= p < 0.6
    ensures t == High <==> 0.6 <= p
  {
    if p < LowBandEnd then Low
    else if p < MediumBandEnd then Medium
    else High
  }

  /** The order of the tiers, lowest first. */
  function Rank(t: Tier): (k: nat)
    ensures k <= 2
  {
    match t
    case Low => 0
    case Medium => 1
    case High => 2
  }

  /** The recommendation shown under the score. */
  datatype Advice = RiskDetected | RiskLow

  /**
   A positive finding strictly above the threshold, a negative one otherwise:
   exactly the probabilities above the low tier, except the threshold itself.
   */
  function Recommend(p: real): (a: Advice)
    ensures a == RiskDetected <==> RiskTier(p) != Low && p != Threshold
  {
    if p > Threshold then RiskDetected else RiskLow
  }

  /** The fill of the progress bar: the smaller of the score and a full bar. */
  function ProgressFill(p: real): (f: real)
    ensures f <= 1.0 && f <= p && (f == p || f == 1.0)
    ensures 0.0 <= p ==> 0.0 <= f
  {
    if p < 1.0 then p else 1.0
  }

  /** Everything the result panel derives from one probability. */
  datatype Assessment = Assessment(tier: Tier, fill: real, advice: Advice)

  /**
   The result panel for a probability. A positive finding never sits beside a
   low tier, a high tier always has one, and for a probability the classifier
   can produce the bar is filled by exactly the score.
   */
  function Assess(p: real): (r: Assessment)
    ensures r.advice == RiskDetected ==> r.tier != Low
    ensures r.tier == High ==> r.advice == RiskDetected
    ensures 0.0 <= p <= 1.0 ==> r.fill == p
  {
    Assessment(RiskTier(p), ProgressFill(p), Recommend(p))
  }

  /** A higher probability never gets a lower tier. */
  lemma TierMonotone(p: real, q: real)
    requires p <= q
    ensures Rank(RiskTier(p)) <= Rank(RiskTier(q))
  {
  }

  /** A higher probability never turns a positive finding negative. */
  lemma RecommendMonotone(p: real, q: real)
    requires p <= q
    ensures Recommend(p) == RiskDetected ==> Recommend(q) == RiskDetected
  {
  }

  /** The one probability at which the badge and the recommendation disagree. */
  lemma DisagreementAtThreshold(p: real)
    ensures (RiskTier(p) != Low && Recommend(p) == RiskLow) <==> p == Threshold
    ensures RiskTier(Threshold) == Medium && Recommend(Threshold) == RiskLow
  {
  }
}
