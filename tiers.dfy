/**
 * The three-step colour scale that the heatmap cells and the locality markers share:
 * an intensity above 0.66 is high demand (red), above 0.33 medium (amber), anything else low (green).
 */
module Tiers {

  datatype Tier = Low | Medium | High {

    /** The CSS colour the components paint for the tier. */
    function Hex(): string
    {
      match this
      case High => "#EF4444"
      case Medium => "#F59E0B"
      case Low => "#10B981"
    }

    /** Position on the scale, for monotonicity statements. */
    function Rank(): nat
    {
      match this
      case Low => 0
      case Medium => 1
      case High => 2
    }
  }

  /** The if-chain on a normalised intensity, with the strict comparisons of the source. */
  function TierOf(intensity: real): (t: Tier)
    ensures t == High <==> intensity > 0.66
    ensures t == Medium <==> 0.33 < intensity <= 0.66
    ensures t == Low <==> intensity <= 0.33
  {
    if intensity > 0.66 then High
    else if intensity > 0.33 then Medium
    else Low
  }

  /** A larger intensity never gets a lower tier. */
  lemma TierOfMonotone(a: real, b: real)
    requires a <= b
    ensures TierOf(a).Rank() <= TierOf(b).Rank()
  {
  }
}
