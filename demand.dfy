/**
 * The location-demand map: each locality's demand score is normalised by
 * the statistics' maximum (1 when that is missing or 0), then painted in one
 * of three tiers and drawn as a circle whose radius grows from 8 to 20. The
 * map is centred on the mean of the localities' coordinates, or on a fixed
 * point in Bihar when there are none.
 */
module LocationDemand {
  import opened Wrappers
  import opened Tiers

  /** `statistics.max || 1`: a missing or zero maximum falls back to 1; any other value, even a negative one, is kept. */
  function MaxScore(max: Option<real>): (m: real)
    ensures m != 0.0
    ensures max.Some? && max.value != 0.0 ==> m == max.value
    ensures max.None? || max.value == 0.0 ==> m == 1.0
  {
    match max
    case Some(v) => if v != 0.0 then v else 1.0
    case None => 1.0
  }

  /** The score as a fraction of the normaliser: the one value that, scaled back up, is the score. */
  function Normalized(score: real, max: Option<real>): (r: real)
    ensures r * MaxScore(max) == score
  {
    var m := MaxScore(max);
    assert score / m * m == score;
    score / m
  }

  /**
   * `getDemandColor`'s tier: the shared scale applied to the normalised
   * score. Against a positive normaliser m, the tier is high above 0.66 m,
   * medium above 0.33 m, low otherwise.
   */
  function DemandTier(score: real, max: Option<real>): (t: Tier)
    ensures MaxScore(max) > 0.0 ==> (t == High <==> score > 0.66 * MaxScore(max))
    ensures MaxScore(max) > 0.0 ==> (t == Medium <==> 0.33 * MaxScore(max) < score <= 0.66 * MaxScore(max))
    ensures MaxScore(max) > 0.0 ==> (t == Low <==> score <= 0.33 * MaxScore(max))
  {
    ScaledAbove(score, MaxScore(max), 0.66);
    ScaledAbove(score, MaxScore(max), 0.33);
    TierOf(Normalized(score, max))
  }

  /**
   * `getDemandSize`: 8 plus twelve times the normalised score. For scores
   * between 0 and a positive normaliser the size lies in [8, 20]; it is 8
   * for a zero score and 20 at the normaliser.
   */
  function DemandSize(score: real, max: Option<real>): (r: real)
    ensures MaxScore(max) > 0.0 && 0.0 <= score <= MaxScore(max) ==> 8.0 <= r <= 20.0
    ensures score == MaxScore(max) ==> r == 20.0
    ensures score == 0.0 ==> r == 8.0
  {
    UnitFraction(score, MaxScore(max));
    8.0 + Normalized(score, max) * 12.0
  }

  lemma ScaledAbove(x: real, m: real, k: real)
    ensures m > 0.0 ==> (x / m > k <==> x > k * m)
  {
    if m > 0.0 {
      assert x / m * m == x;
    }
  }

  lemma UnitFraction(x: real, m: real)
    requires m != 0.0
    ensures m > 0.0 && 0.0 <= x <= m ==> 0.0 <= x / m <= 1.0
    ensures x == m ==> x / m == 1.0
  {
    assert x / m * m == x;
  }

  lemma DivideMonotone(a: real, b: real, m: real)
    requires m > 0.0 && a < b
    ensures a / m < b / m
  {
    assert b / m - a / m == (b - a) / m;
  }

  /** For a positive maximum (or a fallback of 1), a higher score never gets a lower tier. */
  lemma DemandTierMonotone(a: real, b: real, max: Option<real>)
    requires MaxScore(max) > 0.0 && a <= b
    ensures DemandTier(a, max).Rank() <= DemandTier(b, max).Rank()
  {
    if a < b {
      DivideMonotone(a, b, MaxScore(max));
    }
    TierOfMonotone(Normalized(a, max), Normalized(b, max));
  }

  /** For a positive maximum (or a fallback of 1), the size is strictly increasing in the score. */
  lemma DemandSizeIncreasing(a: real, b: real, max: Option<real>)
    requires MaxScore(max) > 0.0 && a < b
    ensures DemandSize(a, max) < DemandSize(b, max)
  {
    DivideMonotone(a, b, MaxScore(max));
  }

  /** The map's default centre, used when there are no localities. */
  const DefaultLat: real := 25.0961
  const DefaultLon: real := 85.3131

  /** `reduce((sum, x) => sum + x, 0)` over the first `n` values. */
  function SumTo(xs: seq<real>, n: nat): real
    requires n <= |xs|
  {
    if n == 0 then 0.0 else SumTo(xs, n - 1) + xs[n - 1]
  }

  /** The mean of the values, or the default when there are none. */
  function MeanOr(xs: seq<real>, default: real): (r: real)
    ensures |xs| == 0 ==> r == default
    ensures |xs| > 0 ==> r * |xs| as real == SumTo(xs, |xs|)
  {
    if |xs| > 0 then SumTo(xs, |xs|) / |xs| as real else default
  }

  /** `centerLat`/`centerLon`, from the localities' latitudes and longitudes in list order. */
  function Centre(lats: seq<real>, lons: seq<real>): (c: (real, real))
    ensures lats == [] ==> c.0 == DefaultLat
    ensures lons == [] ==> c.1 == DefaultLon
    ensures |lats| > 0 ==> c.0 * |lats| as real == SumTo(lats, |lats|)
    ensures |lons| > 0 ==> c.1 * |lons| as real == SumTo(lons, |lons|)
  {
    (MeanOr(lats, DefaultLat), MeanOr(lons, DefaultLon))
  }

  /** Every value between `lo` and `hi` keeps the sum between n lo and n hi. */
  lemma {:induction false} SumBounds(xs: seq<real>, n: nat, lo: real, hi: real)
    requires n <= |xs|
    requires forall i :: 0 <= i < |xs| ==> lo <= xs[i] <= hi
    ensures n as real * lo <= SumTo(xs, n) <= n as real * hi
  {
    if n > 0 {
      SumBounds(xs, n - 1, lo, hi);
      assert n as real * lo == (n - 1) as real * lo + lo;
      assert n as real * hi == (n - 1) as real * hi + hi;
    }
  }

  /**
   * With localities the centre is their mean, which lies between the least
   * and the greatest coordinate; without localities it is the default.
   */
  lemma CentreWithinBounds(xs: seq<real>, default: real, lo: real, hi: real)
    requires forall i :: 0 <= i < |xs| ==> lo <= xs[i] <= hi
    ensures |xs| == 0 ==> MeanOr(xs, default) == default
    ensures |xs| > 0 ==> lo <= MeanOr(xs, default) <= hi
  {
    if |xs| > 0 {
      var n := |xs| as real;
      SumBounds(xs, |xs|, lo, hi);
      QuotientBetween(SumTo(xs, |xs|), n, lo, hi);
    }
  }

  lemma QuotientBetween(s: real, n: real, lo: real, hi: real)
    requires n > 0.0 && n * lo <= s <= n * hi
    ensures lo <= s / n <= hi
  {
    assert s / n - lo == (s - n * lo) / n;
    assert hi - s / n == (n * hi - s) / n;
  }

  /** All localities at one point put the centre on that point. */
  lemma CentreOfEqualPoints(xs: seq<real>, default: real, x: real)
    requires |xs| > 0 && forall i :: 0 <= i < |xs| ==> xs[i] == x
    ensures MeanOr(xs, default) == x
  {
    CentreWithinBounds(xs, default, x, x);
  }
}
