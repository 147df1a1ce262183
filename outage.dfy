/**
 * The copilot server's mock outage predictor (`predict_outage`), keyed on
 * the region name's code points.
 */
module OutagePredictor {

  /** `sum(map(ord, region))`. */
  function CodePointSum(s: string): nat
  {
    if s == [] then 0 else CodePointSum(s[..|s| - 1]) + s[|s| - 1] as int
  }

  datatype OutagePrediction = OutagePrediction(region: string, probability: int, level: string)

  /** `int((0.25 + 0.6 * rnd) * 100)` for `rnd = k / 100`, in exact arithmetic. */
  function OutagePercent(k: nat): (p: int)
    ensures p as real <= 25.0 + 0.6 * k as real < p as real + 1.0
  {
    ((0.25 + 0.6 * (k as real / 100.0)) * 100.0).Floor
  }

  /** The label of a percentage: low below 40, medium below 65, high from 65. */
  function RiskLabel(prob: int): (level: string)
    ensures level == "low" <==> prob < 40
    ensures level == "medium" <==> 40 <= prob < 65
    ensures level == "high" <==> prob >= 65
  {
    if prob < 40 then "low" else if prob < 65 then "medium" else "high"
  }

  /** `predict_outage`: everything comes from the code-point sum modulo 100. */
  function PredictOutage(region: string): (r: OutagePrediction)
    ensures r.region == region
  {
    var k := CodePointSum(region) % 100;
    var prob := OutagePercent(k);
    OutagePrediction(region, prob, RiskLabel(prob))
  }

  /** The percentage is 25 + floor(3k / 5) for the key k, hence in 25..84. */
  lemma OutagePercentClosedForm(k: nat)
    requires k < 100
    ensures OutagePercent(k) == 25 + (3 * k) / 5
    ensures 25 <= OutagePercent(k) <= 84
  {
    var q, r := (3 * k) / 5, (3 * k) % 5;
    assert 3 * k == 5 * q + r;
    var x := (0.25 + 0.6 * (k as real / 100.0)) * 100.0;
    assert x == (25 + q) as real + r as real / 5.0;
  }

  /**
   * The predicted probability lies in 25..84; the label is "low" below 40,
   * "medium" from 40 up to 64, "high" from 65, which is for keys below 25,
   * from 25 to 66, and from 67 respectively.
   */
  lemma PredictOutageBands(region: string)
    ensures var k := CodePointSum(region) % 100; var r := PredictOutage(region);
      25 <= r.probability <= 84
      && (r.level == "low" <==> r.probability < 40)
      && (r.level == "medium" <==> 40 <= r.probability < 65)
      && (r.level == "high" <==> r.probability >= 65)
      && (r.level == "low" <==> k < 25)
      && (r.level == "medium" <==> 25 <= k < 67)
      && (r.level == "high" <==> k >= 67)
  {
    OutagePercentClosedForm(CodePointSum(region) % 100);
  }

  /** Two regions whose code-point sums agree modulo 100 get the same prediction up to the echoed name. */
  lemma PredictOutageKeyed(a: string, b: string)
    requires CodePointSum(a) % 100 == CodePointSum(b) % 100
    ensures PredictOutage(a).probability == PredictOutage(b).probability
    ensures PredictOutage(a).level == PredictOutage(b).level
  {
  }
}
