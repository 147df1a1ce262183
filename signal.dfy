/**
 * The signal-strength predictor: the three quality bands of a predicted
 * strength in dBm, the chart rows labelled with them, and `handlePredict`
 * as a transition of the view's state.
 */
module Signal {
  import opened Wrappers
  import Forecast

  datatype Quality = Good | Fair | Poor {
    function Color(): string
    {
      match this
      case Good => "#10B981"
      case Fair => "#F59E0B"
      case Poor => "#EF4444"
    }

    function Name(): string
    {
      match this
      case Good => "Good"
      case Fair => "Fair"
      case Poor => "Poor"
    }

    /** Higher is better. */
    function Rank(): nat
    {
      match this
      case Poor => 0
      case Fair => 1
      case Good => 2
    }
  }

  /** `getSignalQuality`: good above -70 dBm, fair above -90, poor otherwise. */
  function SignalQuality(strength: real): (q: Quality)
    ensures q == Good <==> strength > -70.0
    ensures q == Fair <==> -90.0 < strength <= -70.0
    ensures q == Poor <==> strength <= -90.0
  {
    if strength > -70.0 then Good
    else if strength > -90.0 then Fair
    else Poor
  }

  /** A stronger signal never gets a worse label. */
  lemma SignalQualityMonotone(a: real, b: real)
    requires a <= b
    ensures SignalQuality(a).Rank() <= SignalQuality(b).Rank()
  {
  }

  /** The labels are told apart by their names and colours. */
  lemma QualityNamesDistinct(p: Quality, q: Quality)
    ensures p.Name() == q.Name() <==> p == q
    ensures p.Color() == q.Color() <==> p == q
  {
  }

  /** One `SignalStrengthPrediction`. */
  datatype Prediction = Prediction(timestamp: string, strength: real, lowerBound: Option<real>, upperBound: Option<real>)

  /** A `chartData` row; the timestamp's locale formatting is not modelled. */
  datatype ChartRow = ChartRow(timestamp: string, strength: real, lower: Option<real>, upper: Option<real>, quality: string)

  /** `chartData`: one row per prediction, in order, labelled with the quality of its own strength. */
  function ChartData(ps: seq<Prediction>): (rows: seq<ChartRow>)
    ensures |rows| == |ps|
    ensures forall i :: 0 <= i < |ps| ==>
      rows[i] == ChartRow(ps[i].timestamp, ps[i].strength, ps[i].lowerBound, ps[i].upperBound, SignalQuality(ps[i].strength).Name())
  {
    seq(|ps|, i requires 0 <= i < |ps| =>
      ChartRow(ps[i].timestamp, ps[i].strength, ps[i].lowerBound, ps[i].upperBound, SignalQuality(ps[i].strength).Name()))
  }

  /** Rows of stronger predictions never carry worse labels. */
  lemma ChartQualityOrdered(ps: seq<Prediction>, i: nat, j: nat)
    requires i < |ps| && j < |ps| && ps[i].strength <= ps[j].strength
    ensures ChartData(ps)[i].quality == "Good" ==> ChartData(ps)[j].quality == "Good"
    ensures ChartData(ps)[j].quality == "Poor" ==> ChartData(ps)[i].quality == "Poor"
  {
    QualityNamesDistinct(SignalQuality(ps[i].strength), Good);
    QualityNamesDistinct(SignalQuality(ps[j].strength), Good);
    QualityNamesDistinct(SignalQuality(ps[i].strength), Poor);
    QualityNamesDistinct(SignalQuality(ps[j].strength), Poor);
  }

  /** The component state `handlePredict` reads and writes. */
  datatype View = View(predictions: seq<Prediction>, error: Option<string>, loading: bool)

  datatype Response = Answered(predictions: Option<seq<Prediction>>) | Failed(serverError: Option<string>)

  /**
   * `handlePredict`, from the state before the click to the state once the
   * request has settled, with whether a request was issued.
   */
  function HandlePredict(v: View, locality: string, response: Response): (r: (View, bool))
    ensures Forecast.NoLocality(locality) ==> r == (v.(error := Some(Forecast.SelectLocalityError)), false)
    ensures !Forecast.NoLocality(locality) ==> r.1 && !r.0.loading
    ensures !Forecast.NoLocality(locality) && response.Answered? ==>
      r.0.predictions == response.predictions.GetOr([]) && r.0.error.None?
    ensures !Forecast.NoLocality(locality) && response.Failed? ==>
      r.0.predictions == v.predictions && r.0.error == Some(Forecast.FailureMessage(response.serverError))
  {
    if Forecast.NoLocality(locality) then (v.(error := Some(Forecast.SelectLocalityError)), false)
    else
      match response
      case Answered(preds) => (View(preds.GetOr([]), None, false), true)
      case Failed(e) => (v.(error := Some(Forecast.FailureMessage(e)), loading := false), true)
  }
}
