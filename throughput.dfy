/**
 * The throughput forecaster: a low-throughput alert when some prediction
 * falls below 5 Mbps, the high-demand pick (the first prediction at the
 * maximum), the chart rows pairing predictions with confidence intervals,
 * and `handlePredict` as a transition of the view's state.
 */
module Throughput {
  import opened Wrappers
  import Forecast

  /** `THROUGHPUT_THRESHOLD`, the Mbps below which a prediction is low. */
  const Threshold: real := 5.0

  /** One `ThroughputPrediction`; the timestamp is kept as the server's string. */
  datatype Prediction = Prediction(timestamp: string, mbps: real)

  /** One element of `confidence_intervals`; either bound may be missing. */
  datatype Interval = Interval(lower: Option<real>, upper: Option<real>)

  predicate IsLow(p: Prediction)
  {
    p.mbps < Threshold
  }

  /** `predictions.filter((p) => p.predicted_throughput_mbps < 5.0)`. */
  function LowPredictions(ps: seq<Prediction>): (r: seq<Prediction>)
    ensures |r| <= |ps|
    ensures forall i :: 0 <= i < |r| ==> IsLow(r[i]) && r[i] in ps
    ensures r == [] <==> forall i :: 0 <= i < |ps| ==> !IsLow(ps[i])
  {
    if ps == [] then []
    else (if IsLow(ps[0]) then [ps[0]] else []) + LowPredictions(ps[1..])
  }

  /** The position of the first low prediction, `|ps|` when there is none. */
  function FirstLow(ps: seq<Prediction>): (i: nat)
    ensures i <= |ps|
    ensures i < |ps| ==> IsLow(ps[i])
    ensures forall j :: 0 <= j < i ==> !IsLow(ps[j])
  {
    if ps == [] then 0 else if IsLow(ps[0]) then 0 else 1 + FirstLow(ps[1..])
  }

  /** `lowThroughput[0]` is the first low prediction in list order. */
  lemma {:induction false} EarliestLowIsFirst(ps: seq<Prediction>)
    requires LowPredictions(ps) != []
    ensures FirstLow(ps) < |ps| && LowPredictions(ps)[0] == ps[FirstLow(ps)]
  {
    if !IsLow(ps[0]) {
      EarliestLowIsFirst(ps[1..]);
    }
  }

  /** What the alert banner cites; its text is formatted from the cited prediction. */
  datatype Alert = LowThroughput(at: Prediction) | HighDemand(at: Prediction)

  /**
   * The effect that runs when `predictions` changes: with predictions, an
   * alert on the first low one, or no alert when none is low; with no
   * predictions, the alert is left as it was.
   */
  function AlertOnPredictions(ps: seq<Prediction>, current: Option<Alert>): (a: Option<Alert>)
    ensures ps == [] ==> a == current
    ensures ps != [] && a.Some? ==> a.value.LowThroughput? && IsLow(a.value.at) && a.value.at in ps
  {
    if |ps| > 0 then
      var low := LowPredictions(ps);
      if |low| > 0 then Some(LowThroughput(low[0])) else None
    else current
  }

  /**
   * An alert is raised iff some prediction is below the threshold, and then
   * it cites the first one; an empty list changes nothing.
   */
  lemma AlertSelection(ps: seq<Prediction>, current: Option<Alert>)
    ensures ps == [] ==> AlertOnPredictions(ps, current) == current
    ensures ps != [] ==> (AlertOnPredictions(ps, current).Some? <==> exists i :: 0 <= i < |ps| && IsLow(ps[i]))
    ensures ps != [] && AlertOnPredictions(ps, current).Some? ==>
      FirstLow(ps) < |ps| && AlertOnPredictions(ps, current) == Some(LowThroughput(ps[FirstLow(ps)]))
  {
    if LowPredictions(ps) != [] {
      EarliestLowIsFirst(ps);
    }
  }

  /** `Math.max(...)` of the first `n` predicted throughputs. */
  function MaxMbps(ps: seq<Prediction>, n: nat): (m: real)
    requires 0 < n <= |ps|
    ensures forall i :: 0 <= i < n ==> ps[i].mbps <= m
    ensures exists i :: 0 <= i < n && ps[i].mbps == m
  {
    if n == 1 then ps[0].mbps
    else
      var m := MaxMbps(ps, n - 1);
      if ps[n - 1].mbps > m then ps[n - 1].mbps else m
  }

  /** `find(p => p.predicted_throughput_mbps === v)` as a position, `|ps|` when nothing matches. */
  function FindMbps(ps: seq<Prediction>, v: real): (i: nat)
    ensures i <= |ps|
    ensures i < |ps| ==> ps[i].mbps == v
    ensures forall j :: 0 <= j < i ==> ps[j].mbps != v
  {
    if ps == [] then 0 else if ps[0].mbps == v then 0 else 1 + FindMbps(ps[1..], v)
  }

  /**
   * The high-demand period of `handlePredict`: for a non-empty list, the
   * first prediction whose throughput no other prediction exceeds; none for
   * an empty list.
   */
  function HighDemandPick(ps: seq<Prediction>): (r: Option<nat>)
    ensures ps == [] <==> r.None?
    ensures r.Some? ==> r.value < |ps|
    ensures r.Some? ==> forall j :: 0 <= j < |ps| ==> ps[j].mbps <= ps[r.value].mbps
    ensures r.Some? ==> forall j :: 0 <= j < r.value ==> ps[j].mbps < ps[r.value].mbps
  {
    if ps == [] then None
    else
      var m := MaxMbps(ps, |ps|);
      var i := FindMbps(ps, m);
      if i < |ps| then Some(i) else None
  }

  /** A `chartData` row; the timestamp's locale formatting is not modelled. */
  datatype ChartRow = ChartRow(timestamp: string, throughput: real, lower: Option<real>, upper: Option<real>)

  /** `conf?.lower` / `conf?.upper` for `conf = confidenceIntervals[index]`. */
  function IntervalAt(conf: seq<Interval>, index: nat): Interval
  {
    if index < |conf| then conf[index] else Interval(None, None)
  }

  /**
   * `chartData`: one row per prediction, in order, whose bounds come from
   * the interval at the same index, and are missing past the intervals' end.
   */
  function ChartData(ps: seq<Prediction>, conf: seq<Interval>): (rows: seq<ChartRow>)
    ensures |rows| == |ps|
    ensures forall i :: 0 <= i < |ps| ==> rows[i].timestamp == ps[i].timestamp && rows[i].throughput == ps[i].mbps
    ensures forall i :: 0 <= i < |ps| && i < |conf| ==> rows[i].lower == conf[i].lower && rows[i].upper == conf[i].upper
    ensures forall i :: |conf| <= i < |ps| ==> rows[i].lower.None? && rows[i].upper.None?
  {
    seq(|ps|, i requires 0 <= i < |ps| =>
      var c := IntervalAt(conf, i);
      ChartRow(ps[i].timestamp, ps[i].mbps, c.lower, c.upper))
  }

  /** The component state `handlePredict` reads and writes. */
  datatype View = View(predictions: seq<Prediction>, intervals: seq<Interval>,
                       error: Option<string>, alert: Option<Alert>, loading: bool)

  /** How the awaited request ends: a result whose fields may be missing, or a failure with the server's error, if any. */
  datatype Response =
    | Answered(predictions: Option<seq<Prediction>>, intervals: Option<seq<Interval>>)
    | Failed(serverError: Option<string>)

  /**
   * `handlePredict`, from the state before the click to the state once the
   * request has settled, with whether a request was issued. The answer is a
   * parameter; it is not used when no locality is selected.
   */
  function HandlePredict(v: View, locality: string, response: Response): (r: (View, bool))
    ensures Forecast.NoLocality(locality) ==> r == (v.(error := Some(Forecast.SelectLocalityError)), false)
    ensures !Forecast.NoLocality(locality) ==> r.1 && !r.0.loading
  {
    if Forecast.NoLocality(locality) then (v.(error := Some(Forecast.SelectLocalityError)), false)
    else
      match response
      case Answered(preds, ivs) =>
        var ps := preds.GetOr([]);
        var pick := HighDemandPick(ps);
        var alert := if pick.Some? then Some(HighDemand(ps[pick.value])) else None;
        (View(ps, ivs.GetOr([]), None, alert, false), true)
      case Failed(e) =>
        (v.(error := Some(Forecast.FailureMessage(e)), alert := None, loading := false), true)
  }

  /**
   * With a locality: an answer replaces predictions and intervals, clears the
   * error, and leaves a high-demand alert on the first peak exactly when it
   * has predictions; a failure keeps the old predictions, clears the alert
   * and shows the server's error or the fallback message.
   */
  lemma HandlePredictOutcome(v: View, locality: string, response: Response)
    requires !Forecast.NoLocality(locality)
    ensures var w := HandlePredict(v, locality, response).0;
      match response
      case Answered(preds, ivs) =>
        w.predictions == preds.GetOr([]) && w.intervals == ivs.GetOr([]) && w.error.None?
        && (w.alert.Some? <==> w.predictions != [])
        && (w.alert.Some? ==>
              w.alert.value.HighDemand? && w.alert.value.at in w.predictions
              && forall j :: 0 <= j < |w.predictions| ==> w.predictions[j].mbps <= w.alert.value.at.mbps)
      case Failed(e) =>
        w.predictions == v.predictions && w.alert.None?
        && w.error == Some(Forecast.FailureMessage(e))
  {
  }
}
