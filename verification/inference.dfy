/**
 * backend/ml/inference.py: turning a model score into a prediction record,
 * the heuristic used when no model is available, the shape guard of
 * `predict_risk` and the per-cell loop of `predict_grid`.
 *
 * Loading the network (torch, joblib, the checkpoint file) is outside the
 * model: its outcome is the `Loader` value passed in, and a loaded network
 * is a function from a feature matrix to a score (scaling included).
 */
module Inference {
  import opened Wrappers
  import opened Config
  import Geo

  datatype Confidence = HighConfidence | LowConfidence

  datatype Prediction = Prediction(
    riskScore: real, riskLevel: Level, alertTier: Tier,
    forecastHours: nat, confidence: Confidence)

  // ---------------------------------------------------------------------------
  // _format_prediction

  /**
   * What `_format_prediction` returns: the level of the first band containing
   * the score ("low" when none does), the same tier cascade as geo.py, and a
   * confidence that is high strictly inside (0.1, 0.9).
   */
  function Formatted(score: real): (p: Prediction)
    ensures p.riskScore == score
    ensures p.riskLevel == Low <==> score < 0.35 || score >= 1.01
    ensures p.riskLevel == Moderate <==> 0.35 <= score < 0.55
    ensures p.riskLevel == High <==> 0.55 <= score < 0.70
    ensures p.riskLevel == Extreme <==> 0.70 <= score < 1.01
    ensures p.alertTier == Geo.AlertTier(score)
    ensures p.forecastHours == ForecastHorizon
    ensures p.confidence == HighConfidence <==> 0.1 < score < 0.9
  {
    BandOfScore(score);
    Prediction(score, FirstBand(RiskThresholds, score).GetOr(Low), Geo.AlertTier(score), ForecastHorizon,
               if 0.1 < score < 0.9 then HighConfidence else LowConfidence)
  }

  /**
   * The two classifiers agree on every score in [0, 1.01); outside it
   * inference says "low" where geo.py says "extreme".
   */
  lemma LevelAgreesWithGeo(score: real)
    ensures 0.0 <= score < 1.01 ==> Formatted(score).riskLevel == Geo.ClassifyRisk(score).0
    ensures !(0.0 <= score < 1.01) ==> Formatted(score).riskLevel == Low && Geo.ClassifyRisk(score).0 == Extreme
  {
  }

  /** `_format_prediction`: a scan of RISK_THRESHOLDS with `break`, then the tier cascade. */
  method FormatPrediction(score: real) returns (p: Prediction)
    ensures p == Formatted(score)
  {
    var level := Low;
    var k := 0;
    while k < |RiskThresholds|
      invariant 0 <= k <= |RiskThresholds|
      invariant level == Low
      invariant forall j :: 0 <= j < k ==> !RiskThresholds[j].Contains(score)
    {
      if RiskThresholds[k].Contains(score) {
        FirstBandAt(RiskThresholds, score, k);
        level := RiskThresholds[k].level;
        break;
      }
      k := k + 1;
    }
    var tier := NoAlert;
    if score >= EmergencyThreshold {
      tier := Emergency;
    } else if score >= WarningThreshold {
      tier := Warning;
    } else if score >= WatchThreshold {
      tier := Watch;
    }
    var confidence := if 0.1 < score < 0.9 then HighConfidence else LowConfidence;
    p := Prediction(score, level, tier, ForecastHorizon, confidence);
  }

  // ---------------------------------------------------------------------------
  // _fallback_prediction

  /**
   * The heuristic score of `_fallback_prediction`, read from the last row:
   * column 0 as fire pixels and column 4 as humidity, as the source does
   * (in the feature list column 4 is temperature). Only the upper end is
   * clamped.
   */
  function FallbackScore(last: seq<real>): (r: real)
    requires |last| >= 5
    ensures r <= 1.0
    ensures var sum := (last[0] / 200.0) * 0.6 + (1.0 - last[4] / 100.0) * 0.4;
            && (sum <= 1.0 ==> r == sum)
            && (sum >= 1.0 ==> r == 1.0)
  {
    Geo.Min(1.0, (last[0] / 200.0) * 0.6 + (1.0 - last[4] / 100.0) * 0.4)
  }

  /** There is no lower clamp: a humid row with no fire pixels scores below zero. */
  lemma FallbackScoreCanBeNegative()
    ensures FallbackScore([0.0, 0.0, 0.0, 0.0, 200.0]) < 0.0
  {
  }

  /**
   * `_fallback_prediction`: the formatted heuristic score, or the IndexError
   * raised when there is no last row or it is too short.
   */
  function FallbackPrediction(m: seq<seq<real>>): (r: Result<Prediction, string>)
    ensures r.Err? <==> m == [] || |m[|m| - 1]| < 5
    ensures r.Ok? ==> r.value == Formatted(FallbackScore(m[|m| - 1])) && r.value.riskScore <= 1.0
  {
    if m == [] || |m[|m| - 1]| < 5 then Err("index out of range")
    else Ok(Formatted(FallbackScore(m[|m| - 1])))
  }

  // ---------------------------------------------------------------------------
  // predict_risk / predict_grid

  /**
   * The outcome of `import torch` and `_load_model()`: torch is missing (the
   * import at the top of `predict_risk` raises), loading raises (no
   * checkpoint file), loading caught an ImportError and gave no model, or a
   * network is loaded.
   */
  datatype Loader =
    | TorchMissing
    | LoadFails(reason: string)
    | NoModel
    | Loaded(net: seq<seq<real>> -> real)

  /** The (sequence_length, n_features) shape the network expects. */
  predicate HasModelShape(m: seq<seq<real>>)
  {
    |m| == SequenceLength && forall k :: 0 <= k < |m| ==> |m[k]| == NFeatures
  }

  /**
   * `predict_risk`: with a network loaded, a wrongly shaped input is refused
   * before scoring; without one, the heuristic runs on any input and the
   * shape is never checked.
   */
  method PredictRisk(m: seq<seq<real>>, loader: Loader) returns (r: Result<Prediction, string>)
    ensures loader.TorchMissing? || loader.LoadFails? ==> r.Err?
    ensures loader.NoModel? ==> r == FallbackPrediction(m)
    ensures loader.Loaded? ==> (r.Err? <==> !HasModelShape(m))
    ensures loader.Loaded? && r.Ok? ==> r.value == Formatted(loader.net(m))
  {
    match loader
    case TorchMissing =>
      return Err("No module named 'torch'");
    case LoadFails(reason) =>
      return Err(reason);
    case NoModel =>
      return FallbackPrediction(m);
    case Loaded(net) =>
      if !HasModelShape(m) {
        return Err("Expected shape (24, 10)");
      }
      var p := FormatPrediction(net(m));
      return Ok(p);
  }

  /** One entry of `predict_grid`'s result list. */
  datatype CellPrediction = CellPrediction(lat: real, lon: real, prediction: Prediction)

  function Min3(a: nat, b: nat, c: nat): (r: nat)
    ensures r <= a && r <= b && r <= c
    ensures r == a || r == b || r == c
  {
    if a <= b && a <= c then a else if b <= c then b else c
  }

  /**
   * The batch shape `predict_grid` can scale with a network loaded: a
   * non-empty, rectangular batch of non-empty windows whose rows have the
   * 10 features the scaler was fitted on. Anything else makes the shape
   * unpacking or `scaler.transform` raise.
   */
  predicate HasGridShape(seqs: seq<seq<seq<real>>>)
  {
    && |seqs| > 0 && |seqs[0]| > 0
    && forall k :: 0 <= k < |seqs| ==>
         && |seqs[k]| == |seqs[0]|
         && forall j :: 0 <= j < |seqs[k]| ==> |seqs[k][j]| == NFeatures
  }

  /**
   * `predict_grid`: one entry per (lat, lon, sequence) triple that `zip`
   * forms, in input order. Without a network each entry is the fallback
   * prediction of its own sequence, and the first sequence the fallback
   * cannot read raises; with one, a batch of the wrong shape raises and
   * otherwise each entry is the formatted network score.
   */
  method PredictGrid(seqs: seq<seq<seq<real>>>, lats: seq<real>, lons: seq<real>, loader: Loader)
    returns (r: Result<seq<CellPrediction>, string>)
    ensures loader.TorchMissing? || loader.LoadFails? ==> r.Err?
    ensures loader.NoModel? ==>
              (r.Err? <==> exists k :: 0 <= k < Min3(|lats|, |lons|, |seqs|) && FallbackPrediction(seqs[k]).Err?)
    ensures loader.Loaded? ==> (r.Ok? <==> HasGridShape(seqs))
    ensures r.Ok? ==> |r.value| == Min3(|lats|, |lons|, |seqs|)
    ensures r.Ok? ==> forall k :: 0 <= k < |r.value| ==>
              && r.value[k].lat == lats[k] && r.value[k].lon == lons[k]
              && (loader.NoModel? ==> Ok(r.value[k].prediction) == FallbackPrediction(seqs[k]))
              && (loader.Loaded? ==> r.value[k].prediction == Formatted(loader.net(seqs[k])))
  {
    if loader.TorchMissing? {
      return Err("No module named 'torch'");
    }
    if loader.LoadFails? {
      return Err(loader.reason);
    }
    if loader.Loaded? && !HasGridShape(seqs) {
      return Err("Expected a non-empty (n, seq_len, 10) batch");
    }
    var n := Min3(|lats|, |lons|, |seqs|);
    var results: seq<CellPrediction> := [];
    for k := 0 to n
      invariant |results| == k
      invariant forall j :: 0 <= j < k ==> FallbackPrediction(seqs[j]).Ok? || loader.Loaded?
      invariant forall j :: 0 <= j < k ==>
                  && results[j].lat == lats[j] && results[j].lon == lons[j]
                  && (loader.NoModel? ==> Ok(results[j].prediction) == FallbackPrediction(seqs[j]))
                  && (loader.Loaded? ==> results[j].prediction == Formatted(loader.net(seqs[j])))
    {
      var pred;
      if loader.NoModel? {
        var fallback := FallbackPrediction(seqs[k]);
        if fallback.Err? {
          return Err(fallback.error);
        }
        pred := fallback.value;
      } else {
        pred := FormatPrediction(loader.net(seqs[k]));
      }
      results := results + [CellPrediction(lats[k], lons[k], pred)];
    }
    return Ok(results);
  }
}
