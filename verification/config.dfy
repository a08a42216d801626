/**
 * backend/utils/config.py: the constant tables that drive every classifier
 * (risk bands, alert thresholds, the LSTM shape) and the API-key check.
 */
module Config {
  import opened Wrappers

  // ---------------------------------------------------------------------------
  // LSTM_CONFIG (the shape constants; optimiser settings are not modelled)

  const SequenceLength: nat := 24
  const ForecastHorizon: nat := 6
  const Features: seq<string> := [
    "fire_pixels", "wind_speed", "wind_dir_sin", "wind_dir_cos", "temperature",
    "humidity", "ndvi", "ndwi", "hour_sin", "hour_cos"
  ]
  const NFeatures: nat := 10
  const Epochs: nat := 50
  const EarlyStopPatience: nat := 8

  /** `n_features` agrees with the feature list, and the feature names are distinct. */
  lemma FeatureShape()
    ensures NFeatures == |Features| == 10
    ensures forall i, j :: 0 <= i < j < |Features| ==> Features[i] != Features[j]
  {
  }

  // ---------------------------------------------------------------------------
  // RISK_THRESHOLDS: half-open bands [lo, hi), in dictionary (insertion) order

  datatype Level = Low | Moderate | High | Extreme {
    function Name(): string {
      match this
      case Low => "low"
      case Moderate => "moderate"
      case High => "high"
      case Extreme => "extreme"
    }
  }

  datatype Band = Band(level: Level, lo: real, hi: real) {
    predicate Contains(s: real) { lo <= s < hi }
  }

  const RiskThresholds: seq<Band> := [
    Band(Low, 0.0, 0.35),
    Band(Moderate, 0.35, 0.55),
    Band(High, 0.55, 0.70),
    Band(Extreme, 0.70, 1.01)
  ]

  /** Each band is non-empty, and each band ends where the next one starts. */
  lemma BandsContiguous()
    ensures forall k :: 0 <= k < |RiskThresholds| ==> RiskThresholds[k].lo < RiskThresholds[k].hi
    ensures forall k :: 0 <= k < |RiskThresholds| - 1 ==> RiskThresholds[k].hi == RiskThresholds[k + 1].lo
  {
  }

  /** Together the bands cover exactly [0.0, 1.01). */
  lemma BandsCover(s: real)
    ensures (exists k :: 0 <= k < |RiskThresholds| && RiskThresholds[k].Contains(s)) <==> 0.0 <= s < 1.01
  {
    if 0.0 <= s < 1.01 {
      var k := if s < 0.35 then 0 else if s < 0.55 then 1 else if s < 0.70 then 2 else 3;
      assert RiskThresholds[k].Contains(s);
    }
  }

  /** The level of the first band containing `s`, scanning in table order. */
  function FirstBand(bands: seq<Band>, s: real): (r: Option<Level>)
    ensures r.None? <==> forall k :: 0 <= k < |bands| ==> !bands[k].Contains(s)
    ensures r.Some? ==> exists k :: && 0 <= k < |bands| && bands[k].Contains(s)
                                    && bands[k].level == r.value
                                    && forall j :: 0 <= j < k ==> !bands[j].Contains(s)
  {
    if bands == [] then None
    else if bands[0].Contains(s) then Some(bands[0].level)
    else
      var r := FirstBand(bands[1..], s);
      assert forall k :: 1 <= k < |bands| ==> bands[k] == bands[1..][k - 1];
      r
  }

  /** A band index with nothing earlier containing `s` is the one `FirstBand` reports. */
  lemma FirstBandAt(bands: seq<Band>, s: real, k: nat)
    requires k < |bands| && bands[k].Contains(s)
    requires forall j :: 0 <= j < k ==> !bands[j].Contains(s)
    ensures FirstBand(bands, s) == Some(bands[k].level)
  {
    var r := FirstBand(bands, s);
    var k' :| && 0 <= k' < |bands| && bands[k'].Contains(s) && bands[k'].level == r.value
              && forall j :: 0 <= j < k' ==> !bands[j].Contains(s);
    assert k' == k;
  }

  /** The band of a score under RISK_THRESHOLDS, with every threshold written out. */
  lemma {:induction false} BandOfScore(s: real)
    ensures FirstBand(RiskThresholds, s) ==
      if 0.0 <= s < 0.35 then Some(Low)
      else if 0.35 <= s < 0.55 then Some(Moderate)
      else if 0.55 <= s < 0.70 then Some(High)
      else if 0.70 <= s < 1.01 then Some(Extreme)
      else None
  {
    var b := RiskThresholds;
    if 0.0 <= s < 0.35 {
      FirstBandAt(b, s, 0);
    } else if 0.35 <= s < 0.55 {
      FirstBandAt(b, s, 1);
    } else if 0.55 <= s < 0.70 {
      FirstBandAt(b, s, 2);
    } else if 0.70 <= s < 1.01 {
      FirstBandAt(b, s, 3);
    } else {
      BandsCover(s);
    }
  }

  // ---------------------------------------------------------------------------
  // ALERT_TIERS: the lower score bound of each tier; "none" is everything below "watch"

  datatype Tier = NoAlert | Watch | Warning | Emergency {
    function Name(): string {
      match this
      case NoAlert => "none"
      case Watch => "watch"
      case Warning => "warning"
      case Emergency => "emergency"
    }
    /** Severity order: none < watch < warning < emergency. */
    function Rank(): nat {
      match this
      case NoAlert => 0
      case Watch => 1
      case Warning => 2
      case Emergency => 3
    }
  }

  const WatchThreshold: real := 0.40
  const WarningThreshold: real := 0.60
  const EmergencyThreshold: real := 0.75

  lemma AlertThresholdsOrdered()
    ensures 0.0 < WatchThreshold < WarningThreshold < EmergencyThreshold < 1.0
  {
  }

  /** The four tier names are distinct, so a tier can be read back from its name. */
  lemma TierNamesDistinct(a: Tier, b: Tier)
    ensures a.Name() == b.Name() <==> a == b
  {
  }

  // ---------------------------------------------------------------------------
  // validate_keys

  const KeyNames: seq<string> := ["NASA_FIRMS_API_KEY", "NOAA_CDO_TOKEN", "FEATHERLESS_API_KEY"]

  /**
   * The names of the unset keys, in the order FIRMS, NOAA, FEATHERLESS, and
   * whether all three are set. The console messages are not modelled.
   */
  method ValidateKeys(firmsKey: string, noaaToken: string, featherlessKey: string)
    returns (ok: bool, missing: seq<string>)
    ensures ok <==> firmsKey != "" && noaaToken != "" && featherlessKey != ""
    ensures ok <==> missing == []
    ensures KeyNames[0] in missing <==> firmsKey == ""
    ensures KeyNames[1] in missing <==> noaaToken == ""
    ensures KeyNames[2] in missing <==> featherlessKey == ""
    ensures forall i, j :: 0 <= i < j < |missing| ==>
              exists p, q :: 0 <= p < q < |KeyNames| && missing[i] == KeyNames[p] && missing[j] == KeyNames[q]
  {
    missing := [];
    if firmsKey == "" {
      missing := missing + [KeyNames[0]];
    }
    if noaaToken == "" {
      missing := missing + [KeyNames[1]];
    }
    if featherlessKey == "" {
      missing := missing + [KeyNames[2]];
    }
    ok := |missing| == 0;
  }
}
