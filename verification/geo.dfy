/**
 * backend/api/geo.py: the score classifiers, the map-cell geometry, the
 * per-cell GeoJSON grid and the framing of the replay series.
 *
 * The numerics the source delegates to numpy and to the LSTM (per-cell
 * attenuation and noise, the model's score of a window) are parameters:
 * `scoreOf` stands for `_score_sequence` applied to a replay window and
 * `cellRisk` for the per-cell score of the risk map.
 */
module Geo {
  import opened Wrappers
  import opened Config
  import Text

  // ---------------------------------------------------------------------------
  // Classifiers

  /** `_get_alert_tier`: the ALERT_TIERS cascade, highest threshold first. */
  function AlertTier(score: real): (t: Tier)
    ensures t == Emergency <==> score >= EmergencyThreshold
    ensures t == Warning <==> WarningThreshold <= score < EmergencyThreshold
    ensures t == Watch <==> WatchThreshold <= score < WarningThreshold
    ensures t == NoAlert <==> score < WatchThreshold
  {
    if score >= EmergencyThreshold then Emergency
    else if score >= WarningThreshold then Warning
    else if score >= WatchThreshold then Watch
    else NoAlert
  }

  /** A higher score never yields a less severe tier. */
  lemma AlertTierMonotone(a: real, b: real)
    requires a <= b
    ensures AlertTier(a).Rank() <= AlertTier(b).Rank()
  {
  }

  /** RISK_COLORS. */
  function RiskColor(level: Level): string
  {
    match level
    case Low => "#27AE60"
    case Moderate => "#F39C12"
    case High => "#E67E22"
    case Extreme => "#C0392B"
  }

  /**
   * `_classify_risk`: the first risk band containing the score, and "extreme"
   * when none does (negative scores and scores of 1.01 and above).
   */
  function ClassifyRisk(score: real): (r: (Level, string))
    ensures r.0 == Low <==> 0.0 <= score < 0.35
    ensures r.0 == Moderate <==> 0.35 <= score < 0.55
    ensures r.0 == High <==> 0.55 <= score < 0.70
    ensures r.0 == Extreme <==> score < 0.0 || score >= 0.70
    ensures r.1 == RiskColor(r.0)
  {
    BandOfScore(score);
    var level := FirstBand(RiskThresholds, score).GetOr(Extreme);
    (level, RiskColor(level))
  }

  function Clip(x: real, lo: real, hi: real): (r: real)
    requires lo <= hi
    ensures lo <= r <= hi
    ensures lo <= x <= hi ==> r == x
  {
    if x < lo then lo else if x > hi then hi else x
  }

  /** `_risk_opacity`: 0.2 + 0.6 * score clipped to [0.1, 0.85] (the rounding to 2 places is not modelled). */
  function RiskOpacity(score: real): (r: real)
    ensures 0.1 <= r <= 0.85
  {
    Clip(0.2 + score * 0.6, 0.1, 0.85)
  }

  /** Opacity grows with the score. */
  lemma RiskOpacityMonotone(a: real, b: real)
    requires a <= b
    ensures RiskOpacity(a) <= RiskOpacity(b)
  {
  }

  // ---------------------------------------------------------------------------
  // Cell geometry

  /** A GeoJSON position: (longitude, latitude). */
  type Position = (real, real)

  /** `_cell_polygon`: the closed ring of the square cell with south-west corner (lon, lat). */
  function CellPolygon(lat: real, lon: real, step: real): (ring: seq<Position>)
    ensures |ring| == 5 && ring[0] == ring[4] == (lon, lat)
    ensures {ring[0], ring[1], ring[2], ring[3]} ==
            {(lon, lat), (lon + step, lat), (lon + step, lat + step), (lon, lat + step)}
    ensures forall k :: 0 <= k < 4 ==>
              (ring[k].0 == ring[k + 1].0 && (ring[k + 1].1 - ring[k].1 == step || ring[k].1 - ring[k + 1].1 == step)) ||
              (ring[k].1 == ring[k + 1].1 && (ring[k + 1].0 - ring[k].0 == step || ring[k].0 - ring[k + 1].0 == step))
  {
    [(lon, lat), (lon + step, lat), (lon + step, lat + step), (lon, lat + step), (lon, lat)]
  }

  // ---------------------------------------------------------------------------
  // Scoring a window

  function Abs(x: real): real { if x < 0.0 then -x else x }
  function Min(a: real, b: real): real { if a <= b then a else b }

  /**
   * The `except` branch of `_score_sequence`: a weighted heuristic on the last
   * row, reading columns 0, 2, 3 and 4 as the source does.
   */
  function ScoreFallback(last: seq<real>): (r: real)
    requires |last| >= 5
    ensures 0.0 <= r <= 1.0
  {
    var fireNorm := Min(1.0, last[0] / 50.0);
    var windNorm := Min(1.0, Abs(last[2]) * 0.5 + Abs(last[3]) * 0.5);
    var dryNorm := Min(1.0, if last[4] > 1.0 then 1.0 - last[4] / 100.0 else 0.7);
    Clip(0.5 * fireNorm + 0.3 * windNorm + 0.2 * dryNorm, 0.0, 1.0)
  }

  /**
   * `_score_sequence`: the prediction's score when `predict_risk` returns,
   * the heuristic when it raises.
   */
  function ScoreSequence(window: seq<seq<real>>, prediction: Result<real, string>): (r: real)
    requires |window| > 0 && |window[|window| - 1]| >= 5
    ensures prediction.Ok? ==> r == prediction.value
    ensures prediction.Err? ==> 0.0 <= r <= 1.0
  {
    match prediction
    case Ok(score) => score
    case Err(_) => ScoreFallback(window[|window| - 1])
  }

  // ---------------------------------------------------------------------------
  // Input rows

  /** One row of the dataset: its rendered timestamp, its feature columns, and its fire_pixels column. */
  datatype Row = Row(timestamp: string, features: seq<real>, firePixels: real)

  /** Python `int(x)` on a float: truncation toward zero. */
  function Trunc(x: real): (r: int)
    ensures x >= 0.0 ==> 0.0 <= r as real <= x < r as real + 1.0
    ensures x < 0.0 ==> r as real - 1.0 < x <= r as real <= 0.0
  {
    if x >= 0.0 then x.Floor else -((-x).Floor)
  }

  function FeatureMatrix(rows: seq<Row>): (m: seq<seq<real>>)
    ensures |m| == |rows|
    ensures forall k :: 0 <= k < |rows| ==> m[k] == rows[k].features
  {
    seq(|rows|, k requires 0 <= k < |rows| => rows[k].features)
  }

  /**
   * The padding step of `build_risk_geojson`: fewer than 24 rows are padded at
   * the front with copies of the first row; an empty frame has no first row
   * (`iloc[0]` raises).
   */
  function PadSequence(rows: seq<Row>): (r: Result<seq<Row>, string>)
    ensures r.Err? <==> rows == []
    ensures r.Ok? && |rows| < 24 ==>
              && |r.value| == 24
              && r.value[24 - |rows|..] == rows
              && forall k :: 0 <= k < 24 - |rows| ==> r.value[k] == rows[0]
    ensures r.Ok? && |rows| >= 24 ==> r.value == rows
  {
    if rows == [] then Err("single positional indexer is out-of-bounds")
    else if |rows| < 24 then Ok(seq(24 - |rows|, _ => rows[0]) + rows)
    else Ok(rows)
  }

  /** `DataFrame.tail(n)`: the last n rows, or all of them. */
  function Tail<T>(xs: seq<T>, n: nat): (r: seq<T>)
    ensures |r| == if |xs| <= n then |xs| else n
    ensures r == xs[|xs| - |r|..]
  {
    if |xs| <= n then xs else xs[|xs| - n..]
  }

  // ---------------------------------------------------------------------------
  // The risk-map grid (`build_risk_geojson`)

  datatype Feature = Feature(
    ring: seq<Position>,
    lat: real, lon: real,
    riskScore: real, riskLevel: Level, alertTier: Tier,
    color: string, opacity: real)

  /** The feature of one grid cell with score `risk`. */
  function Cell(lat: real, lon: real, step: real, risk: real): (f: Feature)
    ensures f.riskScore == risk && f.alertTier == AlertTier(risk) && f.riskLevel == ClassifyRisk(risk).0
  {
    var (level, color) := ClassifyRisk(risk);
    Feature(CellPolygon(lat, lon, step), lat, lon, risk, level, AlertTier(risk), color, RiskOpacity(risk))
  }

  function GridRow(lat: real, lons: seq<real>, step: real, base: seq<seq<real>>,
                   cellRisk: (seq<seq<real>>, real, real) -> real): (r: seq<Feature>)
    ensures |r| == |lons|
    ensures forall j :: 0 <= j < |lons| ==> r[j] == Cell(lat, lons[j], step, cellRisk(base, lat, lons[j]))
  {
    seq(|lons|, j requires 0 <= j < |lons| => Cell(lat, lons[j], step, cellRisk(base, lat, lons[j])))
  }

  /** The cells in the order of the nested loops: latitude outer, longitude inner. */
  function Grid(lats: seq<real>, lons: seq<real>, step: real, base: seq<seq<real>>,
                cellRisk: (seq<seq<real>>, real, real) -> real): (r: seq<Feature>)
    ensures |r| == |lats| * |lons|
  {
    if lats == [] then []
    else
      var n := |lats|;
      assert (n - 1) * |lons| + |lons| == n * |lons|;
      Grid(lats[..n - 1], lons, step, base, cellRisk) + GridRow(lats[n - 1], lons, step, base, cellRisk)
  }

  lemma {:induction false} MulMono(x: nat, y: nat, m: nat)
    requires x <= y
    ensures x * m <= y * m
    decreases y - x
  {
    if x < y {
      MulMono(x, y - 1, m);
      assert (y - 1) * m + m == y * m;
    }
  }

  lemma RowMajorBound(a: nat, b: nat, n: nat, m: nat)
    requires a < n && b < m
    ensures a * m + b < (a + 1) * m <= n * m
  {
    assert a * m + m == (a + 1) * m;
    MulMono(a + 1, n, m);
  }

  lemma GridSnoc(lats: seq<real>, i: nat, lons: seq<real>, step: real, base: seq<seq<real>>,
                 cellRisk: (seq<seq<real>>, real, real) -> real)
    requires i < |lats|
    ensures Grid(lats[..i + 1], lons, step, base, cellRisk)
            == Grid(lats[..i], lons, step, base, cellRisk) + GridRow(lats[i], lons, step, base, cellRisk)
  {
    assert lats[..i + 1][..i] == lats[..i];
  }

  lemma GridRowSnoc(lat: real, lons: seq<real>, j: nat, step: real, base: seq<seq<real>>,
                    cellRisk: (seq<seq<real>>, real, real) -> real)
    requires j < |lons|
    ensures GridRow(lat, lons[..j + 1], step, base, cellRisk)
            == GridRow(lat, lons[..j], step, base, cellRisk) + [Cell(lat, lons[j], step, cellRisk(base, lat, lons[j]))]
  {
  }

  /** Cell (a, b) of the grid sits at index a * |lons| + b. */
  lemma {:induction false} GridAt(lats: seq<real>, lons: seq<real>, step: real, base: seq<seq<real>>,
                                  cellRisk: (seq<seq<real>>, real, real) -> real, a: nat, b: nat)
    requires a < |lats| && b < |lons|
    ensures a * |lons| + b < |lats| * |lons|
    ensures Grid(lats, lons, step, base, cellRisk)[a * |lons| + b]
            == Cell(lats[a], lons[b], step, cellRisk(base, lats[a], lons[b]))
  {
    var n, m := |lats|, |lons|;
    var init := lats[..n - 1];
    var front := Grid(init, lons, step, base, cellRisk);
    var grid := Grid(lats, lons, step, base, cellRisk);
    assert grid == front + GridRow(lats[n - 1], lons, step, base, cellRisk);
    RowMajorBound(a, b, n, m);
    if a == n - 1 {
      assert a * m + b == |front| + b;
    } else {
      RowMajorBound(a, b, n - 1, m);
      GridAt(init, lons, step, base, cellRisk, a, b);
      assert init[a] == lats[a];
    }
  }

  /** A feature whose tier and level are those of its own score. */
  predicate Classified(f: Feature)
  {
    f.alertTier == AlertTier(f.riskScore) && f.riskLevel == ClassifyRisk(f.riskScore).0
  }

  /** Every cell of the grid is classified by its own score. */
  lemma {:induction false} GridCellsClassified(lats: seq<real>, lons: seq<real>, step: real, base: seq<seq<real>>,
                                               cellRisk: (seq<seq<real>>, real, real) -> real)
    ensures forall k :: 0 <= k < |Grid(lats, lons, step, base, cellRisk)| ==>
              Classified(Grid(lats, lons, step, base, cellRisk)[k])
  {
    if lats != [] {
      var n := |lats|;
      var front := Grid(lats[..n - 1], lons, step, base, cellRisk);
      var row := GridRow(lats[n - 1], lons, step, base, cellRisk);
      GridCellsClassified(lats[..n - 1], lons, step, base, cellRisk);
      var grid := Grid(lats, lons, step, base, cellRisk);
      assert grid == front + row;
      forall k | 0 <= k < |grid|
        ensures Classified(grid[k])
      {
        if k >= |front| {
          var j := k - |front|;
          assert grid[k] == row[j];
        } else {
          assert grid[k] == front[k];
        }
      }
    }
  }

  /**
   * `build_risk_geojson`: pad the rows to 24, take the last 24 as the base
   * sequence, then append one feature per (lat, lon) cell.
   */
  method BuildRiskGeoJson(rows: seq<Row>, lats: seq<real>, lons: seq<real>, step: real,
                          cellRisk: (seq<seq<real>>, real, real) -> real)
    returns (r: Result<seq<Feature>, string>)
    ensures r.Err? <==> rows == []
    ensures r.Ok? ==> r.value == Grid(lats, lons, step, BaseSequence(rows), cellRisk)
  {
    var padded := PadSequence(rows);
    if padded.Err? {
      return Err(padded.error);
    }
    var base := FeatureMatrix(Tail(padded.value, 24));
    var features: seq<Feature> := [];
    for i := 0 to |lats|
      invariant features == Grid(lats[..i], lons, step, base, cellRisk)
    {
      var row: seq<Feature> := [];
      for j := 0 to |lons|
        invariant row == GridRow(lats[i], lons[..j], step, base, cellRisk)
      {
        GridRowSnoc(lats[i], lons, j, step, base, cellRisk);
        row := row + [Cell(lats[i], lons[j], step, cellRisk(base, lats[i], lons[j]))];
      }
      assert lons[..|lons|] == lons;
      GridSnoc(lats, i, lons, step, base, cellRisk);
      features := features + row;
    }
    assert lats[..|lats|] == lats;
    return Ok(features);
  }

  /** The 24-row base sequence the grid is scored from (defined for a non-empty input). */
  function BaseSequence(rows: seq<Row>): (base: seq<seq<real>>)
    requires rows != []
    ensures |base| == 24
  {
    FeatureMatrix(Tail(PadSequence(rows).value, 24))
  }

  // ---------------------------------------------------------------------------
  // Replay framing (`build_replay_frames`)

  datatype Summary = Summary(maxRisk: real, firePixels: int, alert: Tier)

  datatype Frame = Frame(
    frame: nat, timestamp: string, hourLabel: string,
    riskScore: real, riskLevel: Level, alertTier: Tier,
    firePixels: int, summary: Summary)

  /** The number of frames: rows SEQ .. min(SEQ + n, len) - 1 each give one. */
  function FrameCount(nRows: nat, nFrames: int): (c: nat)
    ensures c == if nFrames <= 0 || nRows <= SequenceLength then 0
                 else if nFrames < nRows - SequenceLength then nFrames
                 else nRows - SequenceLength
  {
    var startIdx := SequenceLength as int;
    var endIdx := if startIdx + nFrames < nRows then startIdx + nFrames else nRows;
    if endIdx <= startIdx then 0 else endIdx - startIdx
  }

  /** The SEQ rows before row i, as a feature matrix. */
  function Window(rows: seq<Row>, i: nat): (w: seq<seq<real>>)
    requires SequenceLength <= i <= |rows|
    ensures |w| == SequenceLength
  {
    FeatureMatrix(rows[i - SequenceLength..i])
  }

  /** Frame k: scored from the window rows[k .. k+SEQ), stamped with row k+SEQ. */
  function ReplayFrame(rows: seq<Row>, k: nat, scoreOf: seq<seq<real>> -> real): Frame
    requires k + SequenceLength < |rows|
  {
    var i := k + SequenceLength;
    var risk := scoreOf(Window(rows, i));
    var firePx := Trunc(rows[i].firePixels);
    var tier := AlertTier(risk);
    Frame(k, rows[i].timestamp, "Hour +" + Text.NatToString(k),
          risk, ClassifyRisk(risk).0, tier, firePx, Summary(risk, firePx, tier))
  }

  function ReplayFrames(rows: seq<Row>, nFrames: int, scoreOf: seq<seq<real>> -> real): (fs: seq<Frame>)
    ensures |fs| == FrameCount(|rows|, nFrames)
  {
    seq(FrameCount(|rows|, nFrames), k requires 0 <= k < FrameCount(|rows|, nFrames) =>
      ReplayFrame(rows, k, scoreOf))
  }

  /** What every replay frame says about itself and the row it came from. */
  lemma ReplayFrameFacts(rows: seq<Row>, nFrames: int, scoreOf: seq<seq<real>> -> real, k: nat)
    requires k < FrameCount(|rows|, nFrames)
    ensures k + SequenceLength < |rows|
    ensures var f := ReplayFrames(rows, nFrames, scoreOf)[k];
            && f.frame == k
            && f.hourLabel == "Hour +" + Text.NatToString(k)
            && f.timestamp == rows[k + SequenceLength].timestamp
            && f.riskScore == scoreOf(FeatureMatrix(rows[k..k + SequenceLength]))
            && f.alertTier == AlertTier(f.riskScore)
            && f.riskLevel == ClassifyRisk(f.riskScore).0
            && f.summary == Summary(f.riskScore, f.firePixels, f.alertTier)
            && f.firePixels == Trunc(rows[k + SequenceLength].firePixels)
  {
  }

  /** `build_replay_frames`: one frame per row from SEQ up to min(SEQ + n_frames, len(df)). */
  method BuildReplayFrames(rows: seq<Row>, nFrames: int, scoreOf: seq<seq<real>> -> real)
    returns (frames: seq<Frame>)
    ensures frames == ReplayFrames(rows, nFrames, scoreOf)
    ensures forall k :: 0 <= k < |frames| ==> frames[k].frame == k
  {
    var startIdx := SequenceLength;
    var endIdx := if startIdx + nFrames < |rows| then startIdx + nFrames else |rows|;
    frames := [];
    var i := startIdx;
    while i < endIdx
      invariant startIdx <= i
      invariant i <= endIdx || i == startIdx
      invariant |frames| == i - startIdx
      invariant forall k :: 0 <= k < |frames| ==> frames[k] == ReplayFrame(rows, k, scoreOf)
    {
      var window := FeatureMatrix(rows[i - SequenceLength..i]);
      var risk := scoreOf(window);
      var firePx := Trunc(rows[i].firePixels);
      var hourNum := i - startIdx;
      var tier := AlertTier(risk);
      var frame := Frame(hourNum, rows[i].timestamp, "Hour +" + Text.NatToString(hourNum),
                         risk, ClassifyRisk(risk).0, tier, firePx, Summary(risk, firePx, tier));
      assert frame == ReplayFrame(rows, hourNum, scoreOf);
      frames := frames + [frame];
      i := i + 1;
    }
    assert |frames| == FrameCount(|rows|, nFrames);
    assert forall k :: 0 <= k < |frames| ==> frames[k] == ReplayFrames(rows, nFrames, scoreOf)[k];
  }
}
