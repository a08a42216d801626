/**
 * backend/api/main.py: the `/replay` endpoint with its memo table and alert
 * frame, the `/alerts` ranking of the demo counties, and the `/risk-map`
 * aggregation. HTTP routing is not modelled. An error raised inside a
 * modelled operation, which the endpoint answers with status 500, becomes
 * `Err`; `/risk-map` and `/alerts` take their dataset already loaded, so a
 * failed load or an unparseable timestamp there has no `Err` here.
 */
module Api {
  import opened Wrappers
  import opened Config
  import Text
  import Sorting
  import Geo
  import Inference

  // ---------------------------------------------------------------------------
  // alert_frame

  /** The tiers that count as an alert for the replay: "warning" and "emergency". */
  predicate Alerting(t: Tier)
  {
    t == Warning || t == Emergency
  }

  /** The `frame` field of the first frame at an alerting tier, if any. */
  function FirstAlert(frames: seq<Geo.Frame>): (r: Option<nat>)
    ensures r.None? <==> forall k :: 0 <= k < |frames| ==> !Alerting(frames[k].alertTier)
    ensures r.Some? ==> exists k :: && 0 <= k < |frames| && Alerting(frames[k].alertTier)
                                    && frames[k].frame == r.value
                                    && forall j :: 0 <= j < k ==> !Alerting(frames[j].alertTier)
  {
    if frames == [] then None
    else if Alerting(frames[0].alertTier) then Some(frames[0].frame)
    else
      var r := FirstAlert(frames[1..]);
      assert forall k :: 1 <= k < |frames| ==> frames[k] == frames[1..][k - 1];
      r
  }

  /**
   * On the frames `build_replay_frames` produces, the alert frame is a valid
   * index: that frame is the first whose score reaches the warning threshold.
   */
  lemma AlertFrameIsIndex(rows: seq<Geo.Row>, nFrames: int, scoreOf: seq<seq<real>> -> real)
    ensures var frames := Geo.ReplayFrames(rows, nFrames, scoreOf);
            match FirstAlert(frames)
            case None => forall k :: 0 <= k < |frames| ==> frames[k].riskScore < WarningThreshold
            case Some(a) =>
              && a < |frames|
              && Alerting(frames[a].alertTier)
              && frames[a].riskScore >= WarningThreshold
              && forall j :: 0 <= j < a ==> frames[j].riskScore < WarningThreshold
  {
    var frames := Geo.ReplayFrames(rows, nFrames, scoreOf);
    forall k | 0 <= k < |frames|
      ensures frames[k].frame == k
      ensures Alerting(frames[k].alertTier) <==> frames[k].riskScore >= WarningThreshold
    {
      Geo.ReplayFrameFacts(rows, nFrames, scoreOf, k);
    }
  }

  // ---------------------------------------------------------------------------
  // /replay and its memo table

  /** `f"{fire_id}_{n_frames}"`. */
  function ReplayKey(fireId: string, nFrames: int): string
  {
    fireId + "_" + Text.IntToString(nFrames)
  }

  /** Of two equal strings `x + "_" + sx`, the part after the last underscore is the same length. */
  lemma SuffixLengthBound(x: string, sx: string, y: string, sy: string)
    requires x + "_" + sx == y + "_" + sy
    requires forall k :: 0 <= k < |sy| ==> sy[k] != '_'
    ensures |sy| <= |sx|
  {
    var key := x + "_" + sx;
    assert key[|x|] == '_';
    assert forall i :: |y| + 1 <= i < |key| ==> key[i] == sy[i - |y| - 1];
  }

  /** The rendered integer has no underscore, so the key determines both arguments. */
  lemma ReplayKeyInjective(a: string, m: int, b: string, n: int)
    requires ReplayKey(a, m) == ReplayKey(b, n)
    ensures a == b && m == n
  {
    var sa, sb := Text.IntToString(m), Text.IntToString(n);
    var key := ReplayKey(a, m);
    assert key == a + "_" + sa == b + "_" + sb;
    SuffixLengthBound(a, sa, b, sb);
    SuffixLengthBound(b, sb, a, sa);
    assert sa == key[|key| - |sa|..] == sb;
    Text.IntToStringInjective(m, n);
    assert a == key[..|a|] == b;
  }

  const DemoFireName: string := "Dixie Fire"

  datatype ReplayResult = ReplayResult(
    fireId: string, fireName: string,
    totalFrames: nat, alertFrame: Option<nat>,
    frames: seq<Geo.Frame>)

  /** The result `/replay` builds for (fire_id, n_frames) from the dataset rows. */
  function BuildReplay(fireId: string, nFrames: int, rows: seq<Geo.Row>, scoreOf: seq<seq<real>> -> real)
    : (r: ReplayResult)
    ensures r.fireId == fireId && r.fireName == DemoFireName
    ensures r.frames == Geo.ReplayFrames(rows, nFrames, scoreOf)
    ensures r.totalFrames == |r.frames|
    ensures r.alertFrame.Some? ==> r.alertFrame.value < r.totalFrames
    ensures r.alertFrame == FirstAlert(r.frames)
  {
    var frames := Geo.ReplayFrames(rows, nFrames, scoreOf);
    AlertFrameIsIndex(rows, nFrames, scoreOf);
    ReplayResult(fireId, DemoFireName, |frames|, FirstAlert(frames), frames)
  }

  /**
   * The module state of main.py that `/replay` uses: `_dataset` (None until
   * `_get_dataset` first loads it; a load that raises leaves it None, so the
   * next request tries again), the window scorer, and the `_replay_cache`
   * dictionary.
   */
  class ReplayService {
    var dataset: Option<seq<Geo.Row>>
    const scoreOf: seq<seq<real>> -> real
    var cache: map<string, ReplayResult>
    /** For each cached key, the arguments it was built from. */
    ghost var args: map<string, (string, int)>

    /** Every cached result is exactly what a fresh build for its key would give. */
    ghost predicate Valid()
      reads this
    {
      && args.Keys == cache.Keys
      && (dataset.None? ==> cache == map[])
      && forall key :: key in cache ==>
           && key == ReplayKey(args[key].0, args[key].1)
           && dataset.Some?
           && cache[key] == BuildReplay(args[key].0, args[key].1, dataset.value, scoreOf)
    }

    constructor(scoreOf: seq<seq<real>> -> real)
      ensures Valid()
      ensures dataset == None && this.scoreOf == scoreOf && cache == map[]
    {
      dataset := None;
      this.scoreOf := scoreOf;
      cache := map[];
      args := map[];
    }

    /**
     * `/replay`: a cached result is returned as is, before the dataset is
     * touched. Otherwise `_get_dataset` runs: a dataset already loaded is
     * reused, else `load` is the outcome of `load_dataset()`, kept only when
     * it succeeds. The frames are then built, the result stored under the
     * key, and returned. `built` reports whether frames were built on this
     * call.
     */
    method Replay(fireId: string, nFrames: int, load: Result<seq<Geo.Row>, string>)
      returns (r: Result<ReplayResult, string>, built: bool)
      requires Valid()
      modifies this
      ensures Valid()
      ensures r.Ok? ==> dataset.Some? && r.value == BuildReplay(fireId, nFrames, dataset.value, scoreOf)
      ensures ReplayKey(fireId, nFrames) in old(cache) ==>
                && r == Ok(old(cache)[ReplayKey(fireId, nFrames)]) && !built
                && dataset == old(dataset) && cache == old(cache)
      ensures ReplayKey(fireId, nFrames) !in old(cache) ==>
                && dataset == (if old(dataset).Some? then old(dataset) else if load.Ok? then Some(load.value) else None)
                && (built <==> dataset.Some?)
                && (r.Err? <==> !built)
                && (r.Err? ==> load.Err? && r == Err(load.error))
      ensures cache == if built then old(cache)[ReplayKey(fireId, nFrames) := r.value] else old(cache)
      ensures old(dataset).Some? ==> dataset == old(dataset)
    {
      var key := ReplayKey(fireId, nFrames);
      if key in cache {
        ReplayKeyInjective(args[key].0, args[key].1, fireId, nFrames);
        return Ok(cache[key]), false;
      }
      if dataset.None? {
        if load.Err? {
          return Err(load.error), false;
        }
        dataset := Some(load.value);
      }
      var frames := Geo.BuildReplayFrames(dataset.value, nFrames, scoreOf);
      var alertFrame := FirstAlert(frames);
      var result := ReplayResult(fireId, DemoFireName, |frames|, alertFrame, frames);
      cache := cache[key := result];
      args := args[key := (fireId, nFrames)];
      return Ok(result), true;
    }
  }

  // ---------------------------------------------------------------------------
  // /alerts

  datatype County = County(name: string, lat: real, lon: real, fips: string)

  const DemoCounties: seq<County> := [
    County("Plumas County", 40.00, -121.00, "06063"),
    County("Butte County", 39.70, -121.60, "06007"),
    County("Lassen County", 40.55, -120.60, "06035"),
    County("Shasta County", 40.80, -121.90, "06089"),
    County("Tehama County", 40.10, -122.20, "06103")
  ]

  datatype CountyAlert = CountyAlert(county: County, prediction: Inference.Prediction)

  datatype AlertsResult = AlertsResult(counties: seq<CountyAlert>, activeAlerts: nat, highestTier: Tier)

  /** The key of `sort(key=risk_score, reverse=True)`: higher scores first. */
  predicate RiskDesc(a: CountyAlert, b: CountyAlert)
  {
    a.prediction.riskScore >= b.prediction.riskScore
  }

  lemma RiskDescTotal()
    ensures Sorting.TotalPreorder(RiskDesc)
  {
  }

  /** The number of counties whose tier is not "none". */
  function CountActive(cs: seq<CountyAlert>): (n: nat)
    ensures n <= |cs|
  {
    if cs == [] then 0
    else (if cs[0].prediction.alertTier != NoAlert then 1 else 0) + CountActive(cs[1..])
  }

  lemma {:induction false} CountActiveAppend(a: seq<CountyAlert>, b: seq<CountyAlert>)
    ensures CountActive(a + b) == CountActive(a) + CountActive(b)
  {
    if a == [] {
      assert a + b == b;
    } else {
      assert (a + b)[0] == a[0];
      assert (a + b)[1..] == a[1..] + b;
      CountActiveAppend(a[1..], b);
    }
  }

  /** The count depends only on which counties there are, not on their order. */
  lemma {:induction false} CountActivePermutation(a: seq<CountyAlert>, b: seq<CountyAlert>)
    requires multiset(a) == multiset(b)
    ensures CountActive(a) == CountActive(b)
    decreases |a|
  {
    if a == [] {
      assert |b| == |multiset(b)| == 0;
    } else {
      assert a[0] in multiset(b);
      var j :| 0 <= j < |b| && b[j] == a[0];
      var rest := b[..j] + b[j + 1..];
      Sorting.MultisetRemove(a, b, j);
      CountActivePermutation(a[1..], rest);
      assert b == b[..j] + ([b[j]] + b[j + 1..]);
      CountActiveAppend(b[..j], [b[j]] + b[j + 1..]);
      CountActiveAppend([b[j]], b[j + 1..]);
      CountActiveAppend(b[..j], b[j + 1..]);
    }
  }

  /**
   * `/alerts`: each demo county's prediction (`countyScore` stands for
   * `predict_risk` on the county's attenuated sequence and either scores it
   * or raises), the counties sorted by score descending, the number not at
   * tier "none", and the first sorted county's tier.
   */
  method Alerts(countyScore: County -> Result<real, string>) returns (r: Result<AlertsResult, string>)
    ensures r.Err? <==> !AllScored(countyScore)
    ensures r.Ok? ==>
              var cs := r.value.counties;
              && |cs| == |DemoCounties|
              && multiset(cs) == multiset(Entries(countyScore))
              && Sorting.SortedBy(cs, RiskDesc)
              && r.value.activeAlerts == CountActive(cs)
              && r.value.highestTier == (if cs == [] then NoAlert else cs[0].prediction.alertTier)
              && forall k :: 0 <= k < |cs| ==> cs[k].prediction.alertTier.Rank() <= r.value.highestTier.Rank()
  {
    var entries: seq<CountyAlert> := [];
    for k := 0 to |DemoCounties|
      invariant |entries| == k
      invariant forall j :: 0 <= j < k ==> countyScore(DemoCounties[j]).Ok?
      invariant forall j :: 0 <= j < k ==> entries[j] == EntryAt(countyScore, j)
    {
      var score := countyScore(DemoCounties[k]);
      if score.Err? {
        assert !AllScored(countyScore);
        return Err(score.error);
      }
      var p := Inference.FormatPrediction(score.value);
      var entry := CountyAlert(DemoCounties[k], p);
      assert entry == EntryAt(countyScore, k);
      entries := entries + [entry];
    }
    assert entries == Entries(countyScore);
    var sorted := Sorting.Sort(entries, RiskDesc);
    SortedEntries(countyScore);
    var highest := if |sorted| > 0 then sorted[0].prediction.alertTier else NoAlert;
    return Ok(AlertsResult(sorted, CountActive(sorted), highest));
  }

  /** Every demo county is scored; `alerts` fails on the first one that is not. */
  predicate AllScored(countyScore: County -> Result<real, string>)
  {
    forall k :: 0 <= k < |DemoCounties| ==> countyScore(DemoCounties[k]).Ok?
  }

  /** The response entry for demo county j, before sorting. */
  function EntryAt(countyScore: County -> Result<real, string>, j: nat): CountyAlert
    requires j < |DemoCounties| && countyScore(DemoCounties[j]).Ok?
  {
    CountyAlert(DemoCounties[j], Inference.Formatted(countyScore(DemoCounties[j]).value))
  }

  /** The response entries in county order, before sorting. */
  function Entries(countyScore: County -> Result<real, string>): (es: seq<CountyAlert>)
    requires AllScored(countyScore)
    ensures |es| == |DemoCounties|
  {
    seq(|DemoCounties|, k requires 0 <= k < |DemoCounties| => EntryAt(countyScore, k))
  }

  /**
   * The sorted entries are a permutation of the entries, ordered by
   * descending score, and no county's tier ranks above the first one's.
   */
  lemma SortedEntries(countyScore: County -> Result<real, string>)
    requires AllScored(countyScore)
    ensures var cs := Sorting.Sort(Entries(countyScore), RiskDesc);
            && |cs| == |DemoCounties|
            && multiset(cs) == multiset(Entries(countyScore))
            && Sorting.SortedBy(cs, RiskDesc)
            && forall k :: 0 <= k < |cs| ==> cs[k].prediction.alertTier.Rank() <= cs[0].prediction.alertTier.Rank()
  {
    var es := Entries(countyScore);
    assert forall k :: 0 <= k < |es| ==> TierOfScore(es[k]);
    RankedFacts(es);
  }

  /** The prediction's tier is the tier of its own score, as `_format_prediction` makes it. */
  predicate TierOfScore(c: CountyAlert)
  {
    c.prediction.alertTier == Geo.AlertTier(c.prediction.riskScore)
  }

  /**
   * Sorting the entries by descending score puts the most severe tier first:
   * no county's tier ranks above the first one's.
   */
  lemma RankedFacts(entries: seq<CountyAlert>)
    requires forall k :: 0 <= k < |entries| ==> TierOfScore(entries[k])
    ensures var sorted := Sorting.Sort(entries, RiskDesc);
            && Sorting.SortedBy(sorted, RiskDesc)
            && forall k :: 0 <= k < |sorted| ==>
                 sorted[k].prediction.alertTier.Rank() <= sorted[0].prediction.alertTier.Rank()
  {
    var sorted := Sorting.Sort(entries, RiskDesc);
    RiskDescTotal();
    Sorting.SortSorted(entries, RiskDesc);
    forall k | 0 <= k < |sorted|
      ensures sorted[k].prediction.alertTier.Rank() <= sorted[0].prediction.alertTier.Rank()
    {
      assert sorted[k] in multiset(entries) && sorted[0] in multiset(entries);
      assert TierOfScore(sorted[k]) && TierOfScore(sorted[0]);
      Geo.AlertTierMonotone(sorted[k].prediction.riskScore, sorted[0].prediction.riskScore);
    }
  }

  /** The active count is the same whether taken before or after sorting. */
  lemma ActiveAlertsCountAll(entries: seq<CountyAlert>)
    ensures CountActive(Sorting.Sort(entries, RiskDesc)) == CountActive(entries)
  {
    CountActivePermutation(Sorting.Sort(entries, RiskDesc), entries);
  }

  /** An entry's tier is "none" exactly when its score is below the watch threshold. */
  lemma ActiveMeansWatch(c: County, score: real)
    ensures CountActive([CountyAlert(c, Inference.Formatted(score))]) == (if score >= WatchThreshold then 1 else 0)
  {
  }

  // ---------------------------------------------------------------------------
  // /risk-map

  /** `df[df.date_str <= date]`: the rows on or before `date`, in order. */
  function OnOrBefore(rows: seq<Geo.Row>, dateOf: string -> string, date: string): (r: seq<Geo.Row>)
    ensures |r| <= |rows|
  {
    if rows == [] then []
    else
      var rest := OnOrBefore(rows[1..], dateOf, date);
      if Text.LexLeq(dateOf(rows[0].timestamp), date) then [rows[0]] + rest else rest
  }

  /** Every kept row is a row on or before `date`, and every such row is kept. */
  lemma {:induction false} OnOrBeforeMembers(rows: seq<Geo.Row>, dateOf: string -> string, date: string)
    ensures forall k :: 0 <= k < |OnOrBefore(rows, dateOf, date)| ==>
              && OnOrBefore(rows, dateOf, date)[k] in rows
              && Text.LexLeq(dateOf(OnOrBefore(rows, dateOf, date)[k].timestamp), date)
    ensures forall x :: x in rows && Text.LexLeq(dateOf(x.timestamp), date) ==> x in OnOrBefore(rows, dateOf, date)
    decreases |rows|
  {
    if rows != [] {
      OnOrBeforeMembers(rows[1..], dateOf, date);
      assert forall x :: x in rows ==> x == rows[0] || x in rows[1..];
    }
  }

  /**
   * `OnOrBefore` is a filter: it distributes over concatenation, and
   * (`OnOrBeforeSingle`) keeps a single row exactly when its date is on or
   * before `date`. Together these make the result the qualifying rows in
   * their original order, each as often as it occurs.
   */
  lemma {:induction false} OnOrBeforeAppend(a: seq<Geo.Row>, b: seq<Geo.Row>, dateOf: string -> string, date: string)
    ensures OnOrBefore(a + b, dateOf, date) == OnOrBefore(a, dateOf, date) + OnOrBefore(b, dateOf, date)
    decreases |a|
  {
    if a == [] {
      assert a + b == b;
    } else {
      OnOrBeforeAppend(a[1..], b, dateOf, date);
      var head: seq<Geo.Row> := if Text.LexLeq(dateOf(a[0].timestamp), date) then [a[0]] else [];
      var ab := a + b;
      assert ab != [] && ab[0] == a[0] && ab[1..] == a[1..] + b;
      calc {
        OnOrBefore(ab, dateOf, date);
        head + OnOrBefore(a[1..] + b, dateOf, date);
        head + (OnOrBefore(a[1..], dateOf, date) + OnOrBefore(b, dateOf, date));
        (head + OnOrBefore(a[1..], dateOf, date)) + OnOrBefore(b, dateOf, date);
        OnOrBefore(a, dateOf, date) + OnOrBefore(b, dateOf, date);
      }
    }
  }

  lemma OnOrBeforeSingle(x: Geo.Row, dateOf: string -> string, date: string)
    ensures OnOrBefore([x], dateOf, date) == if Text.LexLeq(dateOf(x.timestamp), date) then [x] else []
  {
    assert [x][1..] == [];
  }

  /**
   * The rows `/risk-map` scores: the last 24 rows on or before `date`, or,
   * when there is none, the last 24 rows of the dataset.
   */
  function SelectDayRows(rows: seq<Geo.Row>, dateOf: string -> string, date: string): (r: seq<Geo.Row>)
    ensures |r| <= 24
    ensures r == [] <==> rows == []
    ensures (exists x :: x in rows && Text.LexLeq(dateOf(x.timestamp), date)) ==>
              && r == Geo.Tail(OnOrBefore(rows, dateOf, date), 24)
              && forall k :: 0 <= k < |r| ==> Text.LexLeq(dateOf(r[k].timestamp), date)
    ensures (forall x :: x in rows ==> !Text.LexLeq(dateOf(x.timestamp), date)) ==> r == Geo.Tail(rows, 24)
  {
    var on := OnOrBefore(rows, dateOf, date);
    OnOrBeforeMembers(rows, dateOf, date);
    var day := Geo.Tail(on, 24);
    if |day| == 0 then Geo.Tail(rows, 24)
    else
      assert on[|on| - 1] in rows && Text.LexLeq(dateOf(on[|on| - 1].timestamp), date);
      assert forall k :: 0 <= k < |day| ==> day[k] == on[|on| - |day| + k];
      day
  }

  /** `max(risks) if risks else 0`. */
  function MaxRisk(risks: seq<real>): (m: real)
    ensures risks == [] ==> m == 0.0
    ensures risks != [] ==> m in risks
    ensures forall k :: 0 <= k < |risks| ==> risks[k] <= m
  {
    if risks == [] then 0.0
    else if |risks| == 1 then risks[0]
    else
      var rest := MaxRisk(risks[1..]);
      assert forall k :: 1 <= k < |risks| ==> risks[k] == risks[1..][k - 1];
      if risks[0] >= rest then risks[0] else rest
  }

  function Scores(features: seq<Geo.Feature>): (s: seq<real>)
    ensures |s| == |features|
    ensures forall k :: 0 <= k < |features| ==> s[k] == features[k].riskScore
  {
    seq(|features|, k requires 0 <= k < |features| => features[k].riskScore)
  }

  datatype RiskMapResult = RiskMapResult(
    date: string, region: string, nCells: nat, maxRisk: real,
    riskLevel: Level, alertTier: Tier, features: seq<Geo.Feature>)

  /**
   * `/risk-map`: select the day's rows, build the grid, and summarise it by its
   * highest cell score. It fails exactly when the dataset has no rows (the
   * padding step has no first row to copy).
   */
  method RiskMap(rows: seq<Geo.Row>, dateOf: string -> string, date: string, region: string,
                 lats: seq<real>, lons: seq<real>, step: real,
                 cellRisk: (seq<seq<real>>, real, real) -> real)
    returns (r: Result<RiskMapResult, string>)
    ensures r.Err? <==> rows == []
    ensures r.Ok? ==>
              var day := SelectDayRows(rows, dateOf, date);
              && r.value.features == Geo.Grid(lats, lons, step, Geo.BaseSequence(day), cellRisk)
              && r.value.nCells == |lats| * |lons|
              && r.value.maxRisk == MaxRisk(Scores(r.value.features))
              && r.value.alertTier == Geo.AlertTier(r.value.maxRisk)
              && r.value.riskLevel == Geo.ClassifyRisk(r.value.maxRisk).0
              && forall k :: 0 <= k < |r.value.features| ==>
                   r.value.features[k].alertTier.Rank() <= r.value.alertTier.Rank()
  {
    var day := SelectDayRows(rows, dateOf, date);
    var geo := Geo.BuildRiskGeoJson(day, lats, lons, step, cellRisk);
    if geo.Err? {
      return Err(geo.error);
    }
    var features := geo.value;
    var maxRisk := MaxRisk(Scores(features));
    var alert := Geo.AlertTier(maxRisk);
    Geo.GridCellsClassified(lats, lons, step, Geo.BaseSequence(day), cellRisk);
    forall k | 0 <= k < |features|
      ensures features[k].alertTier.Rank() <= alert.Rank()
    {
      Geo.AlertTierMonotone(features[k].riskScore, maxRisk);
    }
    return Ok(RiskMapResult(date, region, |features|, maxRisk, Geo.ClassifyRisk(maxRisk).0, alert, features));
  }
}
