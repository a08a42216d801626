/**
 * backend/ml/dataset.py: column validation, the sliding-window construction of
 * (sequence, target) pairs, and the train/validation/test partition.
 *
 * The scaler's statistics are not modelled; what is kept is whether it has
 * been fitted, and that sklearn refuses to fit or transform an empty array.
 */
module Dataset {
  import opened Wrappers
  import opened Config
  import Sorting
  import Geo

  /** One row of the training frame: its timestamp, its feature columns and its `risk_score` target. */
  datatype Sample = Sample(time: int, features: seq<real>, riskScore: real)

  predicate ByTime(a: Sample, b: Sample)
  {
    a.time <= b.time
  }

  /** `df.sort_values("timestamp")`: the rows in timestamp order. */
  function SortByTime(df: seq<Sample>): seq<Sample>
  {
    Sorting.Sort(df, ByTime)
  }

  /** The frame is reordered, never changed: sorted by timestamp and a permutation of the input. */
  lemma SortByTimeFacts(df: seq<Sample>)
    ensures Sorting.SortedBy(SortByTime(df), ByTime)
    ensures multiset(SortByTime(df)) == multiset(df)
    ensures forall i, j :: 0 <= i < j < |df| ==> SortByTime(df)[i].time <= SortByTime(df)[j].time
  {
    assert Sorting.TotalPreorder(ByTime);
    Sorting.SortSorted(df, ByTime);
  }

  // ---------------------------------------------------------------------------
  // _validate_df

  /**
   * Why `FireSequenceDataset(df)` raises: `MissingTimestamp` is the
   * `KeyError` of `sort_values("timestamp")`, which comes before
   * `_validate_df`; the other two are the `ValueError`s of `_validate_df`.
   */
  datatype ValidationError = MissingFeatures(names: seq<string>) | MissingTarget | MissingTimestamp

  /** `[f for f in names if f not in columns]`. */
  function MissingColumns(names: seq<string>, columns: set<string>): (r: seq<string>)
    ensures forall x :: x in r <==> x in names && x !in columns
  {
    if names == [] then []
    else if names[0] !in columns then [names[0]] + MissingColumns(names[1..], columns)
    else MissingColumns(names[1..], columns)
  }

  /** The missing names keep the order they have in `names`. */
  lemma {:induction false} MissingColumnsInOrder(names: seq<string>, columns: set<string>, i: nat, j: nat)
    requires i < j < |MissingColumns(names, columns)|
    ensures var r := MissingColumns(names, columns);
            exists p, q :: 0 <= p < q < |names| && r[i] == names[p] && r[j] == names[q]
  {
    var r := MissingColumns(names, columns);
    var rest := MissingColumns(names[1..], columns);
    if names[0] in columns {
      MissingColumnsInOrder(names[1..], columns, i, j);
      var p, q :| 0 <= p < q < |names[1..]| && rest[i] == names[1..][p] && rest[j] == names[1..][q];
      assert r[i] == names[p + 1] && r[j] == names[q + 1];
    } else if i == 0 {
      assert r[j] == rest[j - 1] && rest[j - 1] in names[1..];
      var q :| 0 <= q < |names[1..]| && names[1..][q] == rest[j - 1];
      assert r[i] == names[0] && r[j] == names[q + 1];
    } else {
      MissingColumnsInOrder(names[1..], columns, i - 1, j - 1);
      var p, q :| 0 <= p < q < |names[1..]| && rest[i - 1] == names[1..][p] && rest[j - 1] == names[1..][q];
      assert r[i] == names[p + 1] && r[j] == names[q + 1];
    }
  }

  /**
   * `_validate_df`: every LSTM feature column must be present (the error
   * lists the missing ones, in feature order), and then the `risk_score`
   * target. `None` means the frame is accepted.
   */
  function ValidateColumns(columns: set<string>): (r: Option<ValidationError>)
    ensures r.None? <==> (forall k :: 0 <= k < |Features| ==> Features[k] in columns) && "risk_score" in columns
    ensures r == Some(MissingTarget) <==>
              (forall k :: 0 <= k < |Features| ==> Features[k] in columns) && "risk_score" !in columns
    ensures r.Some? && r.value.MissingFeatures? ==>
              && r.value.names == MissingColumns(Features, columns)
              && r.value.names != []
              && forall x :: x in r.value.names <==> x in Features && x !in columns
  {
    var missing := MissingColumns(Features, columns);
    if missing != [] then
      assert missing[0] in Features && missing[0] !in columns;
      Some(MissingFeatures(missing))
    else if "risk_score" !in columns then Some(MissingTarget)
    else None
  }

  // ---------------------------------------------------------------------------
  // build_sequences

  datatype Sequences = Sequences(x: seq<seq<seq<real>>>, y: seq<real>)

  function FeatureRows(rows: seq<Sample>): (m: seq<seq<real>>)
    ensures |m| == |rows|
    ensures forall k :: 0 <= k < |rows| ==> m[k] == rows[k].features
  {
    seq(|rows|, k requires 0 <= k < |rows| => rows[k].features)
  }

  /**
   * `build_sequences`: window i holds rows [i, i + L) and is paired with the
   * target of row i + L + H - 1. It fails exactly when no window fits, that
   * is when there are fewer than L + H rows; with exactly L + H rows there
   * is one window.
   */
  function BuildSequences(rows: seq<Sample>): (r: Result<Sequences, string>)
    ensures r.Err? <==> |rows| < SequenceLength + ForecastHorizon
    ensures r.Ok? ==> |r.value.x| == |r.value.y| == |rows| - SequenceLength - ForecastHorizon + 1
    ensures r.Ok? ==> forall i :: 0 <= i < |r.value.x| ==>
              && i + SequenceLength + ForecastHorizon - 1 < |rows|
              && r.value.x[i] == FeatureRows(rows[i..i + SequenceLength])
              && r.value.y[i] == rows[i + SequenceLength + ForecastHorizon - 1].riskScore
  {
    var n := |rows|;
    var maxI := n - SequenceLength - ForecastHorizon + 1;
    if maxI <= 0 then Err("Not enough rows to build sequences")
    else
      Ok(Sequences(
        seq(maxI, i requires 0 <= i < maxI => FeatureRows(rows[i..i + SequenceLength])),
        seq(maxI, i requires 0 <= i < maxI => rows[i + SequenceLength + ForecastHorizon - 1].riskScore)))
  }

  /**
   * The target of every window lies after the window, H - 1 rows past its
   * last row, and inside the frame.
   */
  lemma TargetAfterWindow(rows: seq<Sample>, i: nat)
    requires BuildSequences(rows).Ok? && i < |BuildSequences(rows).value.y|
    ensures i + SequenceLength - 1 < i + SequenceLength + ForecastHorizon - 1 <= |rows| - 1
    ensures BuildSequences(rows).value.y[i] == rows[(i + SequenceLength - 1) + ForecastHorizon].riskScore
  {
  }

  // ---------------------------------------------------------------------------
  // get_splits

  /** A Python slice bound for a sequence of length n: negative counts from the end, then clamp to [0, n]. */
  function SliceBound(i: int, n: nat): (r: nat)
    ensures r <= n
    ensures 0 <= i <= n ==> r == i
  {
    if i < 0 then (if n + i < 0 then 0 else n + i) else if i > n then n else i
  }

  /** Python `xs[lo:hi]`. */
  function PySlice<T>(xs: seq<T>, lo: int, hi: int): (r: seq<T>)
    ensures 0 <= lo <= hi <= |xs| ==> r == xs[lo..hi]
  {
    var l, h := SliceBound(lo, |xs|), SliceBound(hi, |xs|);
    if l < h then xs[l..h] else []
  }

  datatype Split<T> = Split(train: seq<T>, val: seq<T>, test: seq<T>)

  /**
   * n * r, written as the sum of n copies of r so that the bounds below are
   * linear facts; `ScaledIsProduct` shows it is the product.
   */
  function Scaled(n: nat, r: real): real
  {
    if n == 0 then 0.0 else Scaled(n - 1, r) + r
  }

  lemma {:induction false} ScaledIsProduct(n: nat, r: real)
    ensures Scaled(n, r) == n as real * r
  {
    if n > 0 {
      ScaledIsProduct(n - 1, r);
      assert (n - 1) as real * r + r == n as real * r;
    }
  }

  /** Scaling by a larger non-negative ratio gives a larger non-negative result. */
  lemma {:induction false} ScaledMono(n: nat, s: real, t: real)
    requires 0.0 <= s <= t
    ensures 0.0 <= Scaled(n, s) <= Scaled(n, t)
  {
    if n > 0 {
      ScaledMono(n - 1, s, t);
    }
  }

  /** A ratio of at most 1 scales n to at most n. */
  lemma {:induction false} ScaledAtMost(n: nat, r: real)
    requires r <= 1.0
    ensures Scaled(n, r) <= n as real
  {
    if n > 0 {
      ScaledAtMost(n - 1, r);
    }
  }

  /** `int(n * train_ratio)` and `int(n * (train_ratio + val_ratio))`. */
  function SplitBounds(n: nat, trainRatio: real, valRatio: real): (int, int)
  {
    (Geo.Trunc(Scaled(n, trainRatio)), Geo.Trunc(Scaled(n, trainRatio + valRatio)))
  }

  function SplitBy<T>(xs: seq<T>, trainRatio: real, valRatio: real): Split<T>
  {
    var (trainEnd, valEnd) := SplitBounds(|xs|, trainRatio, valRatio);
    Split(PySlice(xs, 0, trainEnd), PySlice(xs, trainEnd, valEnd), PySlice(xs, valEnd, |xs|))
  }

  predicate ValidRatios(trainRatio: real, valRatio: real)
  {
    0.0 <= trainRatio && 0.0 <= valRatio && trainRatio + valRatio <= 1.0
  }

  /** For ratios in [0, 1] summing to at most 1: 0 <= train_end <= val_end <= n. */
  lemma SplitBoundsOrdered(n: nat, trainRatio: real, valRatio: real)
    requires ValidRatios(trainRatio, valRatio)
    ensures var (trainEnd, valEnd) := SplitBounds(n, trainRatio, valRatio);
            0 <= trainEnd <= valEnd <= n
  {
    ScaledMono(n, trainRatio, trainRatio + valRatio);
    ScaledAtMost(n, trainRatio + valRatio);
    TruncOrdered(n, Scaled(n, trainRatio), Scaled(n, trainRatio + valRatio));
  }

  lemma TruncOrdered(n: nat, a: real, b: real)
    requires 0.0 <= a <= b <= n as real
    ensures 0 <= Geo.Trunc(a) <= Geo.Trunc(b) <= n
  {
  }

  /**
   * With valid ratios the three splits are contiguous, disjoint and in
   * order, and together they are the whole input.
   */
  lemma SplitPartition<T>(xs: seq<T>, trainRatio: real, valRatio: real)
    requires ValidRatios(trainRatio, valRatio)
    ensures var (trainEnd, valEnd) := SplitBounds(|xs|, trainRatio, valRatio);
            var s := SplitBy(xs, trainRatio, valRatio);
            && 0 <= trainEnd <= valEnd <= |xs|
            && s.train == xs[..trainEnd]
            && s.val == xs[trainEnd..valEnd]
            && s.test == xs[valEnd..]
            && s.train + s.val + s.test == xs
  {
    SplitBoundsOrdered(|xs|, trainRatio, valRatio);
    var (trainEnd, valEnd) := SplitBounds(|xs|, trainRatio, valRatio);
    assert xs[..trainEnd] + xs[trainEnd..valEnd] + xs[valEnd..] == xs;
  }

  datatype Splits = Splits(x: Split<seq<seq<real>>>, y: Split<real>)

  /**
   * `FireSequenceDataset`: the timestamp-sorted frame (fixed after
   * construction) and whether `self.scaler` has been fitted.
   */
  class FireSequenceDataset {
    const rows: seq<Sample>
    var scalerFitted: bool

    /** The fields `__init__` sets: the sorted frame and a new, unfitted scaler. */
    constructor(df: seq<Sample>)
      ensures rows == SortByTime(df) && !scalerFitted
    {
      rows := SortByTime(df);
      scalerFitted := false;
    }

    /**
     * `FireSequenceDataset(df)` on a frame with the given column names:
     * `__init__` first sorts by `timestamp`, which raises `KeyError` when
     * that column is absent (even on an empty frame), and ends with
     * `_validate_df`. So construction raises exactly when the timestamp, a
     * feature column or the `risk_score` target is missing, and a missing
     * timestamp is reported before anything `_validate_df` would report.
     */
    static method Create(df: seq<Sample>, columns: set<string>) returns (r: Result<FireSequenceDataset, ValidationError>)
      ensures r.Err? <==> "timestamp" !in columns || ValidateColumns(columns).Some?
      ensures "timestamp" !in columns ==> r == Err(MissingTimestamp)
      ensures "timestamp" in columns && r.Err? ==> ValidateColumns(columns) == Some(r.error)
      ensures r.Ok? ==> fresh(r.value) && r.value.rows == SortByTime(df) && !r.value.scalerFitted
    {
      if "timestamp" !in columns {
        return Err(MissingTimestamp);
      }
      var d := new FireSequenceDataset(df);
      var invalid := ValidateColumns(columns);
      if invalid.Some? {
        return Err(invalid.value);
      }
      return Ok(d);
    }

    /**
     * `get_splits`: build the windows, cut them at train_end and val_end,
     * fit the scaler on the training windows and transform all three. The
     * scaler refuses an empty array, so an empty split is an error. `fit`
     * resets the scaler before it checks its input, so an empty training
     * split leaves it unfitted; a non-empty one is fitted even when a later
     * transform fails.
     */
    method GetSplits(trainRatio: real, valRatio: real) returns (r: Result<Splits, string>)
      modifies this
      ensures BuildSequences(rows).Err? ==> r.Err? && scalerFitted == old(scalerFitted)
      ensures BuildSequences(rows).Ok? ==>
                var seqs := BuildSequences(rows).value;
                var sx := SplitBy(seqs.x, trainRatio, valRatio);
                && (r.Ok? <==> sx.train != [] && sx.val != [] && sx.test != [])
                && (r.Ok? ==> r.value == Splits(sx, SplitBy(seqs.y, trainRatio, valRatio)))
                && scalerFitted == (sx.train != [])
    {
      var seqs := BuildSequences(rows);
      if seqs.Err? {
        return Err(seqs.error);
      }
      var sx := SplitBy(seqs.value.x, trainRatio, valRatio);
      var sy := SplitBy(seqs.value.y, trainRatio, valRatio);
      if sx.train == [] {
        scalerFitted := false;
        return Err("Found array with 0 sample(s) while a minimum of 1 is required");
      }
      scalerFitted := true;
      if sx.val == [] || sx.test == [] {
        return Err("Found array with 0 sample(s) while a minimum of 1 is required");
      }
      return Ok(Splits(sx, sy));
    }
  }

  /** Windows and targets are split at the same places, so pairs stay aligned. */
  lemma SplitsAligned(rows: seq<Sample>, trainRatio: real, valRatio: real)
    requires BuildSequences(rows).Ok?
    ensures var seqs := BuildSequences(rows).value;
            var sx, sy := SplitBy(seqs.x, trainRatio, valRatio), SplitBy(seqs.y, trainRatio, valRatio);
            |sx.train| == |sy.train| && |sx.val| == |sy.val| && |sx.test| == |sy.test|
  {
  }

  /**
   * With the default ratios (0.70, 0.15) and the minimum frame of L + H
   * rows there is a single window, which goes to the test split: the train
   * split is empty and the scaler cannot be fitted.
   */
  lemma MinimumFrameHasNoTrainingWindow(rows: seq<Sample>)
    requires |rows| == SequenceLength + ForecastHorizon
    ensures BuildSequences(rows).Ok?
    ensures var s := SplitBy(BuildSequences(rows).value.x, 0.70, 0.15);
            s.train == [] && s.val == [] && |s.test| == 1
  {
    assert Scaled(1, 0.70) == 0.70 && Scaled(1, 0.70 + 0.15) == 0.85;
    assert Geo.Trunc(0.70) == 0 && Geo.Trunc(0.85) == 0;
  }
}
