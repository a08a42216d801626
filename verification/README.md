# PyroWatch replay engine and risk pipeline, in Dafny

PyroWatch replays a wildfire (the 2021 Dixie Fire) as a series of hourly risk
frames on a map. This project models the parts of it that decide what the
operator sees:

- **The dashboard's playback engine** (`Playback`, from
  `frontend/src/pages/Dashboard.tsx`). It holds the frame index, the play flag,
  the speed, the one-shot alert latch and the single situation-report slot, as
  a class whose methods are the timer tick, the scrubber, the buttons and the
  effects. It also covers the tier lookup, the timer arithmetic, the scrubber
  rounding and the report's sentence lines.
- **The backend that builds the frames it plays.** This covers the
  risk-band and alert-tier classifiers (`Config`, `Geo`, `Inference`) and the
  sliding-window framing of the replay (`Geo`). It also covers the `/replay`
  memo table and alert frame, the `/alerts` ranking and the `/risk-map`
  summary (`Api`).
- **The training-side windowing and partition** (`Dataset`) and the
  early-stopping loop with its checkpoint and AUC bookkeeping (`Train`).
- **The TTL file cache** (`Cache`) and the situation-report decision
  procedure with its template report (`Featherless`).

Helper modules:

- `Wrappers`: Option and Result.
- `Text`: decimal rendering, join and split, string order, upper and strip.
- `Sorting`: an insertion sort proved sorted and a permutation.
- `Reals`: two facts about real products.

## How the model is built

- **Scores and thresholds are `real`.** The decimal thresholds (0.35, 0.40,
  0.75, …) are exact there.
- **Collaborators outside the core are parameters.**
  - The LSTM's score of a window is `scoreOf`, `cellRisk` or `countyScore`.
    A model that is missing or fails to load is the `Inference.Loader` value.
  - The scorer `scoreOf` stands for `w => Geo.ScoreSequence(w, predict(w))`,
    the model's score or the bounded heuristic. The frame and grid builders
    take it as given, so the [0, 1] bound of the heuristic is stated on
    `Geo.ScoreSequence` and not on the frames.
  - The clock is `now`, and md5 is an opaque `digest`.
  - The LLM's reply is an `Option<string>`.
  - An epoch's losses and AUC are `observe(epoch)`.
- **Errors the source raises inside a modelled operation become `Err`.**
  Where an endpoint answers HTTP 500 for such an error, its model returns
  `Err`. Errors of collaborators that arrive as parameters (loading the
  dataset for `/risk-map` and `/alerts`, parsing timestamps) are not modelled;
  see "## Left out".
- **State the source mutates is imperative Dafny.**
  - The dashboard state is a class, and so are the cache directory, the
    `/replay` memo table and the dataset's scaler flag.
  - The loops of `build_replay_frames`, `build_risk_geojson`, `alerts`,
    `_format_prediction`, `predict_grid`, `validate_keys` and the training
    epochs are methods with loop invariants.
  - Each such method is proved equal to a pure specification function, or
    given a contract that determines its result (`Config.ValidateKeys`,
    `Api.Alerts`).
  - The properties are proved about those functions as lemmas.
- **React effects become methods** that a caller invokes where React would
  run them: `ObserveIndex`, `AutoFetch`, `Tick`. The alert flash is the
  `flash` result of `ObserveIndex`. A report request is returned to the
  caller, and its outcome comes back through `SettleSitrep`.

### Where the code and its description differ

The model follows the code.

- **Loading a replay resets nothing.** `LoadReplay` does not reset the index,
  the play flag, the latch or the report.
- **No empty-series rejection.** Nothing rejects a series with no frames.
- **No `InvalidSpeed`.** Only the three speed buttons set the speed, so
  `SetSpeed` requires one of them.
- **No clamping.**
  - The scrubber sets `round(pct * (total - 1))` without clamping.
  - The timer stops at the last frame but never moves an index that is
    already past it.
  - There are no step-forward and step-backward operations.
- **No per-frame report cache and no in-flight de-duplication.**
  - The report is a single slot with a loading flag.
  - The auto-fetch effect sends a request whenever a frame is shown and no
    report is held, even while one is loading.
  - A late response for an earlier frame overwrites the slot.
- **An alert frame of 0 is ignored.** The latch effect tests
  `!replay?.alert_frame`, so an alert frame of 0 counts as absent and never
  fires (`Playback.NoAlertFrameNeverFires`).
- **`build_sequences` succeeds with exactly L + H rows.** Its error message
  says it needs more than `seq_len + horizon` rows, but that many rows give
  one window. With the default ratios that single window lands in the test
  split, so `get_splits` fails when fitting the scaler
  (`Dataset.MinimumFrameHasNoTrainingWindow`).
- **`_fallback_prediction` reads the wrong columns.** It reads column 2 as
  wind speed and column 4 as humidity, but the feature list puts
  `wind_dir_sin` at 2 and `temperature` at 4. The model reads the columns the
  code reads (`Inference.FallbackScore`).

## Model

| member | source | states |
|---|---|---|
| Config.FeatureShape | backend/utils/config.py:51-74 | `n_features` is 10, equal to the length of the feature list, and the ten feature names are distinct |
| Config.BandsContiguous | backend/utils/config.py:76-81 | every risk band is non-empty and ends exactly where the next band starts |
| Config.BandsCover | backend/utils/config.py:76-81 | a score lies in some band if and only if 0.0 <= score < 1.01 |
| Config.FirstBand | backend/api/geo.py:167-170 | the table-order scan: no result iff no band contains the score; otherwise the level of a band that contains it with no earlier band containing it |
| Config.FirstBandAt | backend/api/geo.py:167-169 | a containing band with no earlier containing band is the one the scan reports |
| Config.BandOfScore | backend/utils/config.py:76-81 | the scan's result for each score range: low [0, 0.35), moderate [0.35, 0.55), high [0.55, 0.70), extreme [0.70, 1.01), none outside |
| Config.AlertThresholdsOrdered | backend/utils/config.py:83-87 | 0 < watch < warning < emergency < 1 |
| Config.TierNamesDistinct | backend/utils/config.py:83-87 | the four tier names (with "none") are distinct, so a tier is determined by its name |
| Config.ValidateKeys | backend/utils/config.py:93-106 | true iff all three keys are non-empty iff nothing is missing; each key's name is listed iff that key is empty; names listed in FIRMS, NOAA, FEATHERLESS order |
| Geo.AlertTier | backend/api/geo.py:173-177 | emergency iff score >= 0.75, warning iff 0.60 <= score < 0.75, watch iff 0.40 <= score < 0.60, none iff score < 0.40 |
| Geo.AlertTierMonotone | backend/api/geo.py:173-177 | a higher score never gives a less severe tier |
| Geo.ClassifyRisk | backend/api/geo.py:166-170 | the first band containing the score, "extreme" for negative scores and scores >= 1.01; the colour is always the level's RISK_COLORS entry |
| Geo.Clip | backend/api/geo.py:163 | `np.clip`: the result lies in [lo, hi] and equals the input when the input already does |
| Geo.RiskOpacity | backend/api/geo.py:180-181 | the opacity always lies in [0.1, 0.85] |
| Geo.RiskOpacityMonotone | backend/api/geo.py:180-181 | opacity never decreases as the score grows |
| Geo.CellPolygon | backend/api/geo.py:184-191 | a closed ring of 5 positions whose first four are the square's corners lon..lon+step by lat..lat+step, consecutive corners one step apart along one axis |
| Geo.ScoreFallback | backend/api/geo.py:158-163 | the heuristic score of the last row always lies in [0, 1] |
| Geo.ScoreSequence | backend/api/geo.py:153-163 | the model's score when `predict_risk` succeeds, otherwise a heuristic score in [0, 1] |
| Geo.Trunc | backend/api/geo.py:93 | Python `int()` on a float: truncation toward zero, within 1 of the input on the zero side |
| Geo.PadSequence | backend/api/geo.py:34-37 | fails iff there are no rows; fewer than 24 rows are front-padded with copies of the first row to exactly 24, with the original rows last; 24 or more are unchanged |
| Geo.Tail | backend/api/geo.py:39 | `tail(n)`: the last min(n, len) rows |
| Geo.Cell | backend/api/geo.py:52-71 | a grid cell carries its own score, the alert tier and the risk level of that score |
| Geo.GridRow | backend/api/geo.py:45-71 | one cell per longitude, cell j scored at (lat, lons[j]) |
| Geo.Grid | backend/api/geo.py:44-71 | the nested loops yield |lats| * |lons| cells |
| Geo.GridAt | backend/api/geo.py:44-71 | cell (a, b) sits at index a * |lons| + b and is scored at (lats[a], lons[b]) |
| Geo.GridCellsClassified | backend/api/geo.py:52-54 | every cell's tier and level are those of its own score |
| Geo.BuildRiskGeoJson | backend/api/geo.py:20-75 | fails iff there are no rows; otherwise the features are exactly the latitude-major grid scored from the padded 24-row base sequence |
| Geo.BaseSequence | backend/api/geo.py:34-39 | the base sequence always has 24 rows |
| Geo.FrameCount | backend/api/geo.py:83-88 | the number of frames is max(0, min(n_frames, len - SEQ)) |
| Geo.ReplayFrameFacts | backend/api/geo.py:88-112 | frame k is numbered k, labelled "Hour +k", stamped and counted from row k+SEQ, scored on rows [k, k+SEQ), classified by its own score, and its summary repeats score, pixels and tier |
| Geo.BuildReplayFrames | backend/api/geo.py:78-115 | the loop builds exactly the specified frame series, and each frame's number is its list position |
| Api.FirstAlert | backend/api/main.py:176-178 | none iff no frame is at warning or emergency; otherwise the number of the first frame that is |
| Api.AlertFrameIsIndex | backend/api/main.py:175-178 | on built frames the alert frame is a valid index, the first frame whose score reaches the warning threshold |
| Api.ReplayKeyInjective | backend/api/main.py:169 | `f"{fire_id}_{n_frames}"` determines both the fire id and the frame count |
| Api.BuildReplay | backend/api/main.py:173-189 | the result carries the built frames, `total_frames` equal to their number, and the first alerting frame as an index below it |
| Api.ReplayService.constructor | backend/api/main.py:35-36 | no dataset is loaded yet and the memo table starts empty |
| Api.ReplayService.Replay | backend/api/main.py:164-195 | a stored key is answered as stored without touching the dataset; on a miss the dataset is loaded if it is not yet (a failed load answers its error and leaves it unloaded, so the next request retries), then the frames are built and stored; a loaded dataset never changes; every stored result is what a fresh build for its key gives |
| Api.CountActive | backend/api/main.py:225-226 | the active count never exceeds the number of counties |
| Api.CountActivePermutation | backend/api/main.py:224-226 | the active count does not depend on the order of the counties |
| Api.ActiveAlertsCountAll | backend/api/main.py:224-226 | counting after the sort gives the same number as before it |
| Api.ActiveMeansWatch | backend/api/main.py:225 | a county is active iff its score reaches the watch threshold |
| Api.Entries | backend/api/main.py:215-222 | one entry per demo county |
| Api.SortedEntries | backend/api/main.py:224-231 | the sorted counties are a permutation of the entries, in descending score, and no county's tier ranks above the first one's |
| Api.RankedFacts | backend/api/main.py:224-231 | sorting by descending score puts the most severe tier first |
| Api.Alerts | backend/api/main.py:206-235 | fails iff some county cannot be scored; otherwise all five counties, sorted by descending score, with the active count and the first county's tier as the highest, which no county exceeds |
| Api.OnOrBeforeMembers | backend/api/main.py:98-99 | every kept row is a row of the dataset dated on or before the requested date, and every such row is kept |
| Api.OnOrBeforeAppend | backend/api/main.py:98-99 | the date filter distributes over concatenation, so it keeps rows in their order and multiplicity |
| Api.OnOrBeforeSingle | backend/api/main.py:98-99 | a single row is kept iff its date is on or before the requested date |
| Api.SelectDayRows | backend/api/main.py:98-101 | at most 24 rows, empty iff the dataset is; when some row is on or before the date, the last 24 such rows; otherwise the dataset's last 24 |
| Api.MaxRisk | backend/api/main.py:105-106 | 0 for no features, otherwise one of the scores and at least every score |
| Api.Scores | backend/api/main.py:105 | the feature scores in feature order |
| Api.RiskMap | backend/api/main.py:89-119 | given the loaded dataset, fails iff it is empty; otherwise the grid of the day's rows, `n_cells` cells, the maximum score, and that maximum's tier and level, which no cell's tier exceeds |
| Inference.Formatted | backend/ml/inference.py:79-100 | level is the first band containing the score, "low" when none does; tier is geo's cascade; `forecast_hours` is the horizon; confidence high iff 0.1 < score < 0.9 |
| Inference.LevelAgreesWithGeo | backend/ml/inference.py:80-84 | the two level classifiers agree on [0, 1.01); outside it inference says "low" where geo says "extreme" |
| Inference.FormatPrediction | backend/ml/inference.py:79-100 | the band scan with `break` and the tier cascade compute exactly the specified prediction |
| Inference.FallbackScore | backend/ml/inference.py:103-109 | `min(1.0, sum)`: the weighted sum when it is at most 1.0, and 1.0 when it is at least 1.0 |
| Inference.FallbackScoreCanBeNegative | backend/ml/inference.py:109 | there is no lower clamp: a humid row with no fire pixels scores below 0 |
| Inference.FallbackPrediction | backend/ml/inference.py:103-110 | fails iff there is no last row or it has fewer than 5 columns; otherwise the formatted heuristic score, at most 1.0 |
| Inference.PredictRisk | backend/ml/inference.py:53-76 | fails without torch or when loading fails; without a model it runs the fallback on any shape; with a model it fails iff the shape is not (24, 10), else formats the network's score |
| Inference.Min3 | backend/ml/inference.py:124 | `zip` stops at the shortest of the three inputs |
| Inference.PredictGrid | backend/ml/inference.py:113-140 | one entry per zipped (lat, lon, seq) triple, in input order; without a model each is its sequence's fallback and it fails iff one of those fails; with a model it fails iff the batch is empty, ragged or not 10 features wide, and otherwise each entry is the formatted network score |
| Dataset.SortByTimeFacts | backend/ml/dataset.py:17 | the stored frame is sorted by timestamp and is a permutation of the input |
| Dataset.MissingColumns | backend/ml/dataset.py:23 | a name is reported iff it is a feature and not a column |
| Dataset.MissingColumnsInOrder | backend/ml/dataset.py:23 | the missing names keep the feature list's order |
| Dataset.ValidateColumns | backend/ml/dataset.py:22-27 | accepted iff every feature and `risk_score` are columns; features are checked before the target; the error lists exactly the missing features |
| Dataset.BuildSequences | backend/ml/dataset.py:30-47 | fails iff n < L + H; otherwise n - L - H + 1 windows, window i being rows [i, i + L) and its target that of row i + L + H - 1 |
| Dataset.TargetAfterWindow | backend/ml/dataset.py:43-44 | each target row lies H - 1 rows past its window's last row and inside the frame |
| Dataset.SliceBound | backend/ml/dataset.py:60-62 | a Python slice bound is normalised into [0, n] and unchanged when already inside |
| Dataset.PySlice | backend/ml/dataset.py:60-62 | a Python slice with bounds in order inside the sequence is the plain subsequence |
| Dataset.ScaledIsProduct | backend/ml/dataset.py:57-58 | the repeated sum used for `n * ratio` is the product |
| Dataset.ScaledMono | backend/ml/dataset.py:57-58 | a larger non-negative ratio gives a larger non-negative `n * ratio` |
| Dataset.ScaledAtMost | backend/ml/dataset.py:57-58 | a ratio of at most 1 keeps `n * ratio` at most n |
| Dataset.TruncOrdered | backend/ml/dataset.py:57-58 | truncation preserves order within [0, n] |
| Dataset.SplitBoundsOrdered | backend/ml/dataset.py:57-58 | for ratios >= 0 with sum <= 1: 0 <= train_end <= val_end <= n |
| Dataset.SplitPartition | backend/ml/dataset.py:57-62 | the three splits are contiguous, in order, and concatenate back to the input |
| Dataset.FireSequenceDataset.constructor | backend/ml/dataset.py:13-18 | the fields `__init__` sets: the stored frame is the timestamp-sorted input and the scaler is unfitted |
| Dataset.FireSequenceDataset.Create | backend/ml/dataset.py:13-27 | construction fails iff the `timestamp` column is missing (the sort's error, reported first) or column validation fails (its error); otherwise a new dataset over the sorted frame with an unfitted scaler |
| Dataset.FireSequenceDataset.GetSplits | backend/ml/dataset.py:49-80 | fails when windowing fails, leaving the scaler as it was; otherwise succeeds iff all three splits are non-empty, returns the aligned splits, and leaves the scaler fitted iff the training split is non-empty |
| Dataset.SplitsAligned | backend/ml/dataset.py:60-62 | windows and targets are cut at the same places |
| Dataset.MinimumFrameHasNoTrainingWindow | backend/ml/dataset.py:35-62 | with exactly L + H rows and the default ratios there is one window, and it lands in the test split |
| Cache.SafeKeyShortInjective | backend/utils/cache.py:17-19 | two keys of at most 80 characters share a file iff they are equal |
| Cache.LookupChangesAtMostItsFile | backend/utils/cache.py:21-36 | a read hits iff the file holds a record no older than ttl, returning its value; it changes nothing but the deletion of its own expired file |
| Cache.SetThenGet | backend/utils/cache.py:21-48 | a value set at t reads back unchanged at any time up to t + ttl; after that the read deletes it |
| Cache.OtherFilesUntouched | backend/utils/cache.py:17-48 | setting or reading one file leaves every other file as it was |
| Cache.LookupIdempotent | backend/utils/cache.py:21-36 | reading twice at the same time gives the same answer and the same directory |
| Cache.Cleared | backend/utils/cache.py:50-58 | a truthy key removes only its own file; None or "" removes every file |
| Cache.Cache.constructor | backend/utils/cache.py:10-14 | the time-to-live is ttl_hours * 3600 seconds (ttl_hours 720 unless given) over the existing directory |
| Cache.Cache.Get | backend/utils/cache.py:21-36 | the result and the directory afterwards are those of the specified read of the key's file |
| Cache.Cache.Set | backend/utils/cache.py:38-48 | the key's file holds the value stamped with now; nothing else changes |
| Cache.Cache.Clear | backend/utils/cache.py:50-58 | the directory becomes the specified cleared directory |
| Cache.KeywordsInNameOrder | backend/utils/cache.py:62 | the keyword arguments are put in name order, none added or lost |
| Cache.MakeCacheKeyOrderFree | backend/utils/cache.py:61-63 | the key does not depend on the order in which keyword arguments are passed |
| Featherless.ActionFor | backend/api/featherless.py:73-79 | each of emergency, warning and watch selects its own action; any other tier selects the "none" action |
| Featherless.ActionPerTier | backend/api/featherless.py:73-79 | every tier the backend produces selects its matching action |
| Featherless.TemplateReport | backend/api/featherless.py:65-87 | the template contains the tier upper-cased (default "none") and ends with that tier's action sentence |
| Featherless.DecisionOrder | backend/api/featherless.py:27-58 | cache first (a truthy hit is returned), then no key gives the template, then the LLM; only an LLM reply, stripped, is written back; the template is returned on failure |
| Featherless.NoLlmCallWhenAnswered | backend/api/featherless.py:28-36 | on a cache hit or without a key the LLM's answer cannot affect the outcome |
| Featherless.GenerateSituationReport | backend/api/featherless.py:9-58 | on the module cache with its 168-hour time-to-live, the report, its source and the cache afterwards are exactly the decision procedure's |
| Featherless.SecondRequestHitsCache | backend/api/featherless.py:27-54 | after a non-empty LLM report, a request within the ttl is answered from the cache with the same text |
| Train.ImprovesIffStrictlyBest | backend/ml/train.py:108 | `val_loss < best_val_loss` holds iff the new loss is strictly below every earlier one |
| Train.LogStep | backend/ml/train.py:123 | one epoch's logging rule keeps the log exactly the set of epochs 1, multiples of 5 and improvements |
| Train.StepHistories | backend/ml/train.py:91-103 | one epoch appends its observed losses and its AUC by the fallback rule |
| Train.StepBest | backend/ml/train.py:107-121 | one epoch keeps best loss, checkpoint and patience counter consistent with the history |
| Train.StepLog | backend/ml/train.py:123-131 | one epoch keeps the progress lines consistent with the history |
| Train.RunShape | backend/ml/train.py:63-135 | the loop has run all k epochs unless it stopped, and it stopped exactly when the counter reached the patience |
| Train.RunHistories | backend/ml/train.py:88-103 | after k epochs the histories hold what each epoch observed |
| Train.RunTracked | backend/ml/train.py:107-131 | after k epochs the best-model bookkeeping and the progress lines are consistent |
| Train.RunConsistent | backend/ml/train.py:63-135 | all of the above invariants hold together after any number of epochs |
| Train.RunStopped | backend/ml/train.py:133-135 | once stopped, later epochs change nothing |
| Train.BestIsMinimum | backend/ml/train.py:107-121 | after an epoch, `best_val_loss` is the minimum loss seen, first reached at the checkpoint epoch whose AUC the checkpoint keeps; the counter counts epochs since |
| Train.StopsAtFirstExhaustedEpoch | backend/ml/train.py:133-135 | the loop stops at the first epoch whose counter reaches 8 epochs after the checkpoint, and otherwise runs all epochs |
| Train.AucFallback | backend/ml/train.py:91-98 | each recorded AUC is the epoch's own, else the previous epoch's, else 0.5 |
| Train.HistoryAndLog | backend/ml/train.py:101-131 | one entry per completed epoch in each history holding that epoch's losses, and a progress line exactly for epoch 1, multiples of 5 and strict improvements |
| Train.TrainLoop | backend/ml/train.py:55-135 | the imperative loop with its early `break` ends in exactly the specified state after the configured 50 epochs |
| Train.TestAuc | backend/ml/train.py:150-157 | the test AUC is the score when both classes occur, otherwise 0.5 |
| Train.Troubleshooting | backend/ml/train.py:177-208 | advice is given iff the AUC misses 0.82: random below 0.6, moderate in [0.6, 0.75), close in [0.75, 0.82) |
| Playback.GetTier | frontend/src/pages/Dashboard.tsx:74-76 | a tier-table key maps to itself; anything else maps to "none", without failing |
| Playback.GetTierOfName | frontend/src/pages/Dashboard.tsx:75-76 | every tier name the backend sends is looked up as itself |
| Playback.TicksClosedForm | frontend/src/pages/Dashboard.tsx:151-160 | n ticks advance the index by n capped at total - 1, and never move an index already at or past the last frame |
| Playback.TicksStayInRange | frontend/src/pages/Dashboard.tsx:153-157 | an index in [0, total - 1] stays there, never going back, however many ticks follow |
| Playback.JsRound | frontend/src/pages/Dashboard.tsx:372 | `Math.round`: the nearest integer, halves rounded up |
| Playback.RoundInRange | frontend/src/pages/Dashboard.tsx:372 | rounding a value in [0, last] stays in [0, last] |
| Playback.SeekInRange | frontend/src/pages/Dashboard.tsx:366-373 | a click fraction in [0, 1] lands in [0, total - 1]; the two ends of the track are the first and last frames |
| Playback.Progress | frontend/src/pages/Dashboard.tsx:110 | the progress of an index inside the series lies in [0, 1] |
| Playback.SeekProgress | frontend/src/pages/Dashboard.tsx:366-381 | clicking where the progress bar ends seeks to the frame already shown |
| Playback.AlertStep | frontend/src/pages/Dashboard.tsx:163-171 | an absent or zero alert frame changes nothing; otherwise the flash fires iff the index is at or past the alert frame and the latch is clear, and the latch ends set iff the index is at or past it |
| Playback.LatchHeld | frontend/src/pages/Dashboard.tsx:163-171 | after a flash the latch stays set while the index stays at or above the alert frame |
| Playback.NoSecondFlashWithoutRearm | frontend/src/pages/Dashboard.tsx:163-171 | two flashes are always separated by an index below the alert frame |
| Playback.NoAlertFrameNeverFires | frontend/src/pages/Dashboard.tsx:164 | with no alert frame or an alert frame of 0 nothing ever flashes and the latch never moves |
| Playback.PlaythroughLatch | frontend/src/pages/Dashboard.tsx:163-171 | playing frames 0..m-1 from a clear latch leaves it set iff the alert frame was reached |
| Playback.PlaythroughFlashesOnce | frontend/src/pages/Dashboard.tsx:163-171 | a playthrough flashes exactly once, at the alert frame |
| Playback.SplitJoinedSentences | frontend/src/pages/Dashboard.tsx:174 | sentences without ". " joined by ". " split back into the same sentences |
| Playback.NonEmptyKeeps | frontend/src/pages/Dashboard.tsx:174 | `filter(Boolean)` keeps a list with no empty pieces unchanged |
| Playback.SitrepLinesOfSentences | frontend/src/pages/Dashboard.tsx:174-177 | a report of three or more sentences shows its first three, each with its full stop restored |
| Playback.NoReportFallbacks | frontend/src/pages/Dashboard.tsx:175-177 | with no report every line is its fixed fallback |
| Playback.Dashboard.constructor | frontend/src/pages/Dashboard.tsx:94-103 | no replay, index 0, paused, speed 12, latch clear, no report and not loading |
| Playback.Dashboard.CurrentFrame | frontend/src/pages/Dashboard.tsx:105 | a frame is shown iff a replay is loaded and the index is inside its frames, and it is the frame at the index |
| Playback.Dashboard.TickInterval | frontend/src/pages/Dashboard.tsx:158 | the timer period times the speed is 800 ms, so it lies in [800/12, 800] |
| Playback.Dashboard.LoadReplay | frontend/src/pages/Dashboard.tsx:113-117 | the replay is stored and nothing else changes |
| Playback.Dashboard.Tick | frontend/src/pages/Dashboard.tsx:151-160 | no effect unless playing with a replay; otherwise one tick step: advance by one below the last frame, else stop playback in place |
| Playback.Dashboard.Seek | frontend/src/pages/Dashboard.tsx:366-373 | ignored with no replay; otherwise the index becomes the rounded click position |
| Playback.Dashboard.TogglePlay | frontend/src/pages/Dashboard.tsx:348 | the play flag flips and nothing else changes |
| Playback.Dashboard.SetSpeed | frontend/src/pages/Dashboard.tsx:407-410 | the speed becomes one of 1, 4, 12 and nothing else changes |
| Playback.Dashboard.ObserveIndex | frontend/src/pages/Dashboard.tsx:163-171 | the latch and the flash event are those of one alert step on the current index |
| Playback.Dashboard.StartSitrep | frontend/src/pages/Dashboard.tsx:127-140 | the slot is loading and the request is for the given frame |
| Playback.Dashboard.SettleSitrep | frontend/src/pages/Dashboard.tsx:141-143 | a response replaces the report, a failure keeps the previous one, and either way loading ends |
| Playback.Dashboard.AutoFetch | frontend/src/pages/Dashboard.tsx:146-148 | a request is sent iff a frame is shown and no report is held, whether or not one is loading |
| Playback.Dashboard.Refresh | frontend/src/pages/Dashboard.tsx:525-527 | a request is sent iff not loading and a frame is shown |
| Text.IntToString | backend/api/main.py:169 | the rendering is non-empty and made of digits and a minus sign |
| Text.IntToStringInjective | backend/api/main.py:169 | distinct integers render to distinct strings |
| Text.SplitJoin | frontend/src/pages/Dashboard.tsx:174 | joining the pieces of `split(sep)` with sep gives back the string |
| Text.NonEmpty | frontend/src/pages/Dashboard.tsx:174 | `filter(Boolean)`: every kept piece is non-empty, and a piece is kept iff it is a non-empty input piece |
| Text.NonEmptyFilters | frontend/src/pages/Dashboard.tsx:174 | `filter(Boolean)` distributes over concatenation and keeps a single piece iff it is non-empty, so pieces keep their order and multiplicity |
| Text.LexLeqTotal | backend/api/main.py:99 | any two strings are ordered one way or the other |
| Text.LexLeqTransitive | backend/api/main.py:99 | string order is transitive |
| Text.LexLeqAntisymmetric | backend/utils/cache.py:62 | strings ordered both ways are equal, so distinct keyword names sort uniquely |
| Text.Upper | backend/api/featherless.py:83 | `upper()` keeps the length and upper-cases each ASCII letter |
| Text.Strip | backend/api/featherless.py:51 | `strip()` is a contiguous slice of the input with only whitespace cut at either end, and no whitespace left at its ends |
| Sorting.Sort | backend/api/main.py:224 | sorting keeps length and contents (a permutation) |
| Sorting.SortSorted | backend/api/main.py:224 | for a total preorder the result is in order |
| Sorting.SortedUnique | backend/utils/cache.py:62 | two sorted permutations of each other are equal when ties are equal elements |

## Left out

- **Presentation.** All markup, map rendering, styling, the live clock,
  navigation, and the dashboard's `loading` and `counties` state and their
  requests (frontend/src/pages/Dashboard.tsx:98-99, 119-124) are
  presentation and are not modelled. The other pages and configs are not
  modelled either.
- **The visual flash.** The flash on the page body and its 400 ms timeout
  are the `flash` event.
- **React effect scheduling and timer mechanics.** A tick is one atomic
  method call. The replay request is `LoadReplay` on success, and its
  failure only clears a loading flag that is not modelled.
- **HTTP.** HTTP routing, CORS, startup warm-up and the axios wrappers are
  left out. An error raised inside a modelled operation, which the endpoint
  answers with HTTP 500, becomes `Err`. Collaborator errors (loading the
  dataset for `/risk-map` and `/alerts`, parsing timestamps) are not
  modelled; see the `Api.RiskMap, Api.Alerts` line below.
- **The `/forecast`, `/situation-report`, `/health`, `/status` and
  `/model-info` endpoints.** They only forward to members modelled here or
  report files on disk.
- **Machine learning and floating point.**
  - Not modelled: the network, the optimiser, the scaler's statistics,
    ROC AUC, median binarisation and the positive-class weight.
  - An epoch's observed losses and AUC come in through `observe`.
  - The test AUC's class counts come in as parameters.
- **Per-cell numerics.** Per-cell attenuation and noise and the
  `np.arange` grids of `build_risk_geojson` come in as `cellRisk` and the
  grid coordinates.
- **The replay frame's `geojson` field.** `_build_frame_geojson` is not
  modelled, and `Geo.Frame` has no `geojson` field.
- **Model loading and its caching.** Model loading and the memoisation of the
  loaded model in module globals are replaced by the `Loader` parameter.
- **Storage and time.**
  - The filesystem, JSON and `datetime` become a map and a `now` parameter.
  - md5 is an opaque function.
  - A cache write that fails, and is only logged, is not modelled.
  - Neither is the scaler's file.
- **The LLM prompt and client.** The prompt text is not part of the source
  as given. The LLM call is its `Option<string>` outcome.
- **Logging and environment loading.**
- **Playback.GetTier: JavaScript `in` also accepts inherited names such as
  "toString".** The model checks membership in the table's four own keys
  only.
- **Geo.RiskOpacity: the rounding to two places is not modelled.** The same
  holds for the `round(…, 4)` of scores in `Geo.BuildReplayFrames`,
  `Inference.Formatted` and `Api.RiskMap`. Scores are exact reals.
- **Featherless.TemplateReport: the number formats `:.2f` and `:.1f` are not
  modelled.** The request's numbers arrive already rendered.
- **Api.RiskMap, Api.Alerts: the dataset arrives loaded.**
  - The failure of `_get_dataset()` when `load_dataset()` raises, which
    makes both endpoints answer HTTP 500, is not modelled.
  - Neither is a timestamp `pd.to_datetime` cannot parse in `/risk-map`;
    `dateOf` is total.
  - `_dataset` is one memo shared by `/risk-map`, `/alerts` and `/replay`.
    In the model only `Api.ReplayService.Replay` fills its own dataset
    slot, so a load made by `/risk-map` or `/alerts` that `/replay` would
    reuse is not captured.
- **Api.Alerts: the order among counties with equal scores is not stated,
  and scores are exact.** Python's sort is stable. The model only proves the
  result sorted and a permutation.
  - In the source the sort key is the score rounded to four places, while
    the tier comes from the unrounded score.
  - Take two counties in list order scoring 0.59996 (watch) and 0.6
    (warning). They tie on the rounded key and keep their order, so
    `highest_tier` is "watch" although a county is at "warning".
  - The model's "no county's tier exceeds the highest" (`Api.Alerts`,
    `Api.RankedFacts`, `Api.SortedEntries`) therefore holds for exact
    scores only.
- **Train.TrainLoop: losses are reals, so a NaN validation loss is not
  modelled.** NaN never improves, and with only NaN losses no checkpoint would
  be saved.
- **Text.Upper, Text.Strip: ASCII characters only.** `Text.Strip` removes
  the ASCII characters Python counts as whitespace (tab to carriage return,
  0x1C to 0x1F, space). It does not remove non-ASCII whitespace such as
  U+0085 or U+00A0. `Text.Upper` maps only a to z.
