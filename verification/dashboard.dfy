/**
 * frontend/src/pages/Dashboard.tsx: the replay playback engine. It covers the
 * frame index and its timer, the scrubber, the speed buttons, the one-shot
 * alert latch, and the single situation-report slot with its loading flag.
 *
 * React's effects become methods that the caller invokes at the moments React
 * would run them. The flash is returned as an event. Requests are returned to
 * the caller, and their outcomes come back through `SettleSitrep`.
 */
module Playback {
  import opened Wrappers
  import Text
  import Config
  import Reals

  // ---------------------------------------------------------------------------
  // getTier

  /** The own keys of the `TIER` table. */
  const TierKeys: set<string> := {"emergency", "warning", "watch", "none"}

  /** `getTier`: a key of the table names itself; anything else falls back to "none". */
  function GetTier(t: string): (k: Config.Tier)
    ensures t in TierKeys ==> k.Name() == t
    ensures t !in TierKeys ==> k == Config.NoAlert
  {
    if t == "emergency" then Config.Emergency
    else if t == "warning" then Config.Warning
    else if t == "watch" then Config.Watch
    else Config.NoAlert
  }

  /** Every tier name the backend sends is looked up as itself. */
  lemma GetTierOfName(k: Config.Tier)
    ensures GetTier(k.Name()) == k
  {
  }

  // ---------------------------------------------------------------------------
  // Replay data as the dashboard receives it

  /** The fields of a frame that the playback and the report request read. */
  datatype Frame = Frame(riskScore: real, riskLevel: string, alertTier: string, firePixels: int)

  /** `ReplayData`; `alertFrame` is `None` for JSON `null`. */
  datatype ReplayData = ReplayData(totalFrames: int, alertFrame: Option<int>, frames: seq<Frame>)

  datatype SitRep = SitRep(report: string, alertTier: string)

  // ---------------------------------------------------------------------------
  // The playback timer

  /** One timer tick: the next index, and whether playback goes on. */
  function TickStep(i: int, total: int): (int, bool)
  {
    if i >= total - 1 then (i, false) else (i + 1, true)
  }

  /** The index after n ticks of uninterrupted playback; the timer is gone once playback stops. */
  function Ticks(i: int, total: int, n: nat): int
    decreases n
  {
    if n == 0 then i
    else
      var (next, going) := TickStep(i, total);
      if going then Ticks(next, total, n - 1) else next
  }

  function Min(a: int, b: int): int { if a <= b then a else b }

  /**
   * Playback advances one frame per tick and halts at the last frame: after
   * n ticks the index is i + n, capped at total - 1. An index already at or
   * past the last frame does not move.
   */
  lemma {:induction false} TicksClosedForm(i: int, total: int, n: nat)
    ensures Ticks(i, total, n) == if i >= total - 1 then i else Min(i + n, total - 1)
    decreases n
  {
    if n > 0 && i < total - 1 {
      TicksClosedForm(i + 1, total, n - 1);
    }
  }

  /** An index inside the frame range stays inside it however many ticks follow. */
  lemma TicksStayInRange(i: int, total: int, n: nat)
    requires 0 <= i <= total - 1
    ensures 0 <= Ticks(i, total, n) <= total - 1
    ensures i <= Ticks(i, total, n)
  {
    TicksClosedForm(i, total, n);
  }

  const Speeds: set<int> := {1, 4, 12}
  const DefaultSpeed: int := 12

  // ---------------------------------------------------------------------------
  // The scrubber

  /** JavaScript `Math.round`: halves round up. */
  function JsRound(x: real): (r: int)
    ensures r as real - 0.5 <= x < r as real + 0.5
  {
    (x + 0.5).Floor
  }

  /** The index the scrubber sets for a click at fraction `pct` of the track (no clamping). */
  function SeekIndex(pct: real, total: int): int
  {
    JsRound(pct * (total - 1) as real)
  }

  lemma RoundInRange(x: real, last: int)
    requires 0.0 <= x <= last as real
    ensures 0 <= JsRound(x) <= last
  {
  }

  /** A click on the track lands inside the frame range, and its two ends are the first and last frames. */
  lemma SeekInRange(pct: real, total: int)
    requires 0.0 <= pct <= 1.0 && total >= 1
    ensures 0 <= SeekIndex(pct, total) <= total - 1
    ensures SeekIndex(0.0, total) == 0 && SeekIndex(1.0, total) == total - 1
  {
    var last := (total - 1) as real;
    Reals.ScaleDown(last, pct);
    RoundInRange(pct * last, total - 1);
    assert 0.0 * last == 0.0 && 1.0 * last == last;
  }

  /** `progress`: the index as a fraction of the last frame, with a divisor of at least 1. */
  function Progress(idx: int, total: int): (p: real)
    ensures 0 <= idx <= total - 1 ==> 0.0 <= p <= 1.0
  {
    var d := if total - 1 > 1 then total - 1 else 1;
    idx as real / d as real
  }

  /** Clicking where the progress bar ends seeks to the frame already shown. */
  lemma SeekProgress(idx: int, total: int)
    requires 0 <= idx <= total - 1
    ensures SeekIndex(Progress(idx, total), total) == idx
  {
    if total - 1 > 1 {
      Reals.DivMul(idx as real, (total - 1) as real);
    } else if total == 2 {
      assert Progress(idx, total) == idx as real;
    } else {
      assert idx == 0 && Progress(idx, total) == 0.0;
    }
    assert Progress(idx, total) * (total - 1) as real == idx as real;
  }

  // ---------------------------------------------------------------------------
  // The alert latch

  /**
   * The alert effect run on index `idx`: the new latch and whether the flash
   * fires. An absent or zero alert frame makes the effect return at once.
   */
  function AlertStep(alertFrame: Option<int>, idx: int, fired: bool): (r: (bool, bool))
    ensures alertFrame.None? || alertFrame.value == 0 ==> r == (fired, false)
    ensures alertFrame.Some? && alertFrame.value != 0 ==>
              && (r.1 <==> idx >= alertFrame.value && !fired)
              && (r.0 <==> idx >= alertFrame.value)
  {
    if alertFrame.None? || alertFrame.value == 0 then (fired, false)
    else
      var a := alertFrame.value;
      var flash := idx >= a && !fired;
      var latched := fired || flash;
      (if idx < a then false else latched, flash)
  }

  /** The latch after the effect has seen each index of `idxs` in turn. */
  function Latch(a: Option<int>, idxs: seq<int>, fired: bool): bool
  {
    if idxs == [] then fired
    else AlertStep(a, idxs[|idxs| - 1], Latch(a, idxs[..|idxs| - 1], fired)).0
  }

  /** Whether the effect flashes when it sees idxs[k]. */
  predicate FlashAt(a: Option<int>, idxs: seq<int>, fired: bool, k: nat)
    requires k < |idxs|
  {
    AlertStep(a, idxs[k], Latch(a, idxs[..k], fired)).1
  }

  lemma LatchStep(a: Option<int>, idxs: seq<int>, fired: bool, k: nat)
    requires k < |idxs|
    ensures Latch(a, idxs[..k + 1], fired) == AlertStep(a, idxs[k], Latch(a, idxs[..k], fired)).0
  {
    assert idxs[..k + 1][..k] == idxs[..k];
  }

  /** After a flash at i, the latch stays set for as long as the index stays at or above the alert frame. */
  lemma {:induction false} LatchHeld(a: Option<int>, idxs: seq<int>, fired: bool, i: nat, m: nat)
    requires i < m <= |idxs| && FlashAt(a, idxs, fired, i)
    ensures a.Some? && a.value != 0
    ensures (forall k :: i < k < m ==> idxs[k] >= a.value) ==> Latch(a, idxs[..m], fired)
  {
    LatchStep(a, idxs, fired, m - 1);
    if m - 1 > i {
      LatchHeld(a, idxs, fired, i, m - 1);
    }
  }

  /** The flash never fires twice unless the index has dropped below the alert frame in between. */
  lemma NoSecondFlashWithoutRearm(a: Option<int>, idxs: seq<int>, fired: bool, i: nat, j: nat)
    requires i < j < |idxs| && FlashAt(a, idxs, fired, i) && FlashAt(a, idxs, fired, j)
    ensures a.Some? && exists k :: i < k < j && idxs[k] < a.value
  {
    LatchHeld(a, idxs, fired, i, j);
  }

  /** With no alert frame, or an alert frame of 0, nothing ever flashes and the latch never moves. */
  lemma {:induction false} NoAlertFrameNeverFires(a: Option<int>, idxs: seq<int>, fired: bool)
    requires a.None? || a.value == 0
    ensures Latch(a, idxs, fired) == fired
    ensures forall k :: 0 <= k < |idxs| ==> !FlashAt(a, idxs, fired, k)
  {
    if idxs != [] {
      NoAlertFrameNeverFires(a, idxs[..|idxs| - 1], fired);
    }
    forall k | 0 <= k < |idxs|
      ensures !FlashAt(a, idxs, fired, k)
    {
      NoAlertFrameNeverFires(a, idxs[..k], fired);
    }
  }

  /** The frames 0, 1, ..., n - 1 of a full playthrough. */
  function Playthrough(n: nat): (idxs: seq<int>)
    ensures |idxs| == n && forall k :: 0 <= k < n ==> idxs[k] == k
  {
    seq(n, k requires 0 <= k => k)
  }

  lemma {:induction false} PlaythroughLatch(a: int, m: nat)
    requires a > 0
    ensures Latch(Some(a), Playthrough(m), false) == (m > a)
  {
    if m > 0 {
      PlaythroughLatch(a, m - 1);
      assert Playthrough(m)[..m - 1] == Playthrough(m - 1);
    }
  }

  /** Playing frames 0..n-1 from an unset latch flashes exactly once, at the alert frame. */
  lemma PlaythroughFlashesOnce(a: int, n: nat, k: nat)
    requires a > 0 && k < n
    ensures FlashAt(Some(a), Playthrough(n), false, k) <==> k == a
  {
    PlaythroughLatch(a, k);
    assert Playthrough(n)[..k] == Playthrough(k);
  }

  // ---------------------------------------------------------------------------
  // The situation-report lines

  /** `". "` occurs in `s`. */
  predicate HasSentenceBreak(s: string)
  {
    exists k :: 0 <= k < |s| - 1 && s[k] == '.' && s[k + 1] == ' '
  }

  lemma NoBreakInTail(p: string)
    requires p != [] && !HasSentenceBreak(p)
    ensures !HasSentenceBreak(p[1..])
  {
    forall k | 0 <= k < |p[1..]| - 1
      ensures !(p[1..][k] == '.' && p[1..][k + 1] == ' ')
    {
      assert p[1..][k] == p[k + 1] && p[1..][k + 1] == p[k + 2];
    }
  }

  lemma {:induction false} SplitAfterSentence(p: string, r: string)
    requires !HasSentenceBreak(p)
    ensures Text.SplitOn(p + ". " + r, ". ") == [p] + Text.SplitOn(r, ". ")
    decreases |p|
  {
    var s := p + ". " + r;
    if p == [] {
      assert s[..2] == ". " && s[2..] == r;
    } else {
      assert !(s[0] == '.' && s[1] == ' ') by {
        if |p| >= 2 {
          assert s[0] == p[0] && s[1] == p[1];
        } else {
          assert s[1] == '.';
        }
      }
      assert s[..2] != ". " by {
        assert s[..2][0] == s[0] && s[..2][1] == s[1];
      }
      NoBreakInTail(p);
      SplitAfterSentence(p[1..], r);
      assert s[1..] == p[1..] + ". " + r;
      assert [s[0]] + p[1..] == p;
    }
  }

  lemma {:induction false} SplitSentence(p: string)
    requires !HasSentenceBreak(p)
    ensures Text.SplitOn(p, ". ") == [p]
    decreases |p|
  {
    if |p| >= 2 {
      assert !(p[0] == '.' && p[1] == ' ');
      assert p[..2] != ". " by {
        assert p[..2][0] == p[0] && p[..2][1] == p[1];
      }
      NoBreakInTail(p);
      SplitSentence(p[1..]);
      assert [p[0]] + p[1..] == p;
    }
  }

  /** Sentences joined with ". " split back into the same sentences. */
  lemma {:induction false} SplitJoinedSentences(ps: seq<string>)
    requires |ps| >= 1 && forall i :: 0 <= i < |ps| ==> !HasSentenceBreak(ps[i])
    ensures Text.SplitOn(Text.Join(ps, ". "), ". ") == ps
  {
    if |ps| == 1 {
      SplitSentence(ps[0]);
    } else {
      SplitJoinedSentences(ps[1..]);
      SplitAfterSentence(ps[0], Text.Join(ps[1..], ". "));
      assert [ps[0]] + ps[1..] == ps;
    }
  }

  lemma {:induction false} NonEmptyKeeps(ps: seq<string>)
    requires forall i :: 0 <= i < |ps| ==> ps[i] != ""
    ensures Text.NonEmpty(ps) == ps
  {
    if ps != [] {
      NonEmptyKeeps(ps[1..]);
      assert [ps[0]] + ps[1..] == ps;
    }
  }

  /** `sitrepSentences`: the non-empty ". "-separated pieces of the held report, if any. */
  function Sentences(sitrep: Option<SitRep>): seq<string>
  {
    if sitrep.None? then [] else Text.NonEmpty(Text.SplitOn(sitrep.value.report, ". "))
  }

  const AlertFallback: string :=
    "Rapid fire growth expected in Sector 4 due to decreasing humidity (12%) and shifting winds from NW."
  const AnalysisFallback: string :=
    "Vegetation moisture content is critically low. Ignition probability is >90% in the Plumas foothills."
  const RecommendationFallback: string :=
    "Rec: Deploy aerial retardant to northern ridge immediately."

  /** Display line i: the i-th sentence with its full stop restored, or the fixed fallback. */
  function Line(sentences: seq<string>, i: nat, fallback: string): string
  {
    if i < |sentences| then sentences[i] + "." else fallback
  }

  /** The alert, analysis and recommendation lines of the report panel. */
  function SitrepLines(sitrep: Option<SitRep>): (string, string, string)
  {
    var s := Sentences(sitrep);
    (Line(s, 0, AlertFallback), Line(s, 1, AnalysisFallback), Line(s, 2, RecommendationFallback))
  }

  /**
   * A report written as three or more non-empty sentences joined by ". "
   * shows its first three sentences, each with its full stop.
   */
  lemma SitrepLinesOfSentences(ps: seq<string>, alertTier: string)
    requires |ps| >= 3 && forall i :: 0 <= i < |ps| ==> ps[i] != "" && !HasSentenceBreak(ps[i])
    ensures SitrepLines(Some(SitRep(Text.Join(ps, ". "), alertTier))) == (ps[0] + ".", ps[1] + ".", ps[2] + ".")
  {
    SplitJoinedSentences(ps);
    NonEmptyKeeps(ps);
  }

  /** Without a report every line is its fallback. */
  lemma NoReportFallbacks()
    ensures SitrepLines(None) == (AlertFallback, AnalysisFallback, RecommendationFallback)
  {
  }

  // ---------------------------------------------------------------------------
  // The dashboard's state

  class Dashboard {
    var replay: Option<ReplayData>
    var frameIdx: int
    var playing: bool
    var speed: int
    /** `alertFiredRef`. */
    var alertFired: bool
    var sitrep: Option<SitRep>
    var sitrepLoading: bool

    /** Only the three speed buttons set the speed. */
    predicate Valid()
      reads this
    {
      speed in Speeds
    }

    constructor()
      ensures Valid()
      ensures replay.None? && frameIdx == 0 && !playing && speed == DefaultSpeed
      ensures !alertFired && sitrep.None? && !sitrepLoading
    {
      replay := None;
      frameIdx := 0;
      playing := false;
      speed := DefaultSpeed;
      alertFired := false;
      sitrep := None;
      sitrepLoading := false;
    }

    /** `frame`: the frame at the index, when a replay is loaded and the index is inside its frames. */
    function CurrentFrame(): (f: Option<Frame>)
      reads this
      ensures f.Some? <==> replay.Some? && 0 <= frameIdx < |replay.value.frames|
      ensures f.Some? ==> f.value == replay.value.frames[frameIdx]
    {
      if replay.Some? && 0 <= frameIdx < |replay.value.frames| then Some(replay.value.frames[frameIdx]) else None
    }

    /** The alert frame the latch effect sees (`replay?.alert_frame`). */
    function AlertFrame(): Option<int>
      reads this
    {
      if replay.None? then None else replay.value.alertFrame
    }

    /** The timer period in milliseconds: 800 / speed. */
    function TickInterval(): (ms: real)
      reads this
      requires Valid()
      ensures ms * speed as real == 800.0
      ensures 800.0 / 12.0 <= ms <= 800.0
    {
      800.0 / speed as real
    }

    /** The replay request resolved: the data is stored and nothing else changes. */
    method LoadReplay(data: ReplayData)
      modifies this
      ensures replay == Some(data)
      ensures frameIdx == old(frameIdx) && playing == old(playing) && speed == old(speed)
      ensures alertFired == old(alertFired) && sitrep == old(sitrep) && sitrepLoading == old(sitrepLoading)
    {
      replay := Some(data);
    }

    /**
     * One firing of the playback interval. The interval exists only while
     * playing with a replay loaded; below the last frame it advances by one,
     * at or past it it stops playback and keeps the index.
     */
    method Tick()
      modifies this
      ensures !old(playing) || old(replay).None? ==> frameIdx == old(frameIdx) && playing == old(playing)
      ensures old(playing) && old(replay).Some? ==>
                (frameIdx, playing) == TickStep(old(frameIdx), old(replay).value.totalFrames)
      ensures replay == old(replay) && speed == old(speed) && alertFired == old(alertFired)
      ensures sitrep == old(sitrep) && sitrepLoading == old(sitrepLoading)
    {
      if !playing || replay.None? {
        return;
      }
      var total := replay.value.totalFrames;
      if frameIdx >= total - 1 {
        playing := false;
      } else {
        frameIdx := frameIdx + 1;
      }
    }

    /** A click on the scrubber at fraction `pct` of its width; ignored with no replay. */
    method Seek(pct: real)
      modifies this
      ensures old(replay).None? ==> frameIdx == old(frameIdx)
      ensures old(replay).Some? ==> frameIdx == SeekIndex(pct, old(replay).value.totalFrames)
      ensures replay == old(replay) && playing == old(playing) && speed == old(speed)
      ensures alertFired == old(alertFired) && sitrep == old(sitrep) && sitrepLoading == old(sitrepLoading)
    {
      if replay.None? {
        return;
      }
      frameIdx := SeekIndex(pct, replay.value.totalFrames);
    }

    /** The play/pause button. */
    method TogglePlay()
      modifies this
      ensures playing == !old(playing)
      ensures replay == old(replay) && frameIdx == old(frameIdx) && speed == old(speed)
      ensures alertFired == old(alertFired) && sitrep == old(sitrep) && sitrepLoading == old(sitrepLoading)
    {
      playing := !playing;
    }

    /** One of the speed buttons. */
    method SetSpeed(s: int)
      requires s in Speeds
      modifies this
      ensures Valid() && speed == s
      ensures replay == old(replay) && frameIdx == old(frameIdx) && playing == old(playing)
      ensures alertFired == old(alertFired) && sitrep == old(sitrep) && sitrepLoading == old(sitrepLoading)
    {
      speed := s;
    }

    /** The alert effect, run after the index or the replay changes; returns whether the flash fires. */
    method ObserveIndex() returns (flash: bool)
      modifies this
      ensures (alertFired, flash) == AlertStep(old(AlertFrame()), old(frameIdx), old(alertFired))
      ensures replay == old(replay) && frameIdx == old(frameIdx) && playing == old(playing) && speed == old(speed)
      ensures sitrep == old(sitrep) && sitrepLoading == old(sitrepLoading)
    {
      flash := false;
      if replay.None? || replay.value.alertFrame.None? || replay.value.alertFrame.value == 0 {
        return;
      }
      var a := replay.value.alertFrame.value;
      if frameIdx >= a && !alertFired {
        alertFired := true;
        flash := true;
      }
      if frameIdx < a {
        alertFired := false;
      }
    }

    /** `fetchSitrep(f)`: marks the slot as loading and sends a request for frame f. */
    method StartSitrep(f: Frame) returns (request: Frame)
      modifies this
      ensures request == f && sitrepLoading
      ensures replay == old(replay) && frameIdx == old(frameIdx) && playing == old(playing) && speed == old(speed)
      ensures alertFired == old(alertFired) && sitrep == old(sitrep)
    {
      sitrepLoading := true;
      request := f;
    }

    /**
     * A report request settles: a response replaces the held report, a
     * failure keeps it, and either way the slot stops loading.
     */
    method SettleSitrep(response: Option<SitRep>)
      modifies this
      ensures response.Some? ==> sitrep == response
      ensures response.None? ==> sitrep == old(sitrep)
      ensures !sitrepLoading
      ensures replay == old(replay) && frameIdx == old(frameIdx) && playing == old(playing) && speed == old(speed)
      ensures alertFired == old(alertFired)
    {
      if response.Some? {
        sitrep := response;
      }
      sitrepLoading := false;
    }

    /**
     * The auto-fetch effect: a request goes out exactly when a frame is shown
     * and no report is held, whether or not one is already loading.
     */
    method AutoFetch() returns (request: Option<Frame>)
      modifies this
      ensures request.Some? <==> old(CurrentFrame()).Some? && old(sitrep).None?
      ensures request.Some? ==> request == old(CurrentFrame()) && sitrepLoading
      ensures request.None? ==> sitrepLoading == old(sitrepLoading)
      ensures replay == old(replay) && frameIdx == old(frameIdx) && playing == old(playing) && speed == old(speed)
      ensures alertFired == old(alertFired) && sitrep == old(sitrep)
    {
      var f := CurrentFrame();
      if f.Some? && sitrep.None? {
        var sent := StartSitrep(f.value);
        return Some(sent);
      }
      return None;
    }

    /** The refresh button: disabled while loading, and a no-op when no frame is shown. */
    method Refresh() returns (request: Option<Frame>)
      modifies this
      ensures request.Some? <==> !old(sitrepLoading) && old(CurrentFrame()).Some?
      ensures request.Some? ==> request == old(CurrentFrame()) && sitrepLoading
      ensures request.None? ==> sitrepLoading == old(sitrepLoading)
      ensures replay == old(replay) && frameIdx == old(frameIdx) && playing == old(playing) && speed == old(speed)
      ensures alertFired == old(alertFired) && sitrep == old(sitrep)
    {
      if sitrepLoading {
        return None;
      }
      var f := CurrentFrame();
      if f.Some? {
        var sent := StartSitrep(f.value);
        return Some(sent);
      }
      return None;
    }
  }
}
