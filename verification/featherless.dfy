/**
 * backend/api/featherless.py: the situation-report decision procedure
 * (cache first, then the template when there is no API key, then the LLM,
 * with the template as the fallback for any client error) and the template
 * report itself.
 *
 * The LLM call is the `reply` parameter: the message content on success,
 * `None` when the client raises (including a missing `openai` package or a
 * reply without content). The prompt text is not part of this model.
 */
module Featherless {
  import opened Wrappers
  import Text
  import Cache
  import Config

  // ---------------------------------------------------------------------------
  // _template_report

  /** The four entries of the `actions` table. */
  datatype Action = Evacuate | PrepareEvacuation | MonitorClosely | StandardMonitoring
  {
    function Text(): string
    {
      match this
      case Evacuate => "EVACUATE NOW — all zones in the affected area, no exceptions."
      case PrepareEvacuation => "Prepare for immediate evacuation. Pre-position resources at staging areas."
      case MonitorClosely => "Monitor conditions closely. Notify residents to prepare go-bags."
      case StandardMonitoring => "Continue standard monitoring. No immediate action required."
    }
  }

  /** `actions.get(tier, actions["none"])`: a tier outside the table gets the "none" action. */
  function ActionFor(tier: string): (action: Action)
    ensures action == Evacuate <==> tier == "emergency"
    ensures action == PrepareEvacuation <==> tier == "warning"
    ensures action == MonitorClosely <==> tier == "watch"
    ensures action == StandardMonitoring <==> tier !in {"emergency", "warning", "watch"}
  {
    if tier == "emergency" then Evacuate
    else if tier == "warning" then PrepareEvacuation
    else if tier == "watch" then MonitorClosely
    else StandardMonitoring
  }

  /** Every tier the backend produces selects its own action, and "none" the standard one. */
  lemma ActionPerTier(t: Config.Tier)
    ensures ActionFor(t.Name()) == match t
      case Emergency => Evacuate
      case Warning => PrepareEvacuation
      case Watch => MonitorClosely
      case NoAlert => StandardMonitoring
  {
  }

  /**
   * The request fields the template reads, each absent or already rendered
   * as the f-string renders it (`{risk:.2f}`, `{wind:.1f}`, `{hum:.1f}`).
   */
  datatype RiskData = RiskData(
    riskText: Option<string>, alertTier: Option<string>,
    windText: Option<string>, humidityText: Option<string>,
    firePixels: Option<int>, county: Option<string>,
    repr: string)

  /** `t` occurs in `s` starting at index i. */
  predicate OccursAt(s: string, t: string, i: int)
  {
    0 <= i <= |s| - |t| && s[i..i + |t|] == t
  }

  /** The sentence up to the tier, with the `d.get` defaults filled in. */
  function TemplateOpening(d: RiskData): string
  {
    "PyroWatch AI detects " + Text.IntToString(d.firePixels.GetOr(0)) + " active fire hotspots in "
    + d.county.GetOr("Plumas County") + " with a risk score of " + d.riskText.GetOr("0.00")
    + "/1.00, triggering a "
  }

  /** The text between the tier and the action. */
  function TemplateDrivers(d: RiskData): string
  {
    " alert. Primary risk drivers are wind speed of " + d.windText.GetOr("0.0")
    + " m/s and relative humidity of " + d.humidityText.GetOr("30.0")
    + "%, creating extreme fire spread conditions across the region. "
  }

  lemma ConcatShape(p: string, u: string, m: string, a: string)
    ensures var s := p + u + m + a;
            |a| <= |s| && s[|s| - |a|..] == a && OccursAt(s, u, |p|)
  {
    var s := p + u + m + a;
    assert s == (p + u + m) + a;
    assert s == p + (u + m + a);
  }

  /** `_template_report`: the report with the `d.get` defaults filled in. */
  function TemplateReport(d: RiskData): (report: string)
    ensures var tier := d.alertTier.GetOr("none");
            var action := ActionFor(tier).Text();
            && |action| <= |report|
            && report[|report| - |action|..] == action
            && exists i :: OccursAt(report, Text.Upper(tier), i)
  {
    var tier := d.alertTier.GetOr("none");
    var opening, drivers := TemplateOpening(d), TemplateDrivers(d);
    ConcatShape(opening, Text.Upper(tier), drivers, ActionFor(tier).Text());
    opening + Text.Upper(tier) + drivers + ActionFor(tier).Text()
  }

  /** `_make_key("report", risk_data)`: the digest of the "__"-joined arguments. */
  function ReportKey(digest: string -> string, d: RiskData): string
  {
    digest(Text.Join(["report", d.repr], "__"))
  }

  // ---------------------------------------------------------------------------
  // generate_situation_report

  /** Which way `generate_situation_report` went. */
  datatype Source = FromCache | NoApiKey | FromLlm | LlmFailed

  /**
   * `generate_situation_report` on the cache directory `files`, with the
   * report's file `name`: the report, where it came from, and the directory
   * afterwards. A truthy cached report is returned with no LLM call; without
   * an API key the template is returned and nothing is stored; otherwise the
   * LLM is called, and its stripped reply is stored and returned, or on
   * failure the template is returned and nothing is stored. The cache read
   * itself may delete an expired entry.
   */
  function Decision(files: Cache.Files<string>, name: string, now: int, ttl: int,
                    apiKey: string, d: RiskData, reply: Option<string>): (string, Source, Cache.Files<string>)
  {
    var (hit, afterGet) := Cache.Lookup(files, name, now, ttl);
    if hit.Some? && hit.value != "" then (hit.value, FromCache, afterGet)
    else if apiKey == "" then (TemplateReport(d), NoApiKey, afterGet)
    else if reply.None? then (TemplateReport(d), LlmFailed, afterGet)
    else
      var report := Text.Strip(reply.value);
      (report, FromLlm, Cache.Put(afterGet, name, now, report))
  }

  /**
   * The decision order: the cache is consulted first, the API key second and
   * the LLM last. Only an LLM reply is written back, and only an empty cached
   * report is treated as a miss.
   */
  lemma DecisionOrder(files: Cache.Files<string>, name: string, now: int, ttl: int,
                      apiKey: string, d: RiskData, reply: Option<string>)
    ensures var (report, source, after) := Decision(files, name, now, ttl, apiKey, d, reply);
            var (hit, afterGet) := Cache.Lookup(files, name, now, ttl);
            && (source == FromCache <==> hit.Some? && hit.value != "")
            && (source == NoApiKey <==> !(hit.Some? && hit.value != "") && apiKey == "")
            && (source == FromLlm <==> !(hit.Some? && hit.value != "") && apiKey != "" && reply.Some?)
            && (source == FromCache ==> hit.Some? && report == hit.value)
            && (source == NoApiKey || source == LlmFailed ==> report == TemplateReport(d))
            && (source == FromLlm ==> reply.Some? && report == Text.Strip(reply.value))
            && (source != FromLlm ==> after == afterGet)
            && (source == FromLlm ==> after == Cache.Put(afterGet, name, now, report))
  {
    var (hit, afterGet) := Cache.Lookup(files, name, now, ttl);
    var template := TemplateReport(d);
    if hit.Some? && hit.value != "" {
      assert Decision(files, name, now, ttl, apiKey, d, reply) == (hit.value, FromCache, afterGet);
    } else if apiKey == "" {
      assert Decision(files, name, now, ttl, apiKey, d, reply) == (template, NoApiKey, afterGet);
    } else if reply.None? {
      assert Decision(files, name, now, ttl, apiKey, d, reply) == (template, LlmFailed, afterGet);
    } else {
      var report := Text.Strip(reply.value);
      assert Decision(files, name, now, ttl, apiKey, d, reply) == (report, FromLlm, Cache.Put(afterGet, name, now, report));
    }
  }

  /**
   * The LLM is not called on a cache hit or without an API key: whatever it
   * would have answered, the outcome is the same.
   */
  lemma NoLlmCallWhenAnswered(files: Cache.Files<string>, name: string, now: int, ttl: int,
                              apiKey: string, d: RiskData, reply1: Option<string>, reply2: Option<string>)
    requires var hit := Cache.Lookup(files, name, now, ttl).0;
             (hit.Some? && hit.value != "") || apiKey == ""
    ensures Decision(files, name, now, ttl, apiKey, d, reply1) == Decision(files, name, now, ttl, apiKey, d, reply2)
  {
  }

  /** The module-level `_cache` keeps reports for a week. */
  const ReportCacheTtlHours: nat := 168

  /** `generate_situation_report` with the module-level `_cache`, whose time-to-live is a week. */
  method GenerateSituationReport(cache: Cache.Cache<string>, apiKey: string, d: RiskData, now: int,
                                 reply: Option<string>)
    returns (report: string, source: Source)
    requires cache.ttl == ReportCacheTtlHours * 3600
    modifies cache
    ensures (report, source, cache.files)
            == Decision(old(cache.files), cache.Path(ReportKey(cache.digest, d)), now, cache.ttl, apiKey, d, reply)
  {
    var key := ReportKey(cache.digest, d);
    var cached := cache.Get(key, now);
    if cached.Some? && cached.value != "" {
      return cached.value, FromCache;
    }
    if apiKey == "" {
      return TemplateReport(d), NoApiKey;
    }
    if reply.None? {
      return TemplateReport(d), LlmFailed;
    }
    report := Text.Strip(reply.value);
    cache.Set(key, report, now);
    return report, FromLlm;
  }

  /**
   * Two requests for the same data within the time-to-live: after a
   * successful, non-empty LLM report the next request is answered from the
   * cache with the same text.
   */
  lemma SecondRequestHitsCache(files: Cache.Files<string>, name: string, now: int, later: int, ttl: int,
                               report: string)
    requires report != "" && later - now <= ttl
    ensures var stored := Cache.Put(Cache.Lookup(files, name, now, ttl).1, name, now, report);
            Cache.Lookup(stored, name, later, ttl) == (Some(report), stored)
  {
    Cache.SetThenGet(Cache.Lookup(files, name, now, ttl).1, name, now, report, later, ttl);
  }
}
