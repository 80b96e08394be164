/** The configuration document and how it is kept on disk (`config_service.py`). */
module Config {
  import opened Prelude

  /** JSON values as `json.loads` returns them, without floats. */
  datatype Value =
    | Null
    | Flag(flag: bool)
    | Whole(n: int)
    | Text(text: string)
    | List(items: seq<Value>)
    | Object(fields: map<string, Value>)

  type Fields = map<string, Value>

  datatype Policy = Preserve | Reject | Ignore

  datatype UI = UI(language: string, openBrowser: bool, extra: Fields)
  datatype Network = Network(timeout: int, extra: Fields)
  datatype Updates = Updates(channel: string, checkOnStart: bool, extra: Fields)
  datatype Retention = Retention(days: Option<int>, extra: Fields)
  datatype Monitoring = Monitoring(enabled: bool, interval: int, threshold: int, extra: Fields)
  datatype Profiles = Profiles(active: Option<string>, extra: Fields)
  datatype Startup = Startup(enabled: bool, extra: Fields)

  datatype AppConfig = AppConfig(schema: int, ui: UI, network: Network, updates: Updates, history: Retention,
                                 monitoring: Monitoring, profiles: Profiles, startup: Startup, extra: Fields)

  const ROOT: set<string> := {"schema_version", "ui", "network", "updates", "history", "monitoring",
                             "profiles", "startup"}
  const UI_KEYS: set<string> := {"language", "open_browser_on_start"}
  const NETWORK_KEYS: set<string> := {"request_timeout_seconds"}
  const UPDATE_KEYS: set<string> := {"channel", "check_on_start"}
  const HISTORY_KEYS: set<string> := {"retention_days"}
  const MONITORING_KEYS: set<string> := {"enabled", "interval_seconds", "freshness_threshold_seconds"}
  const PROFILE_KEYS: set<string> := {"active_profile_id"}
  const STARTUP_KEYS: set<string> := {"enabled"}

  // ---------------------------------------------------------------- the rules for single values

  predicate Letter(c: char) { 'A' <= c <= 'Z' || 'a' <= c <= 'z' }

  predicate AlphaNumeric(c: char) { Letter(c) || '0' <= c <= '9' }

  function LetterRun(s: string): (n: nat)
    ensures n <= |s|
  {
    if s == "" || !Letter(s[0]) then 0 else LetterRun(s[1..]) + 1
  }

  function AlphaNumericRun(s: string): (n: nat)
    ensures n <= |s|
  {
    if s == "" || !AlphaNumeric(s[0]) then 0 else AlphaNumericRun(s[1..]) + 1
  }

  predicate Subtags(s: string) {
    s == "" || (s[0] == '-' && 2 <= AlphaNumericRun(s[1..]) <= 8 && Subtags(s[AlphaNumericRun(s[1..]) + 1..]))
  }

  /** The pattern for language tags: a subtag ends where the next hyphen or the end is. */
  predicate LanguageTag(s: string) { |s| <= 35 && 2 <= LetterRun(s) <= 3 && Subtags(s[LetterRun(s)..]) }

  predicate ProfileName(s: string) { s != "" && |s| <= 200 && forall c | c in s :: c as int >= 32 && c as int != 127 }

  predicate UIOk(s: UI) { s.language != "" && LanguageTag(s.language) }

  predicate NetworkOk(s: Network) { 5 <= s.timeout <= 300 }

  predicate UpdatesOk(s: Updates) { s.channel == "stable" || s.channel == "beta" }

  predicate HistoryOk(s: Retention) { s.days.Some? ==> 1 <= s.days.value <= 3650 }

  predicate MonitoringOk(s: Monitoring) { 300 <= s.interval <= s.threshold }

  predicate ProfilesOk(s: Profiles) { s.active.Some? ==> ProfileName(s.active.value) }

  /** The ranges that the parser enforces. */
  predicate InRange(c: AppConfig) {
    c.schema == 1 && UIOk(c.ui) && NetworkOk(c.network) && UpdatesOk(c.updates) &&
    HistoryOk(c.history) && MonitoringOk(c.monitoring)
    && ProfilesOk(c.profiles)
  }

  // ---------------------------------------------------------------- parsing

  /** `document.get(key, default)`. */
  function Get(m: Fields, key: string, default: Value): Value { if key in m then m[key] else default }

  function Extras(m: Fields, known: set<string>, p: Policy): Fields { if p.Preserve? then m - known else map[] }

  predicate UnknownOk(m: Fields, known: set<string>, p: Policy) { p.Reject? ==> m.Keys <= known }

  /** What a running program's release channel makes the default. */
  datatype Defaults = Defaults(channel: string)

  function Section(root: Fields, key: string): Value { Get(root, key, Object(map[])) }

  function ParseUI(v: Value, p: Policy): Option<UI> {
    if !v.Object? || !UnknownOk(v.fields, UI_KEYS, p) then None
    else
      var language, open := Get(v.fields, "language", Text("zh-TW")),
                            Get(v.fields, "open_browser_on_start", Flag(true));
      if !language.Text? || language.text == "" || !LanguageTag(language.text) || !open.Flag? then None
      else Some(UI(language.text, open.flag, Extras(v.fields, UI_KEYS, p)))
  }

  function ParseNetwork(v: Value, p: Policy): Option<Network> {
    if !v.Object? || !UnknownOk(v.fields, NETWORK_KEYS, p) then None
    else
      var timeout := Get(v.fields, "request_timeout_seconds", Whole(45));
      if !timeout.Whole? || !(5 <= timeout.n <= 300) then None
      else Some(Network(timeout.n, Extras(v.fields, NETWORK_KEYS, p)))
  }

  function ParseUpdates(v: Value, p: Policy, d: Defaults): Option<Updates> {
    if !v.Object? || !UnknownOk(v.fields, UPDATE_KEYS, p) then None
    else
      var channel, check := Get(v.fields, "channel", Text(d.channel)), Get(v.fields, "check_on_start", Flag(true));
      if !channel.Text? || !(channel.text == "stable" || channel.text == "beta") || !check.Flag? then None
      else Some(Updates(channel.text, check.flag, Extras(v.fields, UPDATE_KEYS, p)))
  }

  function ParseHistory(v: Value, p: Policy): Option<Retention> {
    if !v.Object? || !UnknownOk(v.fields, HISTORY_KEYS, p) then None
    else
      match Get(v.fields, "retention_days", Null)
      case Null => Some(Retention(None, Extras(v.fields, HISTORY_KEYS, p)))
      case Whole(n) => if 1 <= n <= 3650 then Some(Retention(Some(n), Extras(v.fields, HISTORY_KEYS, p))) else None
      case _ => None
  }

  function ParseMonitoring(v: Value, p: Policy): Option<Monitoring> {
    if !v.Object? || !UnknownOk(v.fields, MONITORING_KEYS, p) then None
    else
      var enabled := Get(v.fields, "enabled", Flag(false));
      var interval := Get(v.fields, "interval_seconds", Whole(900));
      var threshold := Get(v.fields, "freshness_threshold_seconds", Whole(1800));
      if !enabled.Flag? || !interval.Whole? || !threshold.Whole? || !(300 <= interval.n <= threshold.n) then None
      else Some(Monitoring(enabled.flag, interval.n, threshold.n, Extras(v.fields, MONITORING_KEYS, p)))
  }

  function ParseProfiles(v: Value, p: Policy): Option<Profiles> {
    if !v.Object? || !UnknownOk(v.fields, PROFILE_KEYS, p) then None
    else
      match Get(v.fields, "active_profile_id", Null)
      case Null => Some(Profiles(None, Extras(v.fields, PROFILE_KEYS, p)))
      case Text(s) => if ProfileName(s) then Some(Profiles(Some(s), Extras(v.fields, PROFILE_KEYS, p))) else None
      case _ => None
  }

  function ParseStartup(v: Value, p: Policy): Option<Startup> {
    if !v.Object? || !UnknownOk(v.fields, STARTUP_KEYS, p) then None
    else
      var enabled := Get(v.fields, "enabled", Flag(false));
      if !enabled.Flag? then None else Some(Startup(enabled.flag, Extras(v.fields, STARTUP_KEYS, p)))
  }

  function Assembled(ui: Option<UI>, network: Option<Network>, updates: Option<Updates>, history: Option<Retention>,
                     monitoring: Option<Monitoring>, profiles: Option<Profiles>, startup: Option<Startup>,
                     extra: Fields): Option<AppConfig> {
    if ui.None? || network.None? || updates.None? || history.None? || monitoring.None? || profiles.None? ||
       startup.None? then None
    else Some(AppConfig(1, ui.value, network.value, updates.value, history.value, monitoring.value,
                        profiles.value, startup.value, extra))
  }

  /** `parse_config`. */
  function Parse(document: Value, p: Policy, d: Defaults): Option<AppConfig> {
    if !document.Object? || !UnknownOk(document.fields, ROOT, p) then None
    else
      var root := document.fields;
      if "schema_version" !in root || root["schema_version"] != Whole(1) then None
      else
        var ui, network := ParseUI(Section(root, "ui"), p), ParseNetwork(Section(root, "network"), p);
        var updates, history := ParseUpdates(Section(root, "updates"), p, d), ParseHistory(Section(root, "history"), p);
        var monitoring := ParseMonitoring(Section(root, "monitoring"), p);
        var profiles, startup := ParseProfiles(Section(root, "profiles"), p), ParseStartup(Section(root, "startup"), p);
        Assembled(ui, network, updates, history, monitoring, profiles, startup, Extras(root, ROOT, p))
  }

  // ---------------------------------------------------------------- printing

  function PrintUI(s: UI): Value {
    Object(s.extra + map["language" := Text(s.language), "open_browser_on_start" := Flag(s.openBrowser)])
  }

  function PrintNetwork(s: Network): Value { Object(s.extra + map["request_timeout_seconds" := Whole(s.timeout)]) }

  function PrintUpdates(s: Updates): Value {
    Object(s.extra + map["channel" := Text(s.channel), "check_on_start" := Flag(s.checkOnStart)])
  }

  function PrintHistory(s: Retention): Value {
    Object(s.extra + map["retention_days" := if s.days.Some? then Whole(s.days.value) else Null])
  }

  function PrintMonitoring(s: Monitoring): Value {
    Object(s.extra + map["enabled" := Flag(s.enabled), "interval_seconds" := Whole(s.interval),
                         "freshness_threshold_seconds" := Whole(s.threshold)])
  }

  function PrintProfiles(s: Profiles): Value {
    Object(s.extra + map["active_profile_id" := if s.active.Some? then Text(s.active.value) else Null])
  }

  function PrintStartup(s: Startup): Value { Object(s.extra + map["enabled" := Flag(s.enabled)]) }

  function Known(c: AppConfig): Fields {
    map["schema_version" := Whole(c.schema), "ui" := PrintUI(c.ui), "network" := PrintNetwork(c.network),
        "updates" := PrintUpdates(c.updates), "history" := PrintHistory(c.history),
        "monitoring" := PrintMonitoring(c.monitoring), "profiles" := PrintProfiles(c.profiles),
        "startup" := PrintStartup(c.startup)]
  }

  /** `_config_document`. */
  function Print(c: AppConfig): Value {
    Object(c.extra + Known(c))
  }

  // ---------------------------------------------------------------- round trips

  /** The unknown fields are stored under names of their own. */
  predicate Tidy(c: AppConfig) {
    && c.extra.Keys !! ROOT && c.ui.extra.Keys !! UI_KEYS && c.network.extra.Keys !! NETWORK_KEYS
    && c.updates.extra.Keys !! UPDATE_KEYS && c.history.extra.Keys !! HISTORY_KEYS
    && c.monitoring.extra.Keys !! MONITORING_KEYS && c.profiles.extra.Keys !! PROFILE_KEYS
    && c.startup.extra.Keys !! STARTUP_KEYS
  }

  /** What a policy makes of the unknown fields. */
  function Kept(extra: Fields, known: set<string>, p: Policy): Fields { if p.Preserve? then extra - known else map[] }

  function Reduced(c: AppConfig, p: Policy): AppConfig {
    AppConfig(c.schema, c.ui.(extra := Kept(c.ui.extra, UI_KEYS, p)),
              c.network.(extra := Kept(c.network.extra, NETWORK_KEYS, p)),
              c.updates.(extra := Kept(c.updates.extra, UPDATE_KEYS, p)),
              c.history.(extra := Kept(c.history.extra, HISTORY_KEYS, p)),
              c.monitoring.(extra := Kept(c.monitoring.extra, MONITORING_KEYS, p)),
              c.profiles.(extra := Kept(c.profiles.extra, PROFILE_KEYS, p)),
              c.startup.(extra := Kept(c.startup.extra, STARTUP_KEYS, p)), Kept(c.extra, ROOT, p))
  }

  predicate NothingUnknown(c: AppConfig) {
    && c.extra.Keys <= ROOT && c.ui.extra.Keys <= UI_KEYS && c.network.extra.Keys <= NETWORK_KEYS
    && c.updates.extra.Keys <= UPDATE_KEYS && c.history.extra.Keys <= HISTORY_KEYS
    && c.monitoring.extra.Keys <= MONITORING_KEYS && c.profiles.extra.Keys <= PROFILE_KEYS
    && c.startup.extra.Keys <= STARTUP_KEYS
  }

  /** Known fields written over the unknown ones come apart again. */
  lemma Unmix(extra: Fields, known: Fields, keys: set<string>, p: Policy)
    requires known.Keys == keys
    ensures Extras(extra + known, keys, p) == Kept(extra, keys, p)
    ensures UnknownOk(extra + known, keys, p) <==> (p.Reject? ==> extra.Keys <= keys)
  {
  }

  lemma UITrip(s: UI, p: Policy)
    ensures ParseUI(PrintUI(s), p) == if UIOk(s) && (p.Reject? ==> s.extra.Keys <= UI_KEYS)
                                      then Some(s.(extra := Kept(s.extra, UI_KEYS, p))) else None
  {
    Unmix(s.extra, map["language" := Text(s.language), "open_browser_on_start" := Flag(s.openBrowser)], UI_KEYS, p);
  }

  lemma NetworkTrip(s: Network, p: Policy)
    ensures ParseNetwork(PrintNetwork(s), p) == if NetworkOk(s) && (p.Reject? ==> s.extra.Keys <= NETWORK_KEYS)
                                                then Some(s.(extra := Kept(s.extra, NETWORK_KEYS, p))) else None
  {
    Unmix(s.extra, map["request_timeout_seconds" := Whole(s.timeout)], NETWORK_KEYS, p);
  }

  lemma UpdatesTrip(s: Updates, p: Policy, d: Defaults)
    ensures ParseUpdates(PrintUpdates(s), p, d) ==
            if UpdatesOk(s) && (p.Reject? ==> s.extra.Keys <= UPDATE_KEYS)
            then Some(s.(extra := Kept(s.extra, UPDATE_KEYS, p))) else None
  {
    Unmix(s.extra, map["channel" := Text(s.channel), "check_on_start" := Flag(s.checkOnStart)], UPDATE_KEYS, p);
  }

  lemma HistoryTrip(s: Retention, p: Policy)
    ensures ParseHistory(PrintHistory(s), p) ==
            if HistoryOk(s) && (p.Reject? ==> s.extra.Keys <= HISTORY_KEYS)
            then Some(s.(extra := Kept(s.extra, HISTORY_KEYS, p))) else None
  {
    Unmix(s.extra, map["retention_days" := if s.days.Some? then Whole(s.days.value) else Null], HISTORY_KEYS, p);
  }

  lemma MonitoringTrip(s: Monitoring, p: Policy)
    ensures ParseMonitoring(PrintMonitoring(s), p) ==
            if MonitoringOk(s) && (p.Reject? ==> s.extra.Keys <= MONITORING_KEYS)
            then Some(s.(extra := Kept(s.extra, MONITORING_KEYS, p))) else None
  {
    Unmix(s.extra, map["enabled" := Flag(s.enabled), "interval_seconds" := Whole(s.interval),
                       "freshness_threshold_seconds" := Whole(s.threshold)], MONITORING_KEYS, p);
  }

  lemma ProfilesTrip(s: Profiles, p: Policy)
    ensures ParseProfiles(PrintProfiles(s), p) ==
            if ProfilesOk(s) && (p.Reject? ==> s.extra.Keys <= PROFILE_KEYS)
            then Some(s.(extra := Kept(s.extra, PROFILE_KEYS, p))) else None
  {
    Unmix(s.extra, map["active_profile_id" := if s.active.Some? then Text(s.active.value) else Null], PROFILE_KEYS, p);
  }

  lemma StartupTrip(s: Startup, p: Policy)
    ensures ParseStartup(PrintStartup(s), p) == if p.Reject? ==> s.extra.Keys <= STARTUP_KEYS
                                                then Some(s.(extra := Kept(s.extra, STARTUP_KEYS, p))) else None
  {
    Unmix(s.extra, map["enabled" := Flag(s.enabled)], STARTUP_KEYS, p);
  }

  lemma KnownKeys(c: AppConfig)
    ensures Known(c).Keys == ROOT
  {
  }

  lemma KnownFields(c: AppConfig)
    requires Known(c).Keys == ROOT
    ensures Known(c)["schema_version"] == Whole(c.schema) && Known(c)["ui"] == PrintUI(c.ui)
    ensures Known(c)["network"] == PrintNetwork(c.network)
    ensures Known(c)["updates"] == PrintUpdates(c.updates) && Known(c)["history"] == PrintHistory(c.history)
    ensures Known(c)["monitoring"] == PrintMonitoring(c.monitoring) && Known(c)["profiles"] == PrintProfiles(c.profiles)
    ensures Known(c)["startup"] == PrintStartup(c.startup)
  {
  }

  ghost predicate HasSections(root: Fields, c: AppConfig) {
    && "schema_version" in root && root["schema_version"] == Whole(c.schema)
    && Section(root, "ui") == PrintUI(c.ui) && Section(root, "network") == PrintNetwork(c.network)
    && Section(root, "updates") == PrintUpdates(c.updates) && Section(root, "history") == PrintHistory(c.history)
    && Section(root, "monitoring") == PrintMonitoring(c.monitoring)
    && Section(root, "profiles") == PrintProfiles(c.profiles)
    && Section(root, "startup") == PrintStartup(c.startup)
  }

  lemma PrintedSections(c: AppConfig)
    ensures HasSections(Print(c).fields, c)
  {
    KnownKeys(c);
    KnownFields(c);
    Overlaid(c.extra, Known(c), c);
  }

  lemma Overlaid(extra: Fields, known: Fields, c: AppConfig)
    requires known.Keys == ROOT && HasSections(known, c)
    ensures HasSections(extra + known, c)
  {
    assert forall k :: k in ROOT ==> k in extra + known && (extra + known)[k] == known[k];
  }

  lemma PrintedExtras(c: AppConfig, p: Policy)
    ensures Extras(Print(c).fields, ROOT, p) == Kept(c.extra, ROOT, p)
    ensures UnknownOk(Print(c).fields, ROOT, p) <==> (p.Reject? ==> c.extra.Keys <= ROOT)
  {
    KnownKeys(c);
    Unmix(c.extra, Known(c), ROOT, p);
  }

  /** Reading back what was printed, for every configuration and policy. */
  lemma ReadBack(c: AppConfig, p: Policy, d: Defaults)
    ensures Parse(Print(c), p, d) ==
      if InRange(c) && (p.Reject? ==> NothingUnknown(c)) then Some(Reduced(c, p)) else None
  {
    PrintedSections(c);
    PrintedExtras(c, p);
    ReadBackFrom(c, Print(c).fields, p, d);
  }

  lemma ReadBackFrom(c: AppConfig, root: Fields, p: Policy, d: Defaults)
    requires HasSections(root, c)
    requires Extras(root, ROOT, p) == Kept(c.extra, ROOT, p)
    requires (UnknownOk(root, ROOT, p) <==> (p.Reject? ==> c.extra.Keys <= ROOT))
    ensures Parse(Object(root), p, d) ==
      if InRange(c) && (p.Reject? ==> NothingUnknown(c)) then Some(Reduced(c, p)) else None
  {
    UITrip(c.ui, p);
    NetworkTrip(c.network, p);
    UpdatesTrip(c.updates, p, d);
    HistoryTrip(c.history, p);
    MonitoringTrip(c.monitoring, p);
    ProfilesTrip(c.profiles, p);
    StartupTrip(c.startup, p);
  }

  /** Printing and parsing are inverse on a configuration exactly when its values are in range and its unknown fields
      have names of their own; every parsed configuration is such. */
  lemma RoundTripIsExact(c: AppConfig, d: Defaults)
    ensures Parse(Print(c), Preserve, d) == Some(c) <==> InRange(c) && Tidy(c)
  {
    ReadBack(c, Preserve, d);
    var r := Reduced(c, Preserve);
    assert r == c <==> Tidy(c) by {
      Disjoint(c.extra, ROOT);
      Disjoint(c.ui.extra, UI_KEYS);
      Disjoint(c.network.extra, NETWORK_KEYS);
      Disjoint(c.updates.extra, UPDATE_KEYS);
      Disjoint(c.history.extra, HISTORY_KEYS);
      Disjoint(c.monitoring.extra, MONITORING_KEYS);
      Disjoint(c.profiles.extra, PROFILE_KEYS);
      Disjoint(c.startup.extra, STARTUP_KEYS);
    }
  }

  lemma Disjoint(extra: Fields, keys: set<string>)
    ensures extra - keys == extra <==> extra.Keys !! keys
  {
    if extra - keys == extra { assert (extra - keys).Keys == extra.Keys - keys; }
  }

  lemma ParsedIsTidy(v: Value, p: Policy, d: Defaults)
    requires Parse(v, p, d).Some?
    ensures InRange(Parse(v, p, d).value) && Tidy(Parse(v, p, d).value)
  {
  }

  ghost predicate Extends(more: Value, less: Value, known: set<string>) {
    more.Object? && less.Object? && more.fields.Keys == less.fields.Keys + known &&
    forall k :: k in less.fields ==> more.fields[k] == less.fields[k]
  }

  lemma UIKeeps(v: Value)
    ensures ParseUI(v, Preserve).Some? ==> Extends(PrintUI(ParseUI(v, Preserve).value), v, UI_KEYS)
  {
  }

  lemma NetworkKeeps(v: Value)
    ensures ParseNetwork(v, Preserve).Some? ==> Extends(PrintNetwork(ParseNetwork(v, Preserve).value), v, NETWORK_KEYS)
  {
  }

  lemma HistoryKeeps(v: Value)
    ensures ParseHistory(v, Preserve).Some? ==> Extends(PrintHistory(ParseHistory(v, Preserve).value), v, HISTORY_KEYS)
  {
  }

  lemma MonitoringKeeps(v: Value)
    ensures ParseMonitoring(v, Preserve).Some? ==>
      Extends(PrintMonitoring(ParseMonitoring(v, Preserve).value), v, MONITORING_KEYS)
  {
  }

  lemma ProfilesKeeps(v: Value)
    ensures ParseProfiles(v, Preserve).Some? ==>
      Extends(PrintProfiles(ParseProfiles(v, Preserve).value), v, PROFILE_KEYS)
  {
  }

  lemma StartupKeeps(v: Value)
    ensures ParseStartup(v, Preserve).Some? ==> Extends(PrintStartup(ParseStartup(v, Preserve).value), v, STARTUP_KEYS)
  {
  }

  lemma UpdatesKeep(v: Value, d: Defaults)
    ensures ParseUpdates(v, Preserve, d).Some? ==>
      Extends(PrintUpdates(ParseUpdates(v, Preserve, d).value), v, UPDATE_KEYS)
  {
  }

  /** Under the preserving policy a parsed document is printed with every field it had, known or not, unchanged; only
      missing known fields are added. */
  lemma NothingIsLost(v: Value, d: Defaults)
    requires Parse(v, Preserve, d).Some?
    ensures var out := Print(Parse(v, Preserve, d).value).fields;
      && out.Keys == v.fields.Keys + ROOT
      && (forall k :: k in v.fields && (k !in ROOT || k == "schema_version") ==> out[k] == v.fields[k])
      && Extends(Section(out, "ui"), Section(v.fields, "ui"), UI_KEYS)
      && Extends(Section(out, "network"), Section(v.fields, "network"), NETWORK_KEYS)
      && Extends(Section(out, "updates"), Section(v.fields, "updates"), UPDATE_KEYS)
      && Extends(Section(out, "history"), Section(v.fields, "history"), HISTORY_KEYS)
      && Extends(Section(out, "monitoring"), Section(v.fields, "monitoring"), MONITORING_KEYS)
      && Extends(Section(out, "profiles"), Section(v.fields, "profiles"), PROFILE_KEYS)
      && Extends(Section(out, "startup"), Section(v.fields, "startup"), STARTUP_KEYS)
  {
    var c := Parse(v, Preserve, d).value;
    PrintedSections(c);
    RootKeeps(v, c, d);
    UIKeeps(Section(v.fields, "ui"));
    NetworkKeeps(Section(v.fields, "network"));
    UpdatesKeep(Section(v.fields, "updates"), d);
    HistoryKeeps(Section(v.fields, "history"));
    MonitoringKeeps(Section(v.fields, "monitoring"));
    ProfilesKeeps(Section(v.fields, "profiles"));
    StartupKeeps(Section(v.fields, "startup"));
  }

  lemma RootKeeps(v: Value, c: AppConfig, d: Defaults)
    requires Parse(v, Preserve, d) == Some(c)
    ensures Print(c).fields.Keys == v.fields.Keys + ROOT
    ensures forall k :: k in v.fields && (k !in ROOT || k == "schema_version") ==> Print(c).fields[k] == v.fields[k]
  {
    KnownKeys(c);
    KnownFields(c);
    KeptAround(v.fields, Known(c), ROOT);
  }

  lemma KeptAround(m: Fields, known: Fields, keys: set<string>)
    requires known.Keys == keys
    ensures ((m - keys) + known).Keys == m.Keys + keys
    ensures forall k :: k in m && k !in keys ==> ((m - keys) + known)[k] == m[k]
    ensures forall k :: k in keys ==> ((m - keys) + known)[k] == known[k]
  {
  }
}
