/**
 * Centralised timing settings. Each setting is `parseInt(env || default)`
 * times a unit factor (seconds or days to milliseconds); `None` stands for
 * JavaScript's NaN, which is what a value with no leading digits yields.
 */
module Config {
  import opened Wrappers
  import opened Text

  /** The process environment; a variable absent from the map is undefined. */
  type Env = map<string, string>

  const Second: int := 1000
  const Day: int := 24 * 60 * 60 * 1000

  /** `env[name] || fallback`: undefined and the empty string both take the default. */
  function OrDefault(env: Env, name: string, fallback: string): string {
    if name in env && env[name] != "" then env[name] else fallback
  }

  /** `parseInt(env[name] || fallback) * factor`; NaN times anything stays NaN. */
  function Setting(env: Env, name: string, fallback: string, factor: int): Option<int> {
    match JsParseInt(OrDefault(env, name, fallback))
    case None => None
    case Some(n) => Some(n * factor)
  }

  datatype Settings = Settings(
    statsCacheTtl: Option<int>,
    statsHistoryRetention: Option<int>,
    milestoneCheckThrottle: Option<int>,
    milestoneHistoryRetention: Option<int>,
    autoRefreshInterval: Option<int>,
    manualRefreshCooldown: Option<int>,
    milestoneCheckDelay: Option<int>,
    apiTimeout: Option<int>,
    milestoneCheckLogMax: Option<int>)

  /** The configuration object as built when the module loads. */
  function Load(env: Env): Settings {
    Settings(
      Setting(env, "STATS_CACHE_TTL", "86400", Second),
      Setting(env, "STATS_HISTORY_RETENTION", "90", Day),
      Setting(env, "MILESTONE_CHECK_THROTTLE", "7200", Second),
      Setting(env, "MILESTONE_HISTORY_RETENTION", "30", Day),
      Setting(env, "AUTO_REFRESH_INTERVAL", "300", Second),
      Setting(env, "MANUAL_REFRESH_COOLDOWN", "30", Second),
      Setting(env, "MILESTONE_CHECK_DELAY", "5", Second),
      Setting(env, "API_TIMEOUT", "30", Second),
      Setting(env, "MILESTONE_CHECK_LOG_MAX", "5", 1))
  }

  /** A variable holding the decimal text of `n` yields `n` in its unit. */
  lemma SettingOfNumeral(env: Env, name: string, fallback: string, factor: int, n: nat)
    requires OrDefault(env, name, fallback) == NatToString(n)
    ensures Setting(env, name, fallback, factor) == Some(n * factor)
  {
    JsParseIntOfIntToString(n);
  }

  /** `env[name]` is undefined or empty, so `env[name] || fallback` is the fallback. */
  predicate Unset(env: Env, name: string) {
    name !in env || env[name] == ""
  }

  /** An unset variable yields its default text's number in its unit. */
  lemma SettingOfDefault(env: Env, name: string, fallback: string, factor: int, n: nat)
    requires Unset(env, name) && fallback == NatToString(n)
    ensures Setting(env, name, fallback, factor) == Some(n * factor)
  {
    JsParseIntOfIntToString(n);
  }

  /** The default texts are the decimal forms of the default numbers. */
  lemma DefaultTexts()
    ensures NatToString(5) == "5" && NatToString(30) == "30" && NatToString(90) == "90"
    ensures NatToString(300) == "300" && NatToString(7200) == "7200" && NatToString(86400) == "86400"
  {
  }

  /** With none of the variables configured every setting takes its documented default. */
  lemma LoadDefaults(env: Env)
    requires Unset(env, "STATS_CACHE_TTL") && Unset(env, "STATS_HISTORY_RETENTION")
    requires Unset(env, "MILESTONE_CHECK_THROTTLE") && Unset(env, "MILESTONE_HISTORY_RETENTION")
    requires Unset(env, "AUTO_REFRESH_INTERVAL") && Unset(env, "MANUAL_REFRESH_COOLDOWN")
    requires Unset(env, "MILESTONE_CHECK_DELAY") && Unset(env, "API_TIMEOUT")
    requires Unset(env, "MILESTONE_CHECK_LOG_MAX")
    ensures Load(env) == Settings(
      Some(86_400_000), Some(90 * 86_400_000), Some(7_200_000), Some(30 * 86_400_000),
      Some(300_000), Some(30_000), Some(5_000), Some(30_000), Some(5))
  {
    DefaultTexts();
    SettingOfDefault(env, "STATS_CACHE_TTL", "86400", Second, 86400);
    SettingOfDefault(env, "STATS_HISTORY_RETENTION", "90", Day, 90);
    SettingOfDefault(env, "MILESTONE_CHECK_THROTTLE", "7200", Second, 7200);
    SettingOfDefault(env, "MILESTONE_HISTORY_RETENTION", "30", Day, 30);
    SettingOfDefault(env, "AUTO_REFRESH_INTERVAL", "300", Second, 300);
    SettingOfDefault(env, "MANUAL_REFRESH_COOLDOWN", "30", Second, 30);
    SettingOfDefault(env, "MILESTONE_CHECK_DELAY", "5", Second, 5);
    SettingOfDefault(env, "API_TIMEOUT", "30", Second, 30);
    SettingOfDefault(env, "MILESTONE_CHECK_LOG_MAX", "5", 1, 5);
  }

  /** An empty variable is falsy, so it reads exactly like an undefined one. */
  lemma EmptyVariableTakesDefault(env: Env, name: string, other: string, fallback: string, factor: int)
    requires name !in env
    ensures Setting(env[name := ""], other, fallback, factor) == Setting(env, other, fallback, factor)
  {
    assert OrDefault(env[name := ""], other, fallback) == OrDefault(env, other, fallback);
  }

  /**
   * A configured decimal value is scaled by 1000 for settings given in
   * seconds and by 86,400,000 for settings given in days.
   */
  lemma ConfiguredValuesAreScaled(env: Env, n: nat)
    ensures Load(env["STATS_CACHE_TTL" := NatToString(n)]).statsCacheTtl == Some(n * 1000)
    ensures Load(env["STATS_HISTORY_RETENTION" := NatToString(n)]).statsHistoryRetention == Some(n * 86_400_000)
    ensures Load(env["AUTO_REFRESH_INTERVAL" := NatToString(n)]).autoRefreshInterval == Some(n * 1000)
    ensures Load(env["MANUAL_REFRESH_COOLDOWN" := NatToString(n)]).manualRefreshCooldown == Some(n * 1000)
    ensures Load(env["API_TIMEOUT" := NatToString(n)]).apiTimeout == Some(n * 1000)
  {
    var s := NatToString(n);
    SettingOfNumeral(env["STATS_CACHE_TTL" := s], "STATS_CACHE_TTL", "86400", Second, n);
    SettingOfNumeral(env["STATS_HISTORY_RETENTION" := s], "STATS_HISTORY_RETENTION", "90", Day, n);
    SettingOfNumeral(env["AUTO_REFRESH_INTERVAL" := s], "AUTO_REFRESH_INTERVAL", "300", Second, n);
    SettingOfNumeral(env["MANUAL_REFRESH_COOLDOWN" := s], "MANUAL_REFRESH_COOLDOWN", "30", Second, n);
    SettingOfNumeral(env["API_TIMEOUT" := s], "API_TIMEOUT", "30", Second, n);
  }

  /** The same scaling for the milestone settings; the log size is taken as it is. */
  lemma ConfiguredMilestoneValuesAreScaled(env: Env, n: nat)
    ensures Load(env["MILESTONE_CHECK_THROTTLE" := NatToString(n)]).milestoneCheckThrottle == Some(n * 1000)
    ensures Load(env["MILESTONE_HISTORY_RETENTION" := NatToString(n)]).milestoneHistoryRetention == Some(n * 86_400_000)
    ensures Load(env["MILESTONE_CHECK_DELAY" := NatToString(n)]).milestoneCheckDelay == Some(n * 1000)
    ensures Load(env["MILESTONE_CHECK_LOG_MAX" := NatToString(n)]).milestoneCheckLogMax == Some(n)
  {
    var s := NatToString(n);
    SettingOfNumeral(env["MILESTONE_CHECK_THROTTLE" := s], "MILESTONE_CHECK_THROTTLE", "7200", Second, n);
    SettingOfNumeral(env["MILESTONE_HISTORY_RETENTION" := s], "MILESTONE_HISTORY_RETENTION", "30", Day, n);
    SettingOfNumeral(env["MILESTONE_CHECK_DELAY" := s], "MILESTONE_CHECK_DELAY", "5", Second, n);
    SettingOfNumeral(env["MILESTONE_CHECK_LOG_MAX" := s], "MILESTONE_CHECK_LOG_MAX", "5", 1, n);
  }

  /** A value with no leading digits makes the setting NaN. */
  lemma NonNumericIsNaN(env: Env, name: string, fallback: string, factor: int, v: string)
    requires v != "" && (forall i :: 0 <= i < |v| ==> !IsSpace(v[i]) && !IsDigit(v[i]))
    ensures Setting(env[name := v], name, fallback, factor) == None
  {
    assert OrDefault(env[name := v], name, fallback) == v;
    JsParseIntNoLeadingDigit(v);
  }

  datatype Key =
    | StatsCacheTtl | StatsHistoryRetention | MilestoneCheckThrottle
    | MilestoneHistoryRetention | AutoRefreshInterval | ManualRefreshCooldown
    | MilestoneCheckDelay | ApiTimeout | MilestoneCheckLogMax

  function Value(s: Settings, key: Key): Option<int> {
    match key
    case StatsCacheTtl => s.statsCacheTtl
    case StatsHistoryRetention => s.statsHistoryRetention
    case MilestoneCheckThrottle => s.milestoneCheckThrottle
    case MilestoneHistoryRetention => s.milestoneHistoryRetention
    case AutoRefreshInterval => s.autoRefreshInterval
    case ManualRefreshCooldown => s.manualRefreshCooldown
    case MilestoneCheckDelay => s.milestoneCheckDelay
    case ApiTimeout => s.apiTimeout
    case MilestoneCheckLogMax => s.milestoneCheckLogMax
  }

  datatype Unit = Seconds | Minutes | Hours | Days

  function Divisor(unit: Unit): (d: int)
    ensures d > 0
  {
    match unit
    case Seconds => 1000
    case Minutes => 1000 * 60
    case Hours => 1000 * 60 * 60
    case Days => 1000 * 60 * 60 * 24
  }

  /** `Math.round(n / d)`: the nearest integer, a half rounding towards +infinity. */
  function RoundDiv(n: int, d: int): (r: int)
    requires d > 0
    ensures 2 * d * r <= 2 * n + d < 2 * d * (r + 1)
  {
    var q := (2 * n + d) / (2 * d);
    assert 2 * n + d == (2 * d) * q + (2 * n + d) % (2 * d);
    q
  }

  /** The nearest integer is unique, so an exact multiple rounds to its quotient. */
  lemma RoundDivExact(n: int, d: int)
    requires d > 0
    ensures RoundDiv(n * d, d) == n
  {
    var r := RoundDiv(n * d, d);
    assert 2 * d * r <= 2 * d * n + d < 2 * d * (r + 1);
    if r < n {
      MulMonotone(2 * d, r + 1, n);
    } else if r > n {
      MulMonotone(2 * d, n + 1, r);
    }
  }

  lemma MulMonotone(c: int, a: int, b: int)
    requires c > 0 && a <= b
    ensures c * a <= c * b
  {
    var k := b - a;
    assert c * b == c * a + c * k;
  }

  /**
   * `getDisplayValue(key, unit)`: the setting divided by the unit's length
   * in milliseconds, rounded half up; NaN stays NaN.
   */
  function DisplayValue(s: Settings, key: Key, unit: Unit): (r: Option<int>)
    ensures r.Some? <==> Value(s, key).Some?
    ensures r.Some? ==>
      2 * Divisor(unit) * r.value <= 2 * Value(s, key).value + Divisor(unit) < 2 * Divisor(unit) * (r.value + 1)
  {
    match Value(s, key)
    case None => None
    case Some(v) => Some(RoundDiv(v, Divisor(unit)))
  }

  /** The defaults display as the development log reports them. */
  lemma DisplayDefaults(s: Settings)
    requires s == Settings(
      Some(86_400_000), Some(90 * 86_400_000), Some(7_200_000), Some(30 * 86_400_000),
      Some(300_000), Some(30_000), Some(5_000), Some(30_000), Some(5))
    ensures DisplayValue(s, StatsCacheTtl, Hours) == Some(24)
    ensures DisplayValue(s, StatsHistoryRetention, Days) == Some(90)
    ensures DisplayValue(s, MilestoneCheckThrottle, Hours) == Some(2)
    ensures DisplayValue(s, AutoRefreshInterval, Minutes) == Some(5)
    ensures DisplayValue(s, ManualRefreshCooldown, Seconds) == Some(30)
  {
    RoundDivExact(24, Divisor(Hours));
    RoundDivExact(90, Divisor(Days));
    RoundDivExact(2, Divisor(Hours));
    RoundDivExact(5, Divisor(Minutes));
    RoundDivExact(30, Divisor(Seconds));
  }
}
