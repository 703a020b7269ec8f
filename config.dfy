/**
 * The extension's settings lookup (`getConfigValue`). The editor's settings
 * store is a map from full setting identifiers ("simbolik.server", ...) to
 * the JSON value the user stored there.
 */
module Config {

  /** A stored setting value, as far as the extension's settings use them. */
  datatype ConfigValue = Str(s: string) | Flag(b: bool) | Null

  /** The user's settings, keyed by full identifier. */
  type Settings = map<string, ConfigValue>

  /** Every lookup goes through this configuration section. */
  const Section: string := "simbolik"

  function SettingId(key: string): (id: string)
    ensures id == Section + "." + key
  {
    Section + "." + key
  }

  /**
   * `getConfigValue(key, fallback)`: the stored value, except that an unset
   * key and the empty string both give the fallback. A stored `null` or
   * `false` is NOT replaced, since the lookup tests with strict equality.
   */
  function GetConfigValue(settings: Settings, key: string, fallback: ConfigValue): (v: ConfigValue)
    ensures SettingId(key) !in settings ==> v == fallback
    ensures SettingId(key) in settings && settings[SettingId(key)] == Str("") ==> v == fallback
    ensures SettingId(key) in settings && settings[SettingId(key)] != Str("") ==>
      v == settings[SettingId(key)]
  {
    var id := SettingId(key);
    if id !in settings || settings[id] == Str("") then fallback else settings[id]
  }

  /** The lookup never yields the empty string unless that is the fallback. */
  lemma NeverEmptyUnlessFallback(settings: Settings, key: string, fallback: ConfigValue)
    requires fallback != Str("")
    ensures GetConfigValue(settings, key, fallback) != Str("")
  {
  }

  /** Only the entry `simbolik.<key>` decides the lookup; every other setting is irrelevant. */
  lemma ConfinedToSection(s1: Settings, s2: Settings, key: string, fallback: ConfigValue)
    requires SettingId(key) in s1 <==> SettingId(key) in s2
    requires SettingId(key) in s1 ==> s1[SettingId(key)] == s2[SettingId(key)]
    ensures GetConfigValue(s1, key, fallback) == GetConfigValue(s2, key, fallback)
  {
  }

  /** JavaScript truthiness, for settings used in `if (...)`. */
  predicate Truthy(v: ConfigValue) {
    match v
    case Str(s) => s != ""
    case Flag(b) => b
    case Null => false
  }

  /** How a template string (`${v}`) renders a setting value. */
  function Display(v: ConfigValue): string {
    match v
    case Str(s) => s
    case Flag(b) => if b then "true" else "false"
    case Null => "null"
  }
}
