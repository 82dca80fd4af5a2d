/** ConfigurationService: application settings looked up by key, with a default for a missing,
    empty or whitespace-only value. The application settings collection compares keys ignoring
    case, so the settings are a snapshot map from the lower-cased key to its value, and a lookup
    lower-cases the requested key. */
module Configuration {
  import opened Wrappers
  import opened AsciiText

  /** GetSetting(name): the value stored under the key, whatever its case, or null when the key
      is absent. */
  function GetSetting(settings: map<string, string>, name: string): (r: Option<string>)
    ensures r.Some? <==> Lower(name) in settings
    ensures r.Some? ==> r.value == settings[Lower(name)]
  {
    var key := Lower(name);
    if key in settings then Some(settings[key]) else None
  }

  /** Keys that differ only in case name the same setting. */
  lemma GetSettingIgnoresCase(settings: map<string, string>, a: string, b: string)
    requires EqualsIgnoreCase(a, b)
    ensures GetSetting(settings, a) == GetSetting(settings, b)
  {
  }

  /** string.IsNullOrWhiteSpace on a nullable string. */
  predicate IsNullOrWhiteSpace(s: Option<string>) {
    s.None? || IsBlank(s.value)
  }

  /** GetSetting(name, defaultValue): the stored value unless it is null, empty or whitespace,
      in which case the default. */
  function GetSettingOr(settings: map<string, string>, name: string, defaultValue: string): (r: string)
    ensures Lower(name) !in settings ==> r == defaultValue
    ensures Lower(name) in settings && IsBlank(settings[Lower(name)]) ==> r == defaultValue
    ensures Lower(name) in settings && !IsBlank(settings[Lower(name)]) ==> r == settings[Lower(name)]
  {
    var value := GetSetting(settings, name);
    if IsNullOrWhiteSpace(value) then defaultValue else value.value
  }
}
