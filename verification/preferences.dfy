/** utils/GeneratorPreferences.kt: the generator settings saved to and
    loaded from the app's shared preferences, here a map from key to typed
    value. */
module Preferences {
  import opened Results
  import opened Models

  const KeyLength: string := "length"
  const KeyIncludeLowercase: string := "include_lowercase"
  const KeyIncludeUppercase: string := "include_uppercase"
  const KeyIncludeNumbers: string := "include_numbers"
  const KeyIncludeSymbols: string := "include_symbols"
  const KeyExcludeSimilar: string := "exclude_similar"
  const KeyCustomSymbols: string := "custom_symbols"

  /** The seven keys the settings live under. */
  const SettingKeys: set<string> := {KeyLength, KeyIncludeLowercase, KeyIncludeUppercase, KeyIncludeNumbers,
                                     KeyIncludeSymbols, KeyExcludeSimilar, KeyCustomSymbols}

  /** A stored preference value, with the type it was put with. */
  datatype PrefValue = IntValue(i: int) | BoolValue(b: bool) | StringValue(s: string)

  type Prefs = map<string, PrefValue>

  /** A typed getter met a value of another type: Android throws
      `ClassCastException`. */
  datatype PrefError = WrongType(key: string)

  /** `getInt(key, default)`. */
  function GetInt(prefs: Prefs, key: string, default: int): (r: Result<int, PrefError>)
    ensures key !in prefs ==> r == Ok(default)
    ensures key in prefs ==> (r.Ok? <==> prefs[key].IntValue?)
    ensures r.Ok? && key in prefs ==> prefs[key] == IntValue(r.value)
    ensures r.Err? ==> r.error == WrongType(key)
  {
    if key !in prefs then Ok(default)
    else match prefs[key]
      case IntValue(i) => Ok(i)
      case _ => Err(WrongType(key))
  }

  /** `getBoolean(key, default)`. */
  function GetBoolean(prefs: Prefs, key: string, default: bool): (r: Result<bool, PrefError>)
    ensures key !in prefs ==> r == Ok(default)
    ensures key in prefs ==> (r.Ok? <==> prefs[key].BoolValue?)
    ensures r.Ok? && key in prefs ==> prefs[key] == BoolValue(r.value)
    ensures r.Err? ==> r.error == WrongType(key)
  {
    if key !in prefs then Ok(default)
    else match prefs[key]
      case BoolValue(b) => Ok(b)
      case _ => Err(WrongType(key))
  }

  /** `getString(key, default)`. */
  function GetString(prefs: Prefs, key: string, default: string): (r: Result<string, PrefError>)
    ensures key !in prefs ==> r == Ok(default)
    ensures key in prefs ==> (r.Ok? <==> prefs[key].StringValue?)
    ensures r.Ok? && key in prefs ==> prefs[key] == StringValue(r.value)
    ensures r.Err? ==> r.error == WrongType(key)
  {
    if key !in prefs then Ok(default)
    else match prefs[key]
      case StringValue(s) => Ok(s)
      case _ => Err(WrongType(key))
  }

  /** `saveSettings`: one put per field, under its own key. */
  function SaveSettings(prefs: Prefs, s: GeneratorSettings): (r: Prefs)
    ensures r.Keys == prefs.Keys + SettingKeys
    ensures forall k :: k in prefs && k !in SettingKeys ==> r[k] == prefs[k]
    ensures r[KeyLength] == IntValue(s.length)
    ensures r[KeyIncludeLowercase] == BoolValue(s.includeLowercase)
    ensures r[KeyIncludeUppercase] == BoolValue(s.includeUppercase)
    ensures r[KeyIncludeNumbers] == BoolValue(s.includeNumbers)
    ensures r[KeyIncludeSymbols] == BoolValue(s.includeSymbols)
    ensures r[KeyExcludeSimilar] == BoolValue(s.excludeSimilar)
    ensures r[KeyCustomSymbols] == StringValue(s.customSymbols)
  {
    prefs[KeyLength := IntValue(s.length)]
         [KeyIncludeLowercase := BoolValue(s.includeLowercase)]
         [KeyIncludeUppercase := BoolValue(s.includeUppercase)]
         [KeyIncludeNumbers := BoolValue(s.includeNumbers)]
         [KeyIncludeSymbols := BoolValue(s.includeSymbols)]
         [KeyExcludeSimilar := BoolValue(s.excludeSimilar)]
         [KeyCustomSymbols := StringValue(s.customSymbols)]
  }

  /** Every stored key holds a value of the type its getter reads. */
  predicate WellTyped(prefs: Prefs)
  {
    (KeyLength in prefs ==> prefs[KeyLength].IntValue?)
    && (KeyIncludeLowercase in prefs ==> prefs[KeyIncludeLowercase].BoolValue?)
    && (KeyIncludeUppercase in prefs ==> prefs[KeyIncludeUppercase].BoolValue?)
    && (KeyIncludeNumbers in prefs ==> prefs[KeyIncludeNumbers].BoolValue?)
    && (KeyIncludeSymbols in prefs ==> prefs[KeyIncludeSymbols].BoolValue?)
    && (KeyExcludeSimilar in prefs ==> prefs[KeyExcludeSimilar].BoolValue?)
    && (KeyCustomSymbols in prefs ==> prefs[KeyCustomSymbols].StringValue?)
  }

  /** `loadSettings`: each field from its key, or the default of
      `PasswordGeneratorSettings()` when the key is missing. A key of the
      wrong type makes the load fail. */
  function LoadSettings(prefs: Prefs): (r: Result<GeneratorSettings, PrefError>)
    ensures r.Ok? <==> WellTyped(prefs)
    ensures r.Err? ==> r.error.key in SettingKeys && r.error.key in prefs
    ensures r.Ok? && KeyLength !in prefs ==> r.value.length == DefaultSettings.length
    ensures r.Ok? && KeyIncludeLowercase !in prefs ==> r.value.includeLowercase == DefaultSettings.includeLowercase
    ensures r.Ok? && KeyIncludeUppercase !in prefs ==> r.value.includeUppercase == DefaultSettings.includeUppercase
    ensures r.Ok? && KeyIncludeNumbers !in prefs ==> r.value.includeNumbers == DefaultSettings.includeNumbers
    ensures r.Ok? && KeyIncludeSymbols !in prefs ==> r.value.includeSymbols == DefaultSettings.includeSymbols
    ensures r.Ok? && KeyExcludeSimilar !in prefs ==> r.value.excludeSimilar == DefaultSettings.excludeSimilar
    ensures r.Ok? && KeyCustomSymbols !in prefs ==> r.value.customSymbols == DefaultSymbols
    ensures r.Ok? && KeyLength in prefs ==> prefs[KeyLength] == IntValue(r.value.length)
    ensures r.Ok? && KeyIncludeLowercase in prefs ==> prefs[KeyIncludeLowercase] == BoolValue(r.value.includeLowercase)
    ensures r.Ok? && KeyIncludeUppercase in prefs ==> prefs[KeyIncludeUppercase] == BoolValue(r.value.includeUppercase)
    ensures r.Ok? && KeyIncludeNumbers in prefs ==> prefs[KeyIncludeNumbers] == BoolValue(r.value.includeNumbers)
    ensures r.Ok? && KeyIncludeSymbols in prefs ==> prefs[KeyIncludeSymbols] == BoolValue(r.value.includeSymbols)
    ensures r.Ok? && KeyExcludeSimilar in prefs ==> prefs[KeyExcludeSimilar] == BoolValue(r.value.excludeSimilar)
    ensures r.Ok? && KeyCustomSymbols in prefs ==> prefs[KeyCustomSymbols] == StringValue(r.value.customSymbols)
  {
    var length := GetInt(prefs, KeyLength, 12);
    var lower := GetBoolean(prefs, KeyIncludeLowercase, true);
    var upper := GetBoolean(prefs, KeyIncludeUppercase, true);
    var numbers := GetBoolean(prefs, KeyIncludeNumbers, true);
    var symbols := GetBoolean(prefs, KeyIncludeSymbols, true);
    var similar := GetBoolean(prefs, KeyExcludeSimilar, true);
    var custom := GetString(prefs, KeyCustomSymbols, DefaultSymbols);
    if length.Err? then Err(length.error)
    else if lower.Err? then Err(lower.error)
    else if upper.Err? then Err(upper.error)
    else if numbers.Err? then Err(numbers.error)
    else if symbols.Err? then Err(symbols.error)
    else if similar.Err? then Err(similar.error)
    else if custom.Err? then Err(custom.error)
    else Ok(GeneratorSettings(length.value, lower.value, upper.value, numbers.value,
                              symbols.value, similar.value, custom.value))
  }

  /** The seven keys are different strings, so no field overwrites another. */
  lemma KeysDistinct()
    ensures |SettingKeys| == 7
  {
    assert KeyLength != KeyIncludeLowercase;
  }

  /** What was saved loads back unchanged, whatever else the store held. */
  lemma LoadAfterSave(prefs: Prefs, s: GeneratorSettings)
    ensures LoadSettings(SaveSettings(prefs, s)) == Ok(s)
  {
  }

  /** An empty store loads as the default settings. */
  lemma LoadEmpty()
    ensures LoadSettings(map[]) == Ok(DefaultSettings)
  {
  }

  /** Saving twice keeps only the second save's settings. */
  lemma SaveSaveIsLastSave(prefs: Prefs, s: GeneratorSettings, t: GeneratorSettings)
    ensures LoadSettings(SaveSettings(SaveSettings(prefs, s), t)) == Ok(t)
    ensures SaveSettings(SaveSettings(prefs, s), t) == SaveSettings(prefs, t)
  {
    LoadAfterSave(SaveSettings(prefs, s), t);
  }
}
