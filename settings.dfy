/**
  The settings merge of CoinScan (CoinScan/settings_manager.py).

  A settings object read from disk is untrusted: `_validate_and_merge` turns
  any value into a settings dictionary that holds every default key, keeps an
  incoming value for a default key only when its exact runtime type is the
  default's type, and passes unknown keys through unchanged.
*/
module Settings {
  import opened Wrappers

  /** A Python value, tagged by its exact runtime type. */
  datatype PyValue =
    | Str(s: string)
    | Int(i: int)
    | Bool(b: bool)
    | Dict(entries: map<string, PyValue>)
    | Other(typeName: string)   // float, None, list, ...: only the type's name is kept

  /** The exact runtime type of a value, what `type(x)` yields. */
  datatype PyType = StrType | IntType | BoolType | DictType | OtherType(name: string)

  function TypeOf(v: PyValue): PyType
  {
    match v
    case Str(_) => StrType
    case Int(_) => IntType
    case Bool(_) => BoolType
    case Dict(_) => DictType
    case Other(n) => OtherType(n)
  }

  /** `type(x) is type(d)`: exact type identity, so a bool is not an int here. */
  predicate SameType(x: PyValue, d: PyValue)
  {
    TypeOf(x) == TypeOf(d)
  }

  type SettingsDict = map<string, PyValue>

  const DEFAULT_SETTINGS: SettingsDict := map[
    "language" := Str("en"),
    "webcam_size" := Str("small"),
    "high_contrast" := Bool(false),
    "font_size" := Int(14)
  ]

  /** Every default key is present and holds a value of the default's exact type. */
  ghost predicate WellTyped(s: SettingsDict)
  {
    forall k :: k in DEFAULT_SETTINGS ==> k in s && SameType(s[k], DEFAULT_SETTINGS[k])
  }

  /** What the merge keeps for the default key `key`, given the incoming dictionary. */
  function Checked(data: SettingsDict, key: string): PyValue
    requires key in DEFAULT_SETTINGS
  {
    if key in data && SameType(data[key], DEFAULT_SETTINGS[key]) then data[key]
    else DEFAULT_SETTINGS[key]
  }

  /** The settings dictionary `_validate_and_merge` returns for `data`. */
  function Merge(data: PyValue): (r: SettingsDict)
    ensures WellTyped(r)
  {
    match data
    case Dict(m) =>
      map k | k in DEFAULT_SETTINGS.Keys + m.Keys ::
        if k in DEFAULT_SETTINGS then Checked(m, k) else m[k]
    case _ => DEFAULT_SETTINGS
  }

  /**
    The merge part-way through its loop: the default keys in `done` are
    settled, the other default keys still hold their defaults.
  */
  function PartialMerge(m: SettingsDict, done: set<string>): SettingsDict
  {
    map k | k in DEFAULT_SETTINGS.Keys + m.Keys ::
      if k in DEFAULT_SETTINGS then (if k in done then Checked(m, k) else DEFAULT_SETTINGS[k]) else m[k]
  }

  /** Settling one more default key extends the part-way merge by that key. */
  lemma PartialMergeStep(m: SettingsDict, done: set<string>, key: string)
    requires key in DEFAULT_SETTINGS
    ensures PartialMerge(m, done)[key := Checked(m, key)] == PartialMerge(m, done + {key})
  {
  }

  /**
    `_validate_and_merge`: copy the defaults, add the unknown keys of the
    input, then visit every default key and settle its value.
  */
  method ValidateAndMerge(data: PyValue) returns (merged: SettingsDict)
    ensures merged == Merge(data)
  {
    if !data.Dict? {
      return DEFAULT_SETTINGS;
    }
    var m := data.entries;
    merged := DEFAULT_SETTINGS + (map k | k in m && k !in DEFAULT_SETTINGS :: m[k]);
    var remaining := DEFAULT_SETTINGS.Keys;
    assert merged == PartialMerge(m, {});
    while remaining != {}
      invariant remaining <= DEFAULT_SETTINGS.Keys
      invariant merged == PartialMerge(m, DEFAULT_SETTINGS.Keys - remaining)
      decreases remaining
    {
      var key :| key in remaining;
      var defaultValue := DEFAULT_SETTINGS[key];
      ghost var done := DEFAULT_SETTINGS.Keys - remaining;
      if key in m {
        var incoming := m[key];
        if SameType(incoming, defaultValue) {
          merged := merged[key := incoming];
        } else {
          merged := merged[key := defaultValue];
        }
      } else {
        assert merged[key] == Checked(m, key);
        assert merged[key := Checked(m, key)] == merged;
      }
      PartialMergeStep(m, done, key);
      remaining := remaining - {key};
      assert DEFAULT_SETTINGS.Keys - remaining == done + {key};
    }
    assert DEFAULT_SETTINGS.Keys - remaining == DEFAULT_SETTINGS.Keys;
  }

  /** Anything that is not a dictionary yields exactly the defaults. */
  lemma NonDictGivesDefaults(data: PyValue)
    requires !data.Dict?
    ensures Merge(data) == DEFAULT_SETTINGS
  {
  }

  /** The result's keys are the default keys plus the input's keys, and unknown keys keep their values. */
  lemma MergeKeys(m: SettingsDict)
    ensures Merge(Dict(m)).Keys == DEFAULT_SETTINGS.Keys + m.Keys
    ensures forall k :: k in m && k !in DEFAULT_SETTINGS ==> Merge(Dict(m))[k] == m[k]
  {
  }

  /**
    For a default key: an incoming value of the same exact type is kept; one of
    another type, or a missing one, gives the default.
  */
  lemma MergeDefaultKey(m: SettingsDict, k: string)
    requires k in DEFAULT_SETTINGS
    ensures k in Merge(Dict(m))
    ensures k in m && SameType(m[k], DEFAULT_SETTINGS[k]) ==> Merge(Dict(m))[k] == m[k]
    ensures k in m && !SameType(m[k], DEFAULT_SETTINGS[k]) ==> Merge(Dict(m))[k] == DEFAULT_SETTINGS[k]
    ensures k !in m ==> Merge(Dict(m))[k] == DEFAULT_SETTINGS[k]
  {
  }

  /** `high_contrast: 1` and `font_size: True` are both replaced by their defaults. */
  lemma BoolAndIntAreDistinct(m: SettingsDict)
    requires "high_contrast" in m && m["high_contrast"] == Int(1)
    requires "font_size" in m && m["font_size"] == Bool(true)
    ensures Merge(Dict(m))["high_contrast"] == Bool(false)
    ensures Merge(Dict(m))["font_size"] == Int(14)
  {
  }

  /** A dictionary is left unchanged by the merge exactly when it is well typed. */
  lemma MergeFixpoint(s: SettingsDict)
    ensures Merge(Dict(s)) == s <==> WellTyped(s)
  {
    if WellTyped(s) {
      var r := Merge(Dict(s));
      assert r.Keys == s.Keys;
      forall k | k in s
        ensures r[k] == s[k]
      {
      }
    } else {
      assert WellTyped(Merge(Dict(s)));
    }
  }

  /** Merging an already merged result returns it unchanged. */
  lemma MergeIdempotent(data: PyValue)
    ensures Merge(Dict(Merge(data))) == Merge(data)
  {
    MergeFixpoint(Merge(data));
  }

  /** The exception `save_settings` raises. */
  datatype SaveError = TypeError(message: string)

  /**
    `save_settings` up to the write: a non-dictionary raises TypeError before
    any merge; otherwise the result holds the dictionary that is written.
  */
  method SaveSettings(settings: PyValue) returns (r: Result<SettingsDict, SaveError>)
    ensures r.Failure? <==> !settings.Dict?
    ensures r.Failure? ==> r.error == TypeError("settings must be a dict")
    ensures r.Success? ==> r.value == Merge(settings) && WellTyped(r.value)
  {
    if !settings.Dict? {
      return Failure(TypeError("settings must be a dict"));
    }
    var toSave := ValidateAndMerge(settings);
    r := Success(toSave);
  }
}
