/** The configuration manager of config_manager.py: the dictionary-to-config
    step of `load_config`, the data shape of `save_config`, the provider
    lookups, and the merge-update of one provider's settings. Reading and
    writing YAML is outside the model: a document is a `Value` tree. */
module Config {
  import opened Wrappers
  import opened PyDicts

  /** A YAML value as `yaml.safe_load` produces it. */
  datatype Value =
    | VNull
    | VBool(b: bool)
    | VInt(i: int)
    | VStr(s: string)
    | VList(items: seq<Value>)
    | VMap(entries: map<string, Value>)

  /** Python truthiness of a loaded value. */
  predicate Truthy(v: Value)
  {
    match v
    case VNull => false
    case VBool(b) => b
    case VInt(i) => i != 0
    case VStr(s) => s != ""
    case VList(xs) => xs != []
    case VMap(m) => m != map[]
  }

  /** A provider configuration record: its `name` and every other field,
      exactly as `dict(exclude={"name"})` returns them. */
  datatype ProviderConfig = ProviderConfig(name: string, fields: map<string, Value>)

  /** `provider_config.enabled`, read for its truth value. */
  predicate Enabled(c: ProviderConfig)
  {
    "enabled" in c.fields && Truthy(c.fields["enabled"])
  }

  /** The pydantic provider-config classes, whose code is not part of this
      model: `construct(name, data)` is the field dictionary of
      `Class(name=name, **data)`, or None when validation raises;
      `validate` is `validate_config()`. */
  datatype ConfigClasses = ConfigClasses(
    construct: (string, map<string, Value>) -> Option<map<string, Value>>,
    validate: ProviderConfig -> bool)

  /** The application settings, `AppConfig`. `providers` keeps dict order. */
  datatype AppConfig = AppConfig(
    defaultOutputDir: string,
    maxConcurrentDownloads: int,
    timeout: int,
    retryCount: int,
    chunkSize: int,
    logLevel: string,
    providers: Dict<ProviderConfig>)

  /** The keys of the provider-config class table, in its order. */
  const SupportedProviders: seq<string> := ["oss", "cos", "sms", "imgur", "github"]

  /** The six top-level settings and the value each takes when missing. */
  const Defaults: map<string, Value> := map[
    "default_output_dir" := VStr("./backup"),
    "max_concurrent_downloads" := VInt(5),
    "timeout" := VInt(30),
    "retry_count" := VInt(3),
    "chunk_size" := VInt(8192),
    "log_level" := VStr("INFO")]

  datatype LoadError =
    | DocumentNotAMapping        // `data.get` on a non-dict document
    | SectionNotSearchable       // `name in providers` on None, a number or a bool
    | SectionNotSubscriptable    // `providers[name]` on a list or a string
    | SettingRejected(key: string) // `AppConfig(**config_data)` refuses a value

  // ---------------------------------------------------------------- loading

  /** `yaml.safe_load(f) or {}`, then the requirement that it be a dict. */
  function TopLevel(doc: Value): (r: Result<map<string, Value>, LoadError>)
    ensures !Truthy(doc) ==> r == Ok(map[])
    ensures Truthy(doc) && doc.VMap? ==> r == Ok(doc.entries)
    ensures Truthy(doc) && !doc.VMap? ==> r.Err?
  {
    if !Truthy(doc) then Ok(map[])
    else if doc.VMap? then Ok(doc.entries)
    else Err(DocumentNotAMapping)
  }

  /** The six settings of `config_data`: each read with its default. */
  function BaseSettings(data: map<string, Value>): (r: map<string, Value>)
  {
    map k | k in Defaults :: if k in data then data[k] else Defaults[k]
  }

  /** `k in s` for two strings. */
  predicate IsSubstring(k: string, s: string)
    decreases |s|
  {
    |k| <= |s| && (s[..|k|] == k || (|s| > 0 && IsSubstring(k, s[1..])))
  }

  /** `k in section` for the providers section. */
  function SectionContains(section: Value, k: string): Result<bool, LoadError>
  {
    match section
    case VMap(m) => Ok(k in m)
    case VList(xs) => Ok(VStr(k) in xs)
    case VStr(s) => Ok(IsSubstring(k, s))
    case _ => Err(SectionNotSearchable)
  }

  /** `Class(name=name, **data)`: a `data` that is not a mapping, or one
      that holds `name` itself, raises before pydantic sees it. */
  function Build(classes: ConfigClasses, name: string, data: Value): (r: Option<ProviderConfig>)
    ensures r.Some? ==> r.value.name == name && data.VMap? && "name" !in data.entries
  {
    if data.VMap? && "name" !in data.entries then
      match classes.construct(name, data.entries)
      case Some(f) => Some(ProviderConfig(name, f))
      case None => None
    else None
  }

  /** The provider loop of `load_config` over the first names of the class
      table: a section that fails to build is skipped, any other error
      propagates. */
  function LoadProviders(classes: ConfigClasses, section: Value, names: seq<string>): Result<Dict<ProviderConfig>, LoadError>
  {
    if names == [] then Ok([])
    else
      match LoadProviders(classes, section, names[..|names| - 1])
      case Err(e) => Err(e)
      case Ok(acc) =>
        var n := names[|names| - 1];
        match SectionContains(section, n)
        case Err(e) => Err(e)
        case Ok(present) =>
          if !present then Ok(acc)
          else if !section.VMap? then Err(SectionNotSubscriptable)
          else
            match Build(classes, n, section.entries[n])
            case None => Ok(acc)
            case Some(c) => Ok(Put(acc, n, c))
  }

  function AsInt(v: Value, key: string): Result<int, LoadError>
  {
    if v.VInt? then Ok(v.i) else Err(SettingRejected(key))
  }

  function AsStr(v: Value, key: string): Result<string, LoadError>
  {
    if v.VStr? then Ok(v.s) else Err(SettingRejected(key))
  }

  /** `AppConfig(**config_data)` with strict types. */
  function MakeAppConfig(s: map<string, Value>, providers: Dict<ProviderConfig>): Result<AppConfig, LoadError>
    requires Defaults.Keys <= s.Keys
  {
    var dir := AsStr(s["default_output_dir"], "default_output_dir");
    var conc := AsInt(s["max_concurrent_downloads"], "max_concurrent_downloads");
    var tmo := AsInt(s["timeout"], "timeout");
    var rc := AsInt(s["retry_count"], "retry_count");
    var cs := AsInt(s["chunk_size"], "chunk_size");
    var lvl := AsStr(s["log_level"], "log_level");
    if dir.Err? then Err(dir.error)
    else if conc.Err? then Err(conc.error)
    else if tmo.Err? then Err(tmo.error)
    else if rc.Err? then Err(rc.error)
    else if cs.Err? then Err(cs.error)
    else if lvl.Err? then Err(lvl.error)
    else Ok(AppConfig(dir.value, conc.value, tmo.value, rc.value, cs.value, lvl.value, providers))
  }

  /** What `load_config` makes of a parsed document. */
  function LoadData(classes: ConfigClasses, doc: Value): Result<AppConfig, LoadError>
  {
    match TopLevel(doc)
    case Err(e) => Err(e)
    case Ok(data) => LoadFromData(classes, data)
  }

  /** What `load_config` makes of the document's top-level dictionary. */
  function LoadFromData(classes: ConfigClasses, data: map<string, Value>): Result<AppConfig, LoadError>
  {
    match LoadProviders(classes, ProvidersSection(data), SupportedProviders)
    case Err(e) => Err(e)
    case Ok(providers) => MakeAppConfig(BaseSettings(data), providers)
  }

  /** `data.get("providers", {})`. */
  function ProvidersSection(data: map<string, Value>): Value
  {
    if "providers" in data then data["providers"] else VMap(map[])
  }

  /** Each of the six settings that the document leaves out takes its default. */
  lemma MissingSettingsTakeDefaults(classes: ConfigClasses, data: map<string, Value>)
    requires LoadData(classes, VMap(data)).Ok?
    ensures var c := LoadData(classes, VMap(data)).value;
      && ("default_output_dir" !in data ==> c.defaultOutputDir == "./backup")
      && ("max_concurrent_downloads" !in data ==> c.maxConcurrentDownloads == 5)
      && ("timeout" !in data ==> c.timeout == 30)
      && ("retry_count" !in data ==> c.retryCount == 3)
      && ("chunk_size" !in data ==> c.chunkSize == 8192)
      && ("log_level" !in data ==> c.logLevel == "INFO")
  {
  }

  /** A setting the document does give is taken from it. */
  lemma GivenSettingsAreKept(classes: ConfigClasses, data: map<string, Value>)
    requires LoadData(classes, VMap(data)).Ok?
    ensures var c := LoadData(classes, VMap(data)).value;
      && ("retry_count" in data ==> data["retry_count"] == VInt(c.retryCount))
      && ("max_concurrent_downloads" in data ==> data["max_concurrent_downloads"] == VInt(c.maxConcurrentDownloads))
      && ("default_output_dir" in data ==> data["default_output_dir"] == VStr(c.defaultOutputDir))
      && ("timeout" in data ==> data["timeout"] == VInt(c.timeout))
      && ("chunk_size" in data ==> data["chunk_size"] == VInt(c.chunkSize))
      && ("log_level" in data ==> data["log_level"] == VStr(c.logLevel))
  {
  }

  /** For a mapping section, the loop keeps exactly the supported names
      whose section builds: other names are ignored, and a section that
      fails to build is skipped without affecting the others. */
  lemma {:induction false} LoadProvidersFromMapping(classes: ConfigClasses, m: map<string, Value>, names: seq<string>)
    requires forall i, j :: 0 <= i < j < |names| ==> names[i] != names[j]
    ensures LoadProviders(classes, VMap(m), names).Ok?
    ensures var d := LoadProviders(classes, VMap(m), names).value;
      && WellFormed(d)
      && forall n :: Get(d, n) == if n in names && n in m then Build(classes, n, m[n]) else None
  {
    if names != [] {
      var init := names[..|names| - 1];
      var n := names[|names| - 1];
      LoadProvidersFromMapping(classes, m, init);
      var acc := LoadProviders(classes, VMap(m), init).value;
      assert n !in init;
      var d := LoadProviders(classes, VMap(m), names).value;
      forall k ensures Get(d, k) == if k in names && k in m then Build(classes, k, m[k]) else None {
        assert k in names <==> k in init || k == n by { assert names == init + [n]; }
        if n in m && Build(classes, n, m[n]).Some? {
          GetPut(acc, n, Build(classes, n, m[n]).value, k);
        }
      }
      if n in m && Build(classes, n, m[n]).Some? {
        PutWellFormed(acc, n, Build(classes, n, m[n]).value);
      }
    }
  }

  /** Every loaded entry sits under its own name, which is a supported one. */
  lemma LoadedEntriesAreSupported(classes: ConfigClasses, m: map<string, Value>, n: string)
    ensures var d := LoadProviders(classes, VMap(m), SupportedProviders);
      d.Ok? && (Get(d.value, n).Some? ==> n in SupportedProviders && Get(d.value, n).value.name == n)
  {
    LoadProvidersFromMapping(classes, m, SupportedProviders);
  }

  // ----------------------------------------------------------------- saving

  /** The data `save_config` hands to the YAML writer: the six settings and
      each provider by name, without its `name` field. */
  function SaveData(c: AppConfig): (data: map<string, Value>)
    ensures data.Keys == Defaults.Keys + {"providers"}
  {
    map[
      "default_output_dir" := VStr(c.defaultOutputDir),
      "max_concurrent_downloads" := VInt(c.maxConcurrentDownloads),
      "timeout" := VInt(c.timeout),
      "retry_count" := VInt(c.retryCount),
      "chunk_size" := VInt(c.chunkSize),
      "log_level" := VStr(c.logLevel),
      "providers" := VMap(SavedProviders(c.providers))]
  }

  /** Each provider by name, as its field dictionary. */
  function SavedProviders(d: Dict<ProviderConfig>): (r: map<string, Value>)
    ensures forall n :: n in r <==> Get(d, n).Some?
    ensures forall n :: n in r ==> r[n] == VMap(Get(d, n).value.fields)
  {
    map n | n in Keys(d) :: VMap(Get(d, n).value.fields)
  }

  /** A class table that rebuilds a dumped record unchanged. */
  ghost predicate RebuildsDumps(classes: ConfigClasses, c: AppConfig)
  {
    forall n :: n in Keys(c.providers) ==>
      var p := Get(c.providers, n).value;
      && p.name == n
      && "name" !in p.fields
      && classes.construct(n, p.fields) == Some(p.fields)
  }

  /** Loading what `save_config` wrote gives back the six settings and the
      configurations of the supported providers, and nothing else. */
  lemma SaveThenLoad(classes: ConfigClasses, c: AppConfig)
    requires RebuildsDumps(classes, c)
    ensures var r := LoadData(classes, VMap(SaveData(c)));
      && r.Ok?
      && r.value.(providers := c.providers) == c
      && forall n :: Get(r.value.providers, n) == if n in SupportedProviders then Get(c.providers, n) else None
  {
    var data := SaveData(c);
    assert Truthy(VMap(data)) by { assert "providers" in data; }
    assert LoadData(classes, VMap(data)) == LoadFromData(classes, data);
    assert ProvidersSection(data) == VMap(SavedProviders(c.providers));
    SavedSectionReloads(classes, c);
    var providers := LoadProviders(classes, VMap(SavedProviders(c.providers)), SupportedProviders).value;
    SavedSettingsReload(c, providers);
  }

  /** The six saved settings coerce back to the values they came from. */
  lemma SavedSettingsReload(c: AppConfig, providers: Dict<ProviderConfig>)
    ensures MakeAppConfig(BaseSettings(SaveData(c)), providers) == Ok(c.(providers := providers))
  {
    SavedIntsRead(c);
    SavedStrsRead(c);
  }

  /** The four integer settings read back from the saved document as written. */
  lemma SavedIntsRead(c: AppConfig)
    ensures var s := BaseSettings(SaveData(c));
      && Defaults.Keys <= s.Keys
      && s["retry_count"] == VInt(c.retryCount)
      && s["timeout"] == VInt(c.timeout)
      && s["chunk_size"] == VInt(c.chunkSize)
      && s["max_concurrent_downloads"] == VInt(c.maxConcurrentDownloads)
  {
  }

  /** The two string settings read back from the saved document as written. */
  lemma SavedStrsRead(c: AppConfig)
    ensures var s := BaseSettings(SaveData(c));
      && Defaults.Keys <= s.Keys
      && s["default_output_dir"] == VStr(c.defaultOutputDir)
      && s["log_level"] == VStr(c.logLevel)
  {
  }

  /** The saved providers section loads back as the supported providers. */
  lemma SavedSectionReloads(classes: ConfigClasses, c: AppConfig)
    requires RebuildsDumps(classes, c)
    ensures var d := LoadProviders(classes, VMap(SavedProviders(c.providers)), SupportedProviders);
      && d.Ok?
      && forall n :: Get(d.value, n) == if n in SupportedProviders then Get(c.providers, n) else None
  {
    var m := SavedProviders(c.providers);
    LoadProvidersFromMapping(classes, m, SupportedProviders);
    forall n | n in m ensures Build(classes, n, m[n]) == Get(c.providers, n) {
      var p := Get(c.providers, n).value;
      assert n in Keys(c.providers);
      assert m[n] == VMap(p.fields);
    }
  }

  // ------------------------------------------------------------------ update

  datatype UpdateError = Unsupported(name: string) | Rejected(name: string)

  /** The settings handed to the class on update: the existing fields, with
      the keys of `update` overriding them (`dict.update`). */
  function Merged(existing: Option<ProviderConfig>, update: map<string, Value>): (r: map<string, Value>)
    ensures forall k :: k in r <==> k in update || (existing.Some? && k in existing.value.fields)
    ensures forall k :: k in update ==> r[k] == update[k]
    ensures forall k :: existing.Some? && k in existing.value.fields && k !in update ==> r[k] == existing.value.fields[k]
  {
    match existing
    case Some(e) => e.fields + update
    case None => update
  }

  /** The configuration manager: it owns the loaded application settings. */
  class ConfigManager {
    const classes: ConfigClasses
    var config: AppConfig

    /** Every entry is stored under its own name, at most once. */
    ghost predicate Valid()
      reads this
    {
      && WellFormed(config.providers)
      && forall n :: Get(config.providers, n).Some? ==> Get(config.providers, n).value.name == n
    }

    constructor (classes: ConfigClasses, config: AppConfig)
      requires WellFormed(config.providers)
      requires forall n :: Get(config.providers, n).Some? ==> Get(config.providers, n).value.name == n
      ensures Valid() && this.classes == classes && this.config == config
    {
      this.classes := classes;
      this.config := config;
    }

    /** `get_supported_providers`: the class table's names, in its order. */
    function GetSupportedProviders(): (r: seq<string>)
      ensures r == ["oss", "cos", "sms", "imgur", "github"]
      ensures forall i, j :: 0 <= i < j < |r| ==> r[i] != r[j]
    {
      SupportedProviders
    }

    /** `get_provider_config`. */
    function GetProviderConfig(name: string): (r: Option<ProviderConfig>)
      reads this
      ensures r.Some? <==> name in Keys(config.providers)
      ensures r.Some? ==> (name, r.value) in config.providers
    {
      Get(config.providers, name)
    }

    /** `is_provider_enabled`: a configuration exists and is enabled. */
    predicate IsProviderEnabled(name: string)
      reads this
      ensures IsProviderEnabled(name) <==> name in Keys(config.providers) && Enabled(Get(config.providers, name).value)
    {
      var c := GetProviderConfig(name);
      c.Some? && Enabled(c.value)
    }

    /** `validate_provider_config`: false without a configuration, otherwise
        the configuration's own verdict. */
    predicate ValidateProviderConfig(name: string)
      reads this
      ensures ValidateProviderConfig(name) <==> name in Keys(config.providers) && classes.validate(Get(config.providers, name).value)
    {
      var c := GetProviderConfig(name);
      c.Some? && classes.validate(c.value)
    }

    /** The dictionary-to-config part of `load_config`, with the provider
        loop written out; on an error nothing is assigned. */
    method LoadConfig(doc: Value) returns (r: Result<AppConfig, LoadError>)
      modifies this
      ensures r == LoadData(classes, doc)
      ensures r.Ok? ==> config == r.value && Valid()
      ensures r.Err? ==> config == old(config)
    {
      var top := TopLevel(doc);
      if top.Err? {
        return Err(top.error);
      }
      var data := top.value;
      var section := ProvidersSection(data);
      var providers: Dict<ProviderConfig> := [];
      var names := SupportedProviders;
      for i := 0 to |names|
        invariant LoadProviders(classes, section, names[..i]) == Ok(providers)
      {
        assert names[..i + 1][..i] == names[..i];
        var n := names[i];
        var present := SectionContains(section, n);
        if present.Err? {
          LoadProvidersErrorSticks(classes, section, names, i + 1);
          return Err(present.error);
        }
        if present.value {
          if !section.VMap? {
            LoadProvidersErrorSticks(classes, section, names, i + 1);
            return Err(SectionNotSubscriptable);
          }
          var built := Build(classes, n, section.entries[n]);
          if built.Some? {
            providers := Put(providers, n, built.value);
          }
        }
      }
      assert names[..|names|] == names;
      r := MakeAppConfig(BaseSettings(data), providers);
      if r.Ok? {
        LoadedIsValid(data, section, providers, r.value);
        config := r.value;
      }
    }

    /** A successful load stores each entry under its own name. */
    lemma LoadedIsValid(data: map<string, Value>, section: Value, providers: Dict<ProviderConfig>, c: AppConfig)
      requires LoadProviders(classes, section, SupportedProviders) == Ok(providers)
      requires MakeAppConfig(BaseSettings(data), providers) == Ok(c)
      ensures WellFormed(c.providers)
      ensures forall n :: Get(c.providers, n).Some? ==> Get(c.providers, n).value.name == n
    {
      LoadProvidersWellFormed(classes, section, SupportedProviders);
    }

    /** `update_provider_config`. */
    method UpdateProviderConfig(name: string, update: map<string, Value>) returns (r: Result<(), UpdateError>)
      requires Valid()
      modifies this
      ensures Valid()
      ensures name !in SupportedProviders ==> r == Err(Unsupported(name)) && config == old(config)
      ensures r.Err? ==> config == old(config)
      ensures r.Ok? <==> name in SupportedProviders
                         && Build(classes, name, VMap(Merged(old(GetProviderConfig(name)), update))).Some?
      ensures r.Ok? ==> config == old(config).(providers := Put(old(config).providers, name,
                         Build(classes, name, VMap(Merged(old(GetProviderConfig(name)), update))).value))
    {
      if name !in SupportedProviders {
        return Err(Unsupported(name));
      }
      var existing := GetProviderConfig(name);
      var built := Build(classes, name, VMap(Merged(existing, update)));
      if built.None? {
        return Err(Rejected(name));
      }
      PutWellFormed(config.providers, name, built.value);
      forall n ensures Get(Put(config.providers, name, built.value), n) == if n == name then Some(built.value) else Get(config.providers, n) {
        GetPut(config.providers, name, built.value, n);
      }
      config := config.(providers := Put(config.providers, name, built.value));
      r := Ok(());
    }
  }

  /** An error in the provider loop ends the loop. */
  lemma {:induction false} LoadProvidersErrorSticks(classes: ConfigClasses, section: Value, names: seq<string>, j: nat)
    requires j <= |names| && LoadProviders(classes, section, names[..j]).Err?
    ensures LoadProviders(classes, section, names) == LoadProviders(classes, section, names[..j])
    decreases |names| - j
  {
    if j < |names| {
      assert names[..j + 1][..j] == names[..j];
      LoadProvidersErrorSticks(classes, section, names, j + 1);
    } else {
      assert names[..j] == names;
    }
  }

  /** The provider loop never stores a key twice and files each entry
      under its own name. */
  lemma {:induction false} LoadProvidersWellFormed(classes: ConfigClasses, section: Value, names: seq<string>)
    requires LoadProviders(classes, section, names).Ok?
    ensures var d := LoadProviders(classes, section, names).value;
      && WellFormed(d)
      && forall n :: Get(d, n).Some? ==> Get(d, n).value.name == n
  {
    if names != [] {
      var init := names[..|names| - 1];
      LoadProvidersWellFormed(classes, section, init);
      var acc := LoadProviders(classes, section, init).value;
      var n := names[|names| - 1];
      if SectionContains(section, n) == Ok(true) && section.VMap? {
        var b := Build(classes, n, section.entries[n]);
        if b.Some? {
          PutWellFormed(acc, n, b.value);
          forall k ensures Get(Put(acc, n, b.value), k) == if k == n then Some(b.value) else Get(acc, k) {
            GetPut(acc, n, b.value, k);
          }
        }
      }
    }
  }

  /** An update replaces only the named provider's entry, and a class that
      keeps what it is given stores the existing fields overridden by the
      update. */
  lemma UpdateTouchesOneEntry(classes: ConfigClasses, c: AppConfig, name: string, update: map<string, Value>, other: string)
    requires other != name
    requires Build(classes, name, VMap(Merged(Get(c.providers, name), update))).Some?
    ensures var b := Build(classes, name, VMap(Merged(Get(c.providers, name), update))).value;
      && Get(Put(c.providers, name, b), other) == Get(c.providers, other)
      && Get(Put(c.providers, name, b), name) == Some(b)
      && b.name == name
      && (classes.construct(name, Merged(Get(c.providers, name), update)) == Some(Merged(Get(c.providers, name), update))
          ==> b.fields == Merged(Get(c.providers, name), update))
  {
    var b := Build(classes, name, VMap(Merged(Get(c.providers, name), update))).value;
    GetPut(c.providers, name, b, other);
    GetPut(c.providers, name, b, name);
  }
}
