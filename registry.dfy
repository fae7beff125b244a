/** The provider manager of provider_manager.py: an insertion-ordered
    name-to-class table filled from a built-in list and, once, from
    entry points; an instance cache; and the ordered validation chain of
    `get_provider`. Entry-point scanning and `ep.load()` are inputs: each
    entry point comes with what loading it gives. */
module Registry {
  import opened Wrappers
  import opened PyDicts
  import opened Config

  /** A provider implementation class, known by its qualified name. */
  datatype ProviderClass = ProviderClass(qualname: string)

  /** A constructed provider: its class and the configuration it was built from. */
  datatype ProviderInstance = ProviderInstance(cls: ProviderClass, config: ProviderConfig)

  /** What `ep.load()` gives for one entry point. */
  datatype Loaded = ProviderSubclass(cls: ProviderClass) | NotAProviderClass | LoadRaised

  /** An entry point of the provider group; a missing name is "". */
  datatype EntryPoint = EntryPoint(name: string, loaded: Loaded)

  /** The built-in table the manager starts from. */
  const BuiltinTable: Dict<ProviderClass> := [
    ("oss", ProviderClass("OSSProvider")),
    ("cos", ProviderClass("COSProvider")),
    ("sms", ProviderClass("SMSProvider")),
    ("imgur", ProviderClass("ImgurProvider")),
    ("github", ProviderClass("GitHubProvider"))]

  /** `a` is an initial segment of `b`. */
  predicate IsPrefix(a: seq<string>, b: seq<string>)
  {
    |a| <= |b| && b[..|a|] == a
  }

  /** One turn of the discovery loop: an empty or already-present name is
      skipped, and only a `BaseProvider` subclass is added. */
  function DiscoverOne(table: Dict<ProviderClass>, ep: EntryPoint): Dict<ProviderClass>
  {
    if ep.name == "" || ep.name in Keys(table) then table
    else
      match ep.loaded
      case ProviderSubclass(c) => Put(table, ep.name, c)
      case _ => table
  }

  /** The discovery loop over all entry points, in their order. */
  function Discover(table: Dict<ProviderClass>, eps: seq<EntryPoint>): Dict<ProviderClass>
    decreases |eps|
  {
    if eps == [] then table else Discover(DiscoverOne(table, eps[0]), eps[1..])
  }

  /** Discovery never overwrites: existing names keep their classes and
      their places, new names are appended, and the table stays a dict. */
  lemma {:induction false} DiscoverExtends(table: Dict<ProviderClass>, eps: seq<EntryPoint>)
    requires WellFormed(table)
    ensures var t := Discover(table, eps);
      && WellFormed(t)
      && IsPrefix(Keys(table), Keys(t))
      && forall n :: n in Keys(table) ==> Get(t, n) == Get(table, n)
    decreases |eps|
  {
    if eps != [] {
      var ep := eps[0];
      var t1 := DiscoverOne(table, ep);
      DiscoverOneExtends(table, ep);
      DiscoverExtends(t1, eps[1..]);
      var t := Discover(t1, eps[1..]);
      assert Keys(t)[..|Keys(table)|] == Keys(t1)[..|Keys(t1)|][..|Keys(table)|];
    }
  }

  /** Discovery keeps whatever names the table starts with first, and keeps
      every name it had. */
  lemma DiscoverKeepsPrefix(first: seq<string>, table: Dict<ProviderClass>, eps: seq<EntryPoint>)
    requires WellFormed(table) && IsPrefix(first, Keys(table))
    ensures var t := Discover(table, eps);
      && WellFormed(t)
      && IsPrefix(first, Keys(t))
      && forall n :: n in Keys(table) ==> n in Keys(t)
  {
    DiscoverExtends(table, eps);
    var t := Discover(table, eps);
    forall n | n in Keys(table) ensures n in Keys(t) {
      assert n in Keys(t)[..|Keys(table)|];
    }
    assert Keys(t)[..|first|] == Keys(t)[..|Keys(table)|][..|first|];
  }

  /** One turn of discovery keeps the table a dict and only appends. */
  lemma DiscoverOneExtends(table: Dict<ProviderClass>, ep: EntryPoint)
    requires WellFormed(table)
    ensures var t := DiscoverOne(table, ep);
      && WellFormed(t)
      && IsPrefix(Keys(table), Keys(t))
      && forall n :: n in Keys(table) ==> Get(t, n) == Get(table, n)
  {
    var t1 := DiscoverOne(table, ep);
    if t1 != table {
      PutWellFormed(table, ep.name, ep.loaded.cls);
      PutKeys(table, ep.name, ep.loaded.cls);
      forall n | n in Keys(table) ensures Get(t1, n) == Get(table, n) {
        GetPut(table, ep.name, ep.loaded.cls, n);
      }
    }
  }

  /** Every name discovery adds comes from a named entry point that loaded a
      `BaseProvider` subclass, and carries that class. */
  lemma {:induction false} DiscoveredNamesComeFromEntryPoints(table: Dict<ProviderClass>, eps: seq<EntryPoint>, n: string)
    requires n !in Keys(table) && n in Keys(Discover(table, eps))
    ensures n != ""
    ensures exists i :: 0 <= i < |eps| && eps[i].name == n && eps[i].loaded == ProviderSubclass(Get(Discover(table, eps), n).value)
    decreases |eps|
  {
    var ep := eps[0];
    var t1 := DiscoverOne(table, ep);
    if t1 != table && ep.name == n {
      GetPut(table, ep.name, ep.loaded.cls, n);
      assert n in Keys(t1);
      DiscoverKeepsPresent(t1, eps[1..], n);
      assert eps[0].loaded == ProviderSubclass(Get(Discover(table, eps), n).value);
    } else {
      if t1 != table {
        GetPut(table, ep.name, ep.loaded.cls, n);
      }
      assert n !in Keys(t1);
      DiscoveredNamesComeFromEntryPoints(t1, eps[1..], n);
      var i :| 0 <= i < |eps[1..]| && eps[1..][i].name == n && eps[1..][i].loaded == ProviderSubclass(Get(Discover(t1, eps[1..]), n).value);
      assert eps[i + 1] == eps[1..][i];
    }
  }

  /** A name already in the table keeps its class through discovery. */
  lemma {:induction false} DiscoverKeepsPresent(table: Dict<ProviderClass>, eps: seq<EntryPoint>, n: string)
    requires n in Keys(table)
    ensures Get(Discover(table, eps), n) == Get(table, n)
    decreases |eps|
  {
    if eps != [] {
      var ep := eps[0];
      var t1 := DiscoverOne(table, ep);
      if t1 != table {
        GetPut(table, ep.name, ep.loaded.cls, n);
      }
      DiscoverKeepsPresent(t1, eps[1..], n);
    }
  }

  /** Why `get_provider` gives an instance or None, in the order it checks. */
  datatype Resolution =
    | NotConfigured
    | Disabled
    | InvalidConfig
    | Unimplemented
    | ConstructionFailed
    | Constructed(instance: ProviderInstance)
  {
    /** What `get_provider` returns for this outcome. */
    function Returned(): Option<ProviderInstance> {
      if Constructed? then Some(instance) else None
    }
  }

  /** The cache after resolving `name`: only a constructed instance is filed. */
  function Filed(cache: map<string, ProviderInstance>, name: string, r: Resolution): map<string, ProviderInstance> {
    if r.Constructed? then cache[name := r.instance] else cache
  }

  /** The validation chain of `get_provider` for a name not in the cache:
      configuration present, enabled, valid, class known, then construction. */
  function Resolve(configs: ConfigManager, table: Dict<ProviderClass>, name: string, constructorRaises: bool): (r: Resolution)
    reads configs
    ensures r == NotConfigured <==> configs.GetProviderConfig(name).None?
    ensures r == Disabled <==> configs.GetProviderConfig(name).Some? && !Enabled(configs.GetProviderConfig(name).value)
    ensures r == InvalidConfig <==> (configs.IsProviderEnabled(name) && !configs.ValidateProviderConfig(name))
    ensures r == Unimplemented <==> (configs.IsProviderEnabled(name) && configs.ValidateProviderConfig(name) && name !in Keys(table))
    ensures r == ConstructionFailed <==> (configs.IsProviderEnabled(name) && configs.ValidateProviderConfig(name)
                                         && name in Keys(table) && constructorRaises)
    ensures r.Constructed? ==> r.instance == ProviderInstance(Get(table, name).value, configs.GetProviderConfig(name).value)
  {
    var c := configs.GetProviderConfig(name);
    if c.None? then NotConfigured
    else if !Enabled(c.value) then Disabled
    else if !configs.classes.validate(c.value) then InvalidConfig
    else
      match Get(table, name)
      case None => Unimplemented
      case Some(cls) => if constructorRaises then ConstructionFailed else Constructed(ProviderInstance(cls, c.value))
  }

  /** `[n for n in names if is_provider_enabled(n)]`. */
  function EnabledNames(configs: ConfigManager, names: seq<string>): (r: seq<string>)
    reads configs
  {
    if names == [] then []
    else EnabledNames(configs, names[..|names| - 1])
         + (if configs.IsProviderEnabled(names[|names| - 1]) then [names[|names| - 1]] else [])
  }

  /** The enabled names are exactly the enabled members of the list. */
  lemma {:induction false} EnabledNamesMembers(configs: ConfigManager, names: seq<string>, n: string)
    ensures n in EnabledNames(configs, names) <==> n in names && configs.IsProviderEnabled(n)
  {
    if names != [] {
      EnabledNamesMembers(configs, names[..|names| - 1], n);
      assert names == names[..|names| - 1] + [names[|names| - 1]];
    }
  }

  /** The results of `validate_all_providers` for a list of names. */
  function Validations(configs: ConfigManager, names: seq<string>): Dict<bool>
    reads configs
  {
    if names == [] then []
    else
      var n := names[|names| - 1];
      var acc := Validations(configs, names[..|names| - 1]);
      if configs.IsProviderEnabled(n) then Put(acc, n, configs.ValidateProviderConfig(n)) else acc
  }

  /** Over distinct names, the validation results are keyed by the enabled
      names in order. */
  lemma {:induction false} ValidationsKeys(configs: ConfigManager, names: seq<string>)
    requires forall i, j :: 0 <= i < j < |names| ==> names[i] != names[j]
    ensures Keys(Validations(configs, names)) == EnabledNames(configs, names)
  {
    if names != [] {
      var init := names[..|names| - 1];
      var n := names[|names| - 1];
      ValidationsKeys(configs, init);
      if configs.IsProviderEnabled(n) {
        EnabledNamesMembers(configs, init, n);
        assert n !in init;
        PutKeys(Validations(configs, init), n, configs.ValidateProviderConfig(n));
      }
    }
  }

  /** Each enabled name reads back its validation verdict; any other name is
      absent. */
  lemma {:induction false} ValidationsGet(configs: ConfigManager, names: seq<string>, k: string)
    ensures Get(Validations(configs, names), k)
            == if k in EnabledNames(configs, names) then Some(configs.ValidateProviderConfig(k)) else None
  {
    if names != [] {
      var init := names[..|names| - 1];
      var n := names[|names| - 1];
      ValidationsGet(configs, init, k);
      if configs.IsProviderEnabled(n) {
        GetPut(Validations(configs, init), n, configs.ValidateProviderConfig(n), k);
      }
    }
  }

  /** Over distinct names, the validation results are keyed by the enabled
      names in order, each with its validation verdict. */
  lemma ValidationsSpec(configs: ConfigManager, names: seq<string>)
    requires forall i, j :: 0 <= i < j < |names| ==> names[i] != names[j]
    ensures Keys(Validations(configs, names)) == EnabledNames(configs, names)
    ensures forall n :: Get(Validations(configs, names), n)
                       == if n in EnabledNames(configs, names) then Some(configs.ValidateProviderConfig(n)) else None
  {
    ValidationsKeys(configs, names);
    forall n ensures Get(Validations(configs, names), n)
                     == if n in EnabledNames(configs, names) then Some(configs.ValidateProviderConfig(n)) else None {
      ValidationsGet(configs, names, n);
    }
  }

  /** `ValidationsSpec` for the keys of a dict. */
  lemma ValidationsOfKeys<V>(configs: ConfigManager, d: Dict<V>)
    requires WellFormed(d)
    ensures Keys(Validations(configs, Keys(d))) == EnabledNames(configs, Keys(d))
    ensures forall n :: Get(Validations(configs, Keys(d)), n) == if n in Keys(d) && configs.IsProviderEnabled(n)
                                                                 then Some(configs.ValidateProviderConfig(n)) else None
  {
    var ks := Keys(d);
    assert forall i, j :: 0 <= i < j < |ks| ==> ks[i] != ks[j];
    ValidationsSpec(configs, ks);
    forall n ensures n in EnabledNames(configs, ks) <==> n in ks && configs.IsProviderEnabled(n) {
      EnabledNamesMembers(configs, ks, n);
    }
  }

  /** The comprehension of `get_enabled_providers` over a list of names. */
  method KeepEnabled(configs: ConfigManager, all: seq<string>) returns (names: seq<string>)
    ensures names == EnabledNames(configs, all)
    ensures forall n :: n in names <==> n in all && configs.IsProviderEnabled(n)
  {
    names := [];
    for i := 0 to |all|
      invariant names == EnabledNames(configs, all[..i])
    {
      assert all[..i + 1][..i] == all[..i];
      if configs.IsProviderEnabled(all[i]) {
        names := names + [all[i]];
      }
    }
    assert all[..|all|] == all;
    forall n ensures n in names <==> n in all && configs.IsProviderEnabled(n) {
      EnabledNamesMembers(configs, all, n);
    }
  }

  /** The loop of `validate_all_providers` over a list of names. */
  method ValidateEach(configs: ConfigManager, all: seq<string>) returns (results: Dict<bool>)
    ensures results == Validations(configs, all)
  {
    results := [];
    for i := 0 to |all|
      invariant results == Validations(configs, all[..i])
    {
      assert all[..i + 1][..i] == all[..i];
      if configs.IsProviderEnabled(all[i]) {
        results := Put(results, all[i], configs.ValidateProviderConfig(all[i]));
      }
    }
    assert all[..|all|] == all;
  }

  /** The provider manager: class table, discovery flag and instance cache. */
  class ProviderManager {
    const configs: ConfigManager
    const entryPoints: seq<EntryPoint>
    /** The built-in names the table starts with. */
    const builtins: seq<string>
    var table: Dict<ProviderClass>
    var discovered: bool
    var cache: map<string, ProviderInstance>

    /** The table is a dict that starts with the built-ins, and every cached
        instance is filed under a known name. */
    ghost predicate Valid()
      reads this
    {
      && WellFormed(table)
      && IsPrefix(builtins, Keys(table))
      && forall n :: n in cache ==> n in Keys(table)
    }

    constructor (configs: ConfigManager, entryPoints: seq<EntryPoint>)
      ensures Valid()
      ensures this.configs == configs && this.entryPoints == entryPoints
      ensures table == BuiltinTable && !discovered && cache == map[]
      ensures builtins == ["oss", "cos", "sms", "imgur", "github"]
    {
      this.configs := configs;
      this.entryPoints := entryPoints;
      builtins := Keys(BuiltinTable);
      table := BuiltinTable;
      discovered := false;
      cache := map[];
    }

    /** The table `_ensure_discovery` leaves behind. */
    ghost function TableAfterDiscovery(): Dict<ProviderClass>
      reads this`table, this`discovered
    {
      if discovered then table else Discover(table, entryPoints)
    }

    /** `_ensure_discovery`: the entry-point loop runs on the first call only. */
    method EnsureDiscovery()
      requires Valid()
      modifies this`table, this`discovered
      ensures Valid() && discovered
      ensures table == old(TableAfterDiscovery())
      ensures old(discovered) ==> table == old(table)
    {
      if discovered {
        return;
      }
      discovered := true;
      ghost var start := table;
      LoadEntryPoints();
      DiscoverKeepsPrefix(builtins, start, entryPoints);
    }

    /** The entry-point loop of `_ensure_discovery`, filling the table in place. */
    method LoadEntryPoints()
      modifies this`table
      ensures table == Discover(old(table), entryPoints)
    {
      var i := 0;
      while i < |entryPoints|
        invariant 0 <= i <= |entryPoints|
        invariant Discover(table, entryPoints[i..]) == Discover(old(table), entryPoints)
      {
        var ep := entryPoints[i];
        assert entryPoints[i..][1..] == entryPoints[i + 1..];
        if ep.name != "" && ep.name !in Keys(table) {
          match ep.loaded {
            case ProviderSubclass(c) =>
              table := Put(table, ep.name, c);
            case NotAProviderClass =>
            case LoadRaised =>
          }
        }
        i := i + 1;
      }
      assert entryPoints[i..] == [];
    }

    /** `get_provider`. A cached name is answered from the cache without
        consulting the configuration; otherwise the chain of `Resolve`
        decides, and only a constructed instance is cached. */
    method GetProvider(name: string, constructorRaises: bool) returns (p: Option<ProviderInstance>)
      requires Valid()
      modifies this`table, this`discovered, this`cache
      ensures Valid() && discovered
      ensures table == old(TableAfterDiscovery())
      ensures name in old(cache) ==> p == Some(old(cache)[name]) && cache == old(cache)
      ensures name !in old(cache) ==>
        var r := Resolve(configs, table, name, constructorRaises);
        p == r.Returned() && cache == Filed(old(cache), name, r)
    {
      EnsureDiscovery();
      if name in cache {
        return Some(cache[name]);
      }
      var r := Resolve(configs, table, name, constructorRaises);
      if r.Constructed? {
        cache := cache[name := r.instance];
        p := Some(r.instance);
      } else {
        p := None;
      }
    }

    /** `list_providers`: the table's names in insertion order, built-ins
        first. */
    method ListProviders() returns (names: seq<string>)
      requires Valid()
      modifies this`table, this`discovered
      ensures Valid() && discovered
      ensures table == old(TableAfterDiscovery())
      ensures names == Keys(table)
      ensures IsPrefix(builtins, names)
    {
      EnsureDiscovery();
      names := Keys(table);
    }

    /** `get_provider_class`: after discovery, the class filed under the
        name, which a built-in name always has. */
    method GetProviderClass(name: string) returns (cls: Option<ProviderClass>)
      requires Valid()
      modifies this`table, this`discovered
      ensures Valid() && discovered
      ensures table == old(TableAfterDiscovery())
      ensures cls == Get(table, name)
      ensures name in builtins ==> cls.Some?
    {
      EnsureDiscovery();
      cls := Get(table, name);
    }

    /** `get_enabled_providers`: the listed names whose configuration is
        enabled, in list order. */
    method GetEnabledProviders() returns (names: seq<string>)
      requires Valid()
      modifies this`table, this`discovered
      ensures Valid() && discovered
      ensures table == old(TableAfterDiscovery())
      ensures names == EnabledNames(configs, Keys(table))
      ensures forall n :: n in names <==> n in Keys(table) && configs.IsProviderEnabled(n)
    {
      var all := ListProviders();
      names := KeepEnabled(configs, all);
    }

    /** `validate_all_providers`: a verdict for each enabled name, in list order. */
    method ValidateAllProviders() returns (results: Dict<bool>)
      requires Valid()
      modifies this`table, this`discovered
      ensures Valid() && discovered
      ensures table == old(TableAfterDiscovery())
      ensures results == Validations(configs, Keys(table))
    {
      var all := ListProviders();
      results := ValidateEach(configs, all);
    }

    /** `clear_cache`: the cache is emptied; the table is untouched. */
    method ClearCache()
      requires Valid()
      modifies this`cache
      ensures Valid() && cache == map[]
    {
      cache := map[];
    }

    /** `refresh_provider`: only this name's cache entry is dropped, then the
        name is resolved afresh. */
    method RefreshProvider(name: string, constructorRaises: bool) returns (p: Option<ProviderInstance>)
      requires Valid()
      modifies this`table, this`discovered, this`cache
      ensures Valid() && discovered
      ensures table == old(TableAfterDiscovery())
      ensures var r := Resolve(configs, table, name, constructorRaises);
        p == r.Returned() && cache == Filed(old(cache) - {name}, name, r)
    {
      cache := cache - {name};
      p := GetProvider(name, constructorRaises);
    }

    /** `register_provider`: unlike discovery it replaces an existing class;
        a new name goes last. It does not trigger discovery. */
    method RegisterProvider(name: string, cls: ProviderClass)
      requires Valid()
      modifies this`table
      ensures Valid()
      ensures table == Put(old(table), name, cls)
      ensures Get(table, name) == Some(cls)
      ensures forall n :: n != name ==> Get(table, n) == Get(old(table), n)
      ensures Keys(table) == if name in Keys(old(table)) then Keys(old(table)) else Keys(old(table)) + [name]
    {
      PutWellFormed(table, name, cls);
      PutKeys(table, name, cls);
      forall n ensures Get(Put(table, name, cls), n) == if n == name then Some(cls) else Get(table, n) {
        GetPut(table, name, cls, n);
      }
      table := Put(table, name, cls);
    }

    /** `is_provider_supported`: membership in the table as it stands,
        without triggering discovery. */
    predicate IsProviderSupported(name: string)
      reads this
      ensures IsProviderSupported(name) <==> Get(table, name).Some?
    {
      name in Keys(table)
    }
  }

  /** A name registered before discovery keeps its registered class: entry
      points cannot displace it. */
  lemma RegisteredBeforeDiscoveryWins(table: Dict<ProviderClass>, name: string, cls: ProviderClass, eps: seq<EntryPoint>)
    requires WellFormed(table)
    ensures Get(Discover(Put(table, name, cls), eps), name) == Some(cls)
  {
    GetPut(table, name, cls, name);
    DiscoverKeepsPresent(Put(table, name, cls), eps, name);
  }
}
