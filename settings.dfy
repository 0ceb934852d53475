/** Settings resolution of `CacheBust.__init__`: the registry settings are
    filtered to the `cachebust.` keys, the prefix text is stripped, and the
    four options are read with their defaults, `method` being validated. */
module Settings {
  import opened Wrappers
  import opened Text

  /** The namespace of the cache buster's keys in the registry settings. */
  const Prefix := "cachebust."

  /** The token strategies `method` may select. */
  datatype Method = Md5 | Mtime | Init

  function MethodName(m: Method): string {
    match m
    case Md5 => "md5"
    case Mtime => "mtime"
    case Init => "init"
  }

  /** The membership test `pmval not in ('md5', 'mtime', 'init')`. */
  function ParseMethod(s: string): (r: Option<Method>)
    ensures r.Some? <==> s == "md5" || s == "mtime" || s == "init"
    ensures r.Some? ==> MethodName(r.value) == s
  {
    if s == "md5" then Some(Md5)
    else if s == "mtime" then Some(Mtime)
    else if s == "init" then Some(Init)
    else None
  }

  /** Every strategy is accepted under its own name. */
  lemma ParseMethodName(m: Method)
    ensures ParseMethod(MethodName(m)) == Some(m)
  {
  }

  /** The options a constructed cache buster carries. */
  datatype Config = Config(enabled: bool, reloadFiles: bool, strategy: Method, paramKey: string)

  /** `DEFAULT_CONFIG`. */
  const DefaultConfig := Config(true, false, Md5, "_")

  /** `InvalidConfig`, with the message the constructor raises it with. */
  datatype InvalidConfig = InvalidConfig(message: string)

  const MethodError := "cachebust.method must be md5, mtime, or init"

  /** A settings entry is read as option `name`: its key starts with the
      prefix and deleting every copy of the prefix from it leaves `name`. */
  predicate Contributes(item: (string, string), name: string) {
    StartsWith(item.0, Prefix) && RemoveAll(item.0, Prefix) == name
  }

  /** The dict comprehension over `settings.items()`, taken in the order
      that `items()` iterates: an entry for a stripped key that is already
      present overwrites it. */
  function Filter(items: seq<(string, string)>): map<string, string> {
    if items == [] then map[]
    else
      var (k, v) := items[|items| - 1];
      var rest := Filter(items[..|items| - 1]);
      if StartsWith(k, Prefix) then rest[RemoveAll(k, Prefix) := v] else rest
  }

  /** The keys of the comprehension are exactly the stripped keys of the
      namespaced entries. */
  lemma {:induction false} FilterKeys(items: seq<(string, string)>)
    ensures Filter(items).Keys == set i | 0 <= i < |items| && StartsWith(items[i].0, Prefix) :: RemoveAll(items[i].0, Prefix)
    decreases |items|
  {
    if items != [] {
      var n := |items| - 1;
      FilterKeys(items[..n]);
      assert forall i :: 0 <= i < n ==> items[..n][i] == items[i];
    }
  }

  /** Entry `i` is the last one that is read as option `name`. */
  ghost predicate IsLastFor(items: seq<(string, string)>, name: string, i: int) {
    0 <= i < |items| && Contributes(items[i], name) &&
    forall j :: i < j < |items| ==> !Contributes(items[j], name)
  }

  /** The filtered settings hold `name` exactly when some entry is read as
      `name`, and then hold the value of the last such entry. */
  lemma {:induction false} FilterKeepsLastSetting(items: seq<(string, string)>, name: string)
    ensures name in Filter(items) <==> exists i :: 0 <= i < |items| && Contributes(items[i], name)
    ensures name in Filter(items) ==> exists i :: IsLastFor(items, name, i) && Filter(items)[name] == items[i].1
    decreases |items|
  {
    if items != [] {
      var n := |items| - 1;
      var init := items[..n];
      FilterKeepsLastSetting(init, name);
      if Contributes(items[n], name) {
        assert IsLastFor(items, name, n);
      } else {
        assert name in Filter(items) <==> name in Filter(init);
        assert name in Filter(items) ==> Filter(items)[name] == Filter(init)[name];
        forall i | 0 <= i < n ensures items[i] == init[i] { }
        if name in Filter(init) {
          var i :| IsLastFor(init, name, i) && Filter(init)[name] == init[i].1;
          assert IsLastFor(items, name, i);
        }
      }
    }
  }

  /** The last entry read as `name` is unique. */
  lemma LastForUnique(items: seq<(string, string)>, name: string, i: int, j: int)
    requires IsLastFor(items, name, i) && IsLastFor(items, name, j)
    ensures i == j
  {
  }

  /** The value of option `name` in the filtered settings is that of its
      last entry. */
  lemma FilterValue(items: seq<(string, string)>, name: string, i: int)
    requires IsLastFor(items, name, i)
    ensures name in Filter(items) && Filter(items)[name] == items[i].1
  {
    FilterKeepsLastSetting(items, name);
    var j :| IsLastFor(items, name, j) && Filter(items)[name] == items[j].1;
    LastForUnique(items, name, i, j);
  }

  /** `CacheBust.__init__` as a function of the settings, `asBool` standing
      for `pyramid.settings.asbool`. */
  function Resolve(items: seq<(string, string)>, asBool: string -> bool): (r: Result<Config, InvalidConfig>)
    ensures r.Err? ==> r.error == InvalidConfig(MethodError)
  {
    var s := Filter(items);
    var enabled := if "enabled" in s then asBool(s["enabled"]) else DefaultConfig.enabled;
    var reloadFiles := if "reload_files" in s then asBool(s["reload_files"]) else DefaultConfig.reloadFiles;
    var paramKey := if "param_key" in s then s["param_key"] else DefaultConfig.paramKey;
    if "method" in s then
      match ParseMethod(s["method"])
      case None => Err(InvalidConfig(MethodError))
      case Some(m) => Ok(Config(enabled, reloadFiles, m, paramKey))
    else
      Ok(Config(enabled, reloadFiles, DefaultConfig.strategy, paramKey))
  }

  /** An option no entry is read as takes its value from `DEFAULT_CONFIG`. */
  lemma AbsentSettingsTakeDefaults(items: seq<(string, string)>, asBool: string -> bool)
    ensures (forall i :: 0 <= i < |items| ==> !Contributes(items[i], "method")) ==>
      Resolve(items, asBool).Ok? && Resolve(items, asBool).value.strategy == Md5
    ensures Resolve(items, asBool).Ok? ==>
      var c := Resolve(items, asBool).value;
      ((forall i :: 0 <= i < |items| ==> !Contributes(items[i], "enabled")) ==> c.enabled) &&
      ((forall i :: 0 <= i < |items| ==> !Contributes(items[i], "reload_files")) ==> !c.reloadFiles) &&
      ((forall i :: 0 <= i < |items| ==> !Contributes(items[i], "param_key")) ==> c.paramKey == "_")
  {
    FilterKeepsLastSetting(items, "enabled");
    FilterKeepsLastSetting(items, "reload_files");
    FilterKeepsLastSetting(items, "method");
    FilterKeepsLastSetting(items, "param_key");
  }

  /** Construction fails exactly when the last `method` entry names no
      strategy. */
  lemma InvalidMethodRejected(items: seq<(string, string)>, asBool: string -> bool)
    ensures Resolve(items, asBool).Err? <==>
      exists i :: IsLastFor(items, "method", i) && ParseMethod(items[i].1).None?
    ensures Resolve(items, asBool).Err? ==> Resolve(items, asBool).error.message == MethodError
  {
    FilterKeepsLastSetting(items, "method");
    if exists i :: IsLastFor(items, "method", i) && ParseMethod(items[i].1).None? {
      var i :| IsLastFor(items, "method", i) && ParseMethod(items[i].1).None?;
      FilterValue(items, "method", i);
    }
  }

  /** A present option is read from its last entry: the booleans through
      `asbool`, `param_key` and a valid `method` verbatim. */
  lemma PresentSettingsRead(items: seq<(string, string)>, asBool: string -> bool, i: int)
    requires Resolve(items, asBool).Ok?
    ensures IsLastFor(items, "enabled", i) ==> Resolve(items, asBool).value.enabled == asBool(items[i].1)
    ensures IsLastFor(items, "reload_files", i) ==> Resolve(items, asBool).value.reloadFiles == asBool(items[i].1)
    ensures IsLastFor(items, "param_key", i) ==> Resolve(items, asBool).value.paramKey == items[i].1
    ensures IsLastFor(items, "method", i) ==> MethodName(Resolve(items, asBool).value.strategy) == items[i].1
  {
    if IsLastFor(items, "enabled", i) { FilterValue(items, "enabled", i); }
    if IsLastFor(items, "reload_files", i) { FilterValue(items, "reload_files", i); }
    if IsLastFor(items, "param_key", i) { FilterValue(items, "param_key", i); }
    if IsLastFor(items, "method", i) { FilterValue(items, "method", i); }
  }

  /** The entries whose key starts with the prefix, in their order. */
  function Namespaced(items: seq<(string, string)>): (r: seq<(string, string)>)
    ensures |r| <= |items|
    ensures forall x :: x in r <==> x in items && StartsWith(x.0, Prefix)
  {
    if items == [] then []
    else
      var rest := Namespaced(items[..|items| - 1]);
      if StartsWith(items[|items| - 1].0, Prefix) then rest + [items[|items| - 1]] else rest
  }

  /** Filtering keeps the relative order of the entries: filtering a
      concatenation concatenates the filtered parts. */
  lemma {:induction false} NamespacedKeepsOrder(a: seq<(string, string)>, b: seq<(string, string)>)
    ensures Namespaced(a + b) == Namespaced(a) + Namespaced(b)
    decreases |b|
  {
    if b == [] {
      assert a + b == a;
    } else {
      var n := |b| - 1;
      assert (a + b)[..|a + b| - 1] == a + b[..n];
      assert (a + b)[|a + b| - 1] == b[n];
      NamespacedKeepsOrder(a, b[..n]);
    }
  }

  /** Keys outside the `cachebust.` namespace have no influence at all. */
  lemma {:induction false} FilterIgnoresOtherKeys(items: seq<(string, string)>)
    ensures Filter(items) == Filter(Namespaced(items))
    decreases |items|
  {
    if items != [] {
      var n := |items| - 1;
      FilterIgnoresOtherKeys(items[..n]);
      if StartsWith(items[n].0, Prefix) {
        var r := Namespaced(items[..n]) + [items[n]];
        assert r[..|r| - 1] == Namespaced(items[..n]);
      }
    }
  }

  lemma ResolveIgnoresOtherKeys(items: seq<(string, string)>, asBool: string -> bool)
    ensures Resolve(items, asBool) == Resolve(Namespaced(items), asBool)
  {
    FilterIgnoresOtherKeys(items);
  }

  /** A key made of the prefix and a name holding no copy of the prefix is
      read as that name. */
  lemma PrefixedNameContributes(name: string, v: string)
    requires !Occurs(name, Prefix)
    ensures Contributes((Prefix + name, v), name)
  {
    LeadingOccurrenceRemoved(Prefix, name);
    RemoveAllWithoutOccurrence(name, Prefix);
  }

  /** The documented keys are read as the four options. */
  lemma DocumentedKeys(v: string)
    ensures Contributes(("cachebust.enabled", v), "enabled")
    ensures Contributes(("cachebust.reload_files", v), "reload_files")
    ensures Contributes(("cachebust.method", v), "method")
    ensures Contributes(("cachebust.param_key", v), "param_key")
  {
    forall i | 0 <= i <= 2 ensures !OccursAt("reload_files", Prefix, i) {
      assert "reload_files"[i] != 'c';
    }
    assert Prefix + "enabled" == "cachebust.enabled";
    assert Prefix + "reload_files" == "cachebust.reload_files";
    assert Prefix + "method" == "cachebust.method";
    assert Prefix + "param_key" == "cachebust.param_key";
    PrefixedNameContributes("enabled", v);
    PrefixedNameContributes("reload_files", v);
    PrefixedNameContributes("method", v);
    PrefixedNameContributes("param_key", v);
  }

  /** A copy of the prefix inside a key is removed too:
      `cachebust.foo.cachebust.bar` is read as `foo.bar`. */
  lemma InnerPrefixRemoved()
    ensures Contributes(("cachebust.foo.cachebust.bar", ""), "foo.bar")
  {
    var head := "foo.cachebust";
    assert head == "foo." + Prefix[..|Prefix| - 1];
    forall i | 0 <= i <= 3 ensures !OccursAt(head, Prefix, i) {
      assert head[i] != 'c';
    }
    FirstOccurrenceRemoved("foo.", Prefix, "bar");
    RemoveAllWithoutOccurrence("bar", Prefix);
    assert "cachebust.foo.cachebust.bar" == Prefix + ("foo." + Prefix + "bar");
    LeadingOccurrenceRemoved(Prefix, "foo." + Prefix + "bar");
  }

  /** Because `replace` removes every copy of the prefix, a doubled prefix
      is read as the same option as the single one, and whichever of the two
      entries `settings.items()` yields later wins (the later-inserted one
      only where dicts iterate in insertion order, from Python 3.7). */
  lemma DoubledPrefixCollides(name: string, v: string)
    requires !Occurs(name, Prefix)
    ensures Contributes((Prefix + Prefix + name, v), name)
  {
    assert Prefix + Prefix + name == Prefix + (Prefix + name);
    LeadingOccurrenceRemoved(Prefix, Prefix + name);
    PrefixedNameContributes(name, v);
  }
}
