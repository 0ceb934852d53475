/** The per-file token cache of `CacheBust.__call__`, the three token
    strategies, and the object that owns the cache. */
module CacheBusting {
  import opened Wrappers
  import opened Text
  import opened Settings

  /** A value of `self.cache`: the md5 and mtime strategies store a string,
      the init strategy stores the integer `init_time`. */
  datatype Token = StrToken(text: string) | IntToken(value: int)

  /** `'%s' % token`: a string token as it is, an integer as a decimal
      numeral with a sign only when negative. */
  function Render(t: Token): (r: string)
    ensures t.StrToken? ==> r == t.text
    ensures t.IntToken? ==> |r| >= 1 && (r[0] == '-' <==> t.value < 0)
  {
    match t
    case StrToken(s) => s
    case IntToken(n) => IntToString(n)
  }

  /** The collaborators outside the core, as they stand during one call.
      `None` is the exception the collaborator raises. */
  datatype Env = Env(
    resolveAsset: string -> Option<string>,  // AssetResolver().resolve(f).abspath()
    readFile: string -> Option<seq<bv8>>,    // the bytes `open(path, 'rb')` yields
    statMtime: string -> Option<string>,     // str(stat(path).st_mtime)
    md5Hex: seq<bv8> -> string)              // hexdigest() of an md5 fed these bytes

  /** The exceptions a call lets through. */
  datatype Failure = AssetError(filename: string) | IOError(path: string)

  /** The read size of `_get_file_hash`, `1 << 20`. */
  const ChunkSize: nat := 0x10_0000

  /** `_get_file_hash` once the file is open: read chunks until a read comes
      back empty and feed each one to the digest, so the digest sees the whole
      file in order. `fed` is the accumulated input of the md5 object. */
  method FileHash(contents: seq<bv8>, md5Hex: seq<bv8> -> string) returns (digest: string)
    ensures digest == md5Hex(contents)
  {
    var fed: seq<bv8> := [];
    var pos := 0;
    while true
      invariant 0 <= pos <= |contents|
      invariant fed == contents[..pos]
      decreases |contents| - pos
    {
      var end := if pos + ChunkSize <= |contents| then pos + ChunkSize else |contents|;
      var chunk := contents[pos..end];
      if chunk == [] {
        break;
      }
      fed := fed + chunk;
      pos := end;
    }
    assert fed == contents;
    digest := md5Hex(fed);
  }

  /** A cached token is one the configured strategy can produce: under
      `init` it is the construction time itself, otherwise a string. */
  predicate TokenFits(strategy: Method, initTime: int, t: Token) {
    if strategy == Init then t == IntToken(initTime) else t.StrToken?
  }

  /** The token the selected strategy computes for `filename`. The asset is
      resolved first whatever the strategy, so a resolution error surfaces
      even under `init`. */
  function ComputeToken(strategy: Method, initTime: int, filename: string, env: Env): (r: Result<Token, Failure>)
    ensures r.Ok? ==> TokenFits(strategy, initTime, r.value)
    ensures env.resolveAsset(filename).None? ==> r == Err(AssetError(filename))
    ensures strategy == Init && env.resolveAsset(filename).Some? ==> r == Ok(IntToken(initTime))
    ensures (env.resolveAsset(filename).Some? && strategy == Md5 &&
             env.readFile(env.resolveAsset(filename).value).None?) ==>
      r == Err(IOError(env.resolveAsset(filename).value))
    ensures (env.resolveAsset(filename).Some? && strategy == Mtime &&
             env.statMtime(env.resolveAsset(filename).value).None?) ==>
      r == Err(IOError(env.resolveAsset(filename).value))
  {
    match env.resolveAsset(filename)
    case None => Err(AssetError(filename))
    case Some(abspath) =>
      match strategy
      case Md5 =>
        (match env.readFile(abspath)
         case None => Err(IOError(abspath))
         case Some(bytes) => Ok(StrToken(env.md5Hex(bytes))))
      case Mtime =>
        (match env.statMtime(abspath)
         case None => Err(IOError(abspath))
         case Some(m) => Ok(StrToken(DropLastTwo(m))))
      case Init => Ok(IntToken(initTime))
  }

  /** `'%s?%s=%s' % (path, param_key, token)`. */
  function Busted(path: string, paramKey: string, t: Token): (r: string)
    ensures |r| == |path| + 1 + |paramKey| + 1 + |Render(t)|
    ensures r[..|path|] == path && r[|path|] == '?'
    ensures r[|path| + 1..|path| + 1 + |paramKey|] == paramKey && r[|path| + 1 + |paramKey|] == '='
    ensures r[|r| - |Render(t)|..] == Render(t)
  {
    path + "?" + paramKey + "=" + Render(t)
  }

  /** One call of `__call__`: its result and the cache afterwards. */
  function Step(c: Config, initTime: int, cache: map<string, Token>, filename: string, path: string, env: Env)
    : (out: (Result<string, Failure>, map<string, Token>))
    ensures out.1.Keys <= cache.Keys + {filename}
    ensures forall g :: g != filename && g in cache ==> g in out.1 && out.1[g] == cache[g]
    ensures c.enabled && out.0.Ok? ==> filename in out.1 && out.0 == Ok(Busted(path, c.paramKey, out.1[filename]))
  {
    if !c.enabled then (Ok(path), cache)
    else if filename !in cache || c.reloadFiles then
      match ComputeToken(c.strategy, initTime, filename, env)
      case Err(e) => (Err(e), cache)
      case Ok(t) => (Ok(Busted(path, c.paramKey, t)), cache[filename := t])
    else (Ok(Busted(path, c.paramKey, cache[filename])), cache)
  }

  ghost predicate CacheFits(strategy: Method, initTime: int, cache: map<string, Token>) {
    forall f :: f in cache ==> TokenFits(strategy, initTime, cache[f])
  }

  /** Disabled: the base path comes back untouched and the cache is not
      looked at, whatever the files are. */
  lemma DisabledPassesThrough(c: Config, initTime: int, cache: map<string, Token>, filename: string, path: string, env: Env)
    requires !c.enabled
    ensures Step(c, initTime, cache, filename, path, env) == (Ok(path), cache)
  {
  }

  /** A cached file without `reload_files`: the cached token is used, the
      cache is unchanged, and no collaborator is consulted (the outcome is
      the same under any other environment). */
  lemma CacheHitReusesToken(c: Config, initTime: int, cache: map<string, Token>, filename: string, path: string, env: Env, other: Env)
    requires c.enabled && filename in cache && !c.reloadFiles
    ensures Step(c, initTime, cache, filename, path, env) == (Ok(path + "?" + c.paramKey + "=" + Render(cache[filename])), cache)
    ensures Step(c, initTime, cache, filename, path, other) == Step(c, initTime, cache, filename, path, env)
  {
  }

  /** A miss, or any call under `reload_files`: the fresh token is stored
      for this file, returned in the URL, and every other entry is kept. */
  lemma MissStoresToken(c: Config, initTime: int, cache: map<string, Token>, filename: string, path: string, env: Env, t: Token)
    requires c.enabled && (filename !in cache || c.reloadFiles)
    requires ComputeToken(c.strategy, initTime, filename, env) == Ok(t)
    ensures var (r, after) := Step(c, initTime, cache, filename, path, env);
      r == Ok(path + "?" + c.paramKey + "=" + Render(t)) &&
      filename in after && after[filename] == t &&
      (forall g :: g != filename ==> (g in after <==> g in cache)) &&
      (forall g :: g != filename && g in cache ==> after[g] == cache[g])
  {
  }

  /** A failing collaborator: the exception propagates and the cache is not
      touched, since the entry is assigned only once a token exists. */
  lemma FailureLeavesCache(c: Config, initTime: int, cache: map<string, Token>, filename: string, path: string, env: Env)
    requires c.enabled && (filename !in cache || c.reloadFiles)
    requires ComputeToken(c.strategy, initTime, filename, env).Err?
    ensures Step(c, initTime, cache, filename, path, env) == (Err(ComputeToken(c.strategy, initTime, filename, env).error), cache)
  {
  }

  /** Without `reload_files` a successful call is idempotent: calling again
      for the same file, even after the file changed, gives the same URL and
      leaves the cache as it is. */
  lemma RepeatedCallIdempotent(c: Config, initTime: int, cache: map<string, Token>, filename: string, path: string, env: Env, later: Env)
    requires !c.reloadFiles
    requires Step(c, initTime, cache, filename, path, env).0.Ok?
    ensures var (r, after) := Step(c, initTime, cache, filename, path, env);
      Step(c, initTime, after, filename, path, later) == (r, after)
  {
  }

  /** Under `reload_files` the cache never decides the outcome: the token
      is recomputed from the current files on every call. */
  lemma ReloadIgnoresCache(c: Config, initTime: int, cache: map<string, Token>, other: map<string, Token>, filename: string, path: string, env: Env)
    requires c.reloadFiles
    ensures Step(c, initTime, cache, filename, path, env).0 == Step(c, initTime, other, filename, path, env).0
  {
  }

  /** The query parameter is always introduced by a literal `?`, also when
      the base path already carries a query string, so such a path ends up
      with two. */
  lemma QueryMarkAlwaysAppended(path: string, paramKey: string, t: Token, i: int)
    requires 0 <= i < |path| && path[i] == '?'
    ensures var url := Busted(path, paramKey, t);
      url[..|path|] == path && url[i] == '?' && url[|path|] == '?' && i != |path|
  {
  }

  /** Every token stored fits the strategy, so the invariant is kept. */
  lemma StepKeepsCacheFit(c: Config, initTime: int, cache: map<string, Token>, filename: string, path: string, env: Env)
    requires CacheFits(c.strategy, initTime, cache)
    ensures CacheFits(c.strategy, initTime, Step(c, initTime, cache, filename, path, env).1)
  {
    var after := Step(c, initTime, cache, filename, path, env).1;
    if c.enabled && (filename !in cache || c.reloadFiles) && ComputeToken(c.strategy, initTime, filename, env).Ok? {
      assert TokenFits(c.strategy, initTime, ComputeToken(c.strategy, initTime, filename, env).value);
    }
  }

  /** Under `init` every file carries the same token, the construction
      time. */
  lemma InitTokensAgree(initTime: int, cache: map<string, Token>, f: string, g: string)
    requires CacheFits(Init, initTime, cache)
    requires f in cache && g in cache
    ensures Render(cache[f]) == Render(cache[g]) == IntToString(initTime)
  {
    assert TokenFits(Init, initTime, cache[f]) && TokenFits(Init, initTime, cache[g]);
  }

  /** Two cache busters whose constructors saw different `int(time())`
      values hand out different `init` tokens; two built within the same
      second share one. */
  lemma InitTokensDifferAcrossStarts(a: int, b: int)
    requires a != b
    ensures Render(IntToken(a)) != Render(IntToken(b))
  {
    if Render(IntToken(a)) == Render(IntToken(b)) {
      IntToStringInjective(a, b);
    }
  }

  /** The md5 token depends on the file's bytes only: two files with the
      same contents get the same token. */
  lemma Md5ContentAddressed(initTime: int, f: string, g: string, env: Env)
    requires env.resolveAsset(f).Some? && env.resolveAsset(g).Some?
    requires env.readFile(env.resolveAsset(f).value) == env.readFile(env.resolveAsset(g).value)
    requires env.readFile(env.resolveAsset(f).value).Some?
    ensures ComputeToken(Md5, initTime, f, env) == ComputeToken(Md5, initTime, g, env)
      == Ok(StrToken(env.md5Hex(env.readFile(env.resolveAsset(f).value).value)))
  {
  }

  /** The mtime token is the stringified mtime without its last two
      characters: truncated, not rounded. */
  lemma MtimeTokenTruncates(initTime: int, f: string, env: Env)
    requires env.resolveAsset(f).Some? && env.statMtime(env.resolveAsset(f).value).Some?
    ensures var m := env.statMtime(env.resolveAsset(f).value).value;
      var t := ComputeToken(Mtime, initTime, f, env);
      t.Ok? && t.value.StrToken? &&
      (|m| >= 2 ==> t.value.text + m[|m| - 2..] == m) && (|m| < 2 ==> t.value.text == [])
  {
  }

  /** A concrete mtime string loses its last two digits and keeps its dot. */
  lemma MtimeTruncationExample()
    ensures DropLastTwo("1700000000.123456") == "1700000000.1234"
  {
  }

  /** The object of `CacheBust`: its options are fixed at construction and
      only `cache` changes afterwards. */
  class CacheBust {
    const enabled: bool
    const reloadFiles: bool
    const strategy: Method
    const paramKey: string
    const initTime: int
    var cache: map<string, Token>

    function Options(): Config {
      Config(enabled, reloadFiles, strategy, paramKey)
    }

    ghost predicate Valid()
      reads this
    {
      CacheFits(strategy, initTime, cache)
    }

    /** The options of a resolved configuration, an empty cache, and the
        construction time `initTime` (the source's `int(time())`). */
    constructor (config: Config, initTime: int)
      ensures Valid()
      ensures Options() == config && this.initTime == initTime && cache == map[]
    {
      enabled := config.enabled;
      reloadFiles := config.reloadFiles;
      strategy := config.strategy;
      paramKey := config.paramKey;
      this.initTime := initTime;
      cache := map[];
    }

    /** `__call__` for a file whose base path the request already produced. */
    method Call(filename: string, path: string, env: Env) returns (r: Result<string, Failure>)
      requires Valid()
      modifies this
      ensures Valid()
      ensures (r, cache) == Step(Options(), initTime, old(cache), filename, path, env)
    {
      if !enabled {
        return Ok(path);
      }
      if filename !in cache || reloadFiles {
        var abspath := env.resolveAsset(filename);
        if abspath.None? {
          return Err(AssetError(filename));
        }
        var token: Token;
        match strategy {
        case Md5 =>
          var bytes := env.readFile(abspath.value);
          if bytes.None? {
            return Err(IOError(abspath.value));
          }
          var digest := FileHash(bytes.value, env.md5Hex);
          token := StrToken(digest);
        case Mtime =>
          var m := env.statMtime(abspath.value);
          if m.None? {
            return Err(IOError(abspath.value));
          }
          token := StrToken(DropLastTwo(m.value));
        case Init =>
          token := IntToken(initTime);
        }
        cache := cache[filename := token];
      }
      r := Ok(path + "?" + paramKey + "=" + Render(cache[filename]));
    }
  }

  /** `CacheBust(settings)`: `InvalidConfig` for a bad `method`, otherwise a
      fresh object holding the resolved options and an empty cache. */
  method Create(settings: seq<(string, string)>, asBool: string -> bool, initTime: int)
    returns (r: Result<CacheBust, InvalidConfig>)
    ensures r.Err? <==> Resolve(settings, asBool).Err?
    ensures r.Err? ==> r.error == Resolve(settings, asBool).error
    ensures r.Ok? ==> fresh(r.value) && r.value.Valid() && r.value.cache == map[]
    ensures r.Ok? ==> r.value.Options() == Resolve(settings, asBool).value && r.value.initTime == initTime
  {
    match Resolve(settings, asBool)
    case Err(e) =>
      r := Err(e);
    case Ok(config) =>
      var cb := new CacheBust(config, initTime);
      r := Ok(cb);
  }
}
