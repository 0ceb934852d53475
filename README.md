# pyramid_cachebust in Dafny

A model of the cache buster in `pyramid_cachebust`. The package appends a
version token to the URL of a static asset, so a browser fetches the asset
again only when its token changes. The model has two parts.

- **Settings resolution** (`CacheBust.__init__`). Pyramid's registry settings
  are a flat dictionary. Only keys that start with `cachebust.` are kept. Every
  copy of that text is removed from each kept key, because the source uses
  `str.replace`. The booleans `enabled` and `reload_files` are read through
  `asbool`. `param_key` is taken verbatim. `method` is checked against `md5`,
  `mtime` and `init`; any other value raises `InvalidConfig`. An option that is
  missing takes its value from `DEFAULT_CONFIG`.
- **The token cache** (`CacheBust.__call__`). The object keeps a dictionary
  from file name to token.
  - If the buster is disabled, the call returns the base path untouched.
  - On a miss, or on every call when `reload_files` is set, the call resolves
    the asset and computes a token with the selected strategy: an md5 of the
    file's bytes, its mtime string without the last two characters, or the
    construction time. It then stores the token.
  - Otherwise it reuses the cached token.
  - The result is always `path?param_key=token`.

Modules:

- `Wrappers` (wrappers.dfy): `Option` and `Result`.
- `Text` (text.dfy): the Python string operations involved. These are
  `startswith`, `replace(p, '')` as `RemoveAll`, the slice `s[:-2]` as
  `DropLastTwo`, and `str(int)` as `IntToString`.
- `Settings` (settings.dfy): the settings comprehension (`Filter`), method
  parsing, and `Resolve`. `Resolve` is the constructor's logic as a function
  from the settings to a `Config` or an `InvalidConfig`.
- `CacheBusting` (cachebust.dfy): the three strategies (`ComputeToken`, plus
  the chunked read loop `FileHash`) and one call as a specification function
  (`Step`). The class `CacheBust` has the options as constants and `cache`
  as its one mutable field. `Call` is proved equal to `Step`. `Create` is the
  constructor that may raise.

The settings are a sequence of key/value pairs in the order in which
`settings.items()` yields them, not a map. Order matters here:
`cachebust.enabled` and `cachebust.cachebust.enabled` both strip to `enabled`,
and the entry yielded later wins (`DoubledPrefixCollides`,
`FilterKeepsLastSetting`). That order is the insertion order only from
Python 3.7 on; under the Python 2.7 and 3.2 that `setup.py` declares (2.6
cannot parse the dict comprehension), a dict iterates in hash order, and the
winner is whichever key the hash order puts last, which need not be the
later-inserted one.

The collaborators outside the core are passed as values of the datatype `Env`:

- `AssetResolver().resolve(f).abspath()`;
- the bytes read from the opened file;
- `str(stat(p).st_mtime)`;
- the md5 hex digest of a byte sequence.

`None` from any of the first three stands for the exception it would raise;
the digest itself cannot fail, so `md5Hex` is total. A call
receives its own `Env`, so files may change between calls. The base path that
`request.static_path` or `request.static_url` returned is a parameter of
`Call`. `asbool` is a `string -> bool` parameter of `Resolve`. The value of
`int(time())` is a parameter of the constructor; the truncation of the clock's
float to whole seconds happens before it reaches the model.

Behaviour of the code worth knowing:

- `[:-2]` keeps the dot of the mtime string: `"1700000000.123456"` becomes
  `"1700000000.1234"` (`MtimeTruncationExample`).
- The code always appends a literal `?`, so a base path that already has a
  query string ends up with two (`QueryMarkAlwaysAppended`).
- The docstring at `pyramid_cachebust/cachebust.py:72` names a key
  `param_method` with the values `md5, mtime, start`. The code reads `method`
  and accepts `init`.

## Model

| member | source | states |
|---|---|---|
| `Text.StartsWith` | pyramid_cachebust/cachebust.py:83 | `k.startswith(p)` holds exactly when `k` is `p` followed by some rest |
| `Text.RemoveAll` | pyramid_cachebust/cachebust.py:81 | `key.replace('cachebust.', '')` never lengthens the key; what it returns on every key is fixed by `Text.FirstOccurrenceRemoved` and `Text.RemoveAllWithoutOccurrence` |
| `Text.FirstOccurrenceRemoved` | pyramid_cachebust/cachebust.py:81 | `replace` cuts the first copy of the prefix wherever it stands, keeps the text before it and goes on after it; with `RemoveAllWithoutOccurrence` this fixes the result on every key |
| `Text.RemoveAllWithoutOccurrence` | pyramid_cachebust/cachebust.py:81 | `replace` leaves a string with no copy of the prefix unchanged |
| `Text.LeadingOccurrenceRemoved` | pyramid_cachebust/cachebust.py:81-83 | a key that starts with the prefix loses it, and the scan continues after it |
| `Text.RemoveAllLosesWholeCopies` | pyramid_cachebust/cachebust.py:81 | only whole copies of the prefix are removed: the length lost is a multiple of its length |
| `Text.DropLastTwo` | pyramid_cachebust/cachebust.py:192 | `[:-2]` keeps everything except the last two characters, and gives the empty string for strings shorter than two |
| `Text.NatToString` | pyramid_cachebust/cachebust.py:145-148 | `%s` of a natural number is a non-empty string of digits; `NatToStringRoundTrip` gives its value |
| `Text.IntToString` | pyramid_cachebust/cachebust.py:145-148 | `%s` of an integer is non-empty and starts with `-` exactly when the integer is negative; `IntToStringInjective` shows it determines the integer |
| `Text.NatToStringRoundTrip` | pyramid_cachebust/cachebust.py:145-148 | `%s` of a natural number is a canonical decimal numeral that reads back as the number |
| `Text.IntToStringInjective` | pyramid_cachebust/cachebust.py:145-148 | distinct integers render as distinct strings |
| `Settings.ParseMethod` | pyramid_cachebust/cachebust.py:104 | a method value is accepted exactly when it is `md5`, `mtime` or `init`, and an accepted value is kept verbatim |
| `Settings.ParseMethodName` | pyramid_cachebust/cachebust.py:104-108 | every strategy is accepted under its own name |
| `Settings.FilterKeys` | pyramid_cachebust/cachebust.py:80-84 | the comprehension's keys are exactly the stripped keys of the `cachebust.` entries |
| `Settings.Filter` | pyramid_cachebust/cachebust.py:80-84 | the comprehension over `settings.items()`; `FilterKeys` gives its keys, `FilterKeepsLastSetting` and `FilterValue` its values |
| `Settings.FilterKeepsLastSetting` | pyramid_cachebust/cachebust.py:80-84 | the filtered settings hold a name exactly when some `cachebust.` key strips to it, with the value of the last such key |
| `Settings.FilterValue` | pyramid_cachebust/cachebust.py:80-84 | the filtered value of an option is the value of its last entry |
| `Settings.FilterIgnoresOtherKeys` | pyramid_cachebust/cachebust.py:83 | keys outside the `cachebust.` namespace do not affect the filtered settings |
| `Settings.ResolveIgnoresOtherKeys` | pyramid_cachebust/cachebust.py:80-110 | the resolved configuration (or error) depends only on the `cachebust.` keys |
| `Settings.Namespaced` | pyramid_cachebust/cachebust.py:83 | the `if k.startswith('cachebust.')` filter keeps exactly the entries with a namespaced key, and no more entries than it was given |
| `Settings.NamespacedKeepsOrder` | pyramid_cachebust/cachebust.py:82-83 | the filter keeps the relative order of the entries: filtering a concatenation concatenates the filtered parts |
| `Settings.Resolve` | pyramid_cachebust/cachebust.py:86-110 | an error is always `InvalidConfig` with the message of line 106; `AbsentSettingsTakeDefaults`, `InvalidMethodRejected` and `PresentSettingsRead` state each option in terms of the raw settings |
| `Settings.AbsentSettingsTakeDefaults` | pyramid_cachebust/cachebust.py:11-16 | a missing option takes its `DEFAULT_CONFIG` value: `enabled` true, `reload_files` false, `method` md5 (and then no error), `param_key` `_` |
| `Settings.InvalidMethodRejected` | pyramid_cachebust/cachebust.py:100-107 | construction fails, with the `InvalidConfig` message, exactly when the last `method` entry is not one of the three names |
| `Settings.PresentSettingsRead` | pyramid_cachebust/cachebust.py:86-110 | a present option comes from its last entry: the booleans through `asbool`, `param_key` and `method` verbatim |
| `Settings.PrefixedNameContributes` | pyramid_cachebust/cachebust.py:80-84 | `cachebust.` followed by a name with no copy of the prefix is read as that name |
| `Settings.DocumentedKeys` | pyramid_cachebust/cachebust.py:87-101 | `cachebust.enabled`, `cachebust.reload_files`, `cachebust.method` and `cachebust.param_key` are read as the four options |
| `Settings.InnerPrefixRemoved` | pyramid_cachebust/cachebust.py:80-83 | a copy of the prefix inside a key is removed as well: `cachebust.foo.cachebust.bar` is read as `foo.bar` |
| `Settings.DoubledPrefixCollides` | pyramid_cachebust/cachebust.py:81 | because every copy is removed, `cachebust.cachebust.<name>` is also read as `<name>` |
| `CacheBusting.FileHash` | pyramid_cachebust/cachebust.py:172-180 | the chunked read loop feeds the digest the whole file, in order, and returns the digest of its contents |
| `CacheBusting.Render` | pyramid_cachebust/cachebust.py:145-148 | `%s` of a token: a string token unchanged, an integer token as a non-empty numeral signed exactly when negative |
| `CacheBusting.TokenFits` | pyramid_cachebust/cachebust.py:137-143 | what a strategy can store: the construction time under `init`, a string otherwise; kept by `ComputeToken` and `StepKeepsCacheFit` |
| `CacheBusting.ComputeToken` | pyramid_cachebust/cachebust.py:135-192 | a computed token fits the strategy; a resolution failure is an `AssetError` for the file under every strategy; under `md5` a file that cannot be opened, and under `mtime` one that cannot be stat'ed, is an `IOError` for its absolute path; under `init` a resolved file gets the construction time |
| `CacheBusting.Busted` | pyramid_cachebust/cachebust.py:145-149 | the URL is the base path, `?`, the parameter key, `=` and the rendered token, in that order and nothing else |
| `CacheBusting.Step` | pyramid_cachebust/cachebust.py:131-149 | one call adds at most the called file to the cache, keeps every other entry, and a successful enabled call returns the URL for the token now cached for the file |
| `CacheBusting.CacheFits` | pyramid_cachebust/cachebust.py:112-143 | every cached token fits the strategy; preserved by `StepKeepsCacheFit`, used by `InitTokensAgree` |
| `CacheBusting.CacheBust.Valid` | pyramid_cachebust/cachebust.py:112-143 | the object's cache fits its strategy and construction time; established by the constructor, kept by `Call` |
| `CacheBusting.DisabledPassesThrough` | pyramid_cachebust/cachebust.py:131-132 | when disabled, the call returns exactly the base path and leaves the cache unchanged, whatever the files are |
| `CacheBusting.CacheHitReusesToken` | pyramid_cachebust/cachebust.py:134-149 | a cached file without `reload_files` gets `path?key=` plus its cached token, the cache is unchanged, and the outcome does not depend on the collaborators |
| `CacheBusting.MissStoresToken` | pyramid_cachebust/cachebust.py:134-149 | on a miss or a reload the fresh token is stored for the file and used in the URL; every other entry is kept |
| `CacheBusting.FailureLeavesCache` | pyramid_cachebust/cachebust.py:135-143 | a resolution or I/O error propagates and leaves the cache as it was |
| `CacheBusting.RepeatedCallIdempotent` | pyramid_cachebust/cachebust.py:134-149 | without `reload_files`, calling again for the same file returns the same result and cache, even after the file changed |
| `CacheBusting.ReloadIgnoresCache` | pyramid_cachebust/cachebust.py:134 | with `reload_files`, the result does not depend on what was cached |
| `CacheBusting.QueryMarkAlwaysAppended` | pyramid_cachebust/cachebust.py:145-149 | the URL starts with the base path followed by a literal `?`, even when the path already contains one |
| `CacheBusting.StepKeepsCacheFit` | pyramid_cachebust/cachebust.py:137-143 | every cached token fits the strategy: the construction time under `init`, a string otherwise |
| `CacheBusting.InitTokensAgree` | pyramid_cachebust/cachebust.py:137-143 | under `init` every cached file renders the same token, the construction time |
| `CacheBusting.InitTokensDifferAcrossStarts` | pyramid_cachebust/cachebust.py:113 | distinct `int(time())` values render as distinct tokens (two busters built within the same second share one) |
| `CacheBusting.Md5ContentAddressed` | pyramid_cachebust/cachebust.py:162-180 | the md5 token depends only on the file's bytes: two files with equal contents get the same token |
| `CacheBusting.MtimeTokenTruncates` | pyramid_cachebust/cachebust.py:182-192 | the mtime token is the mtime string with its last two characters cut off (truncation, not rounding) |
| `CacheBusting.MtimeTruncationExample` | pyramid_cachebust/cachebust.py:192 | `"1700000000.123456"` becomes `"1700000000.1234"`; the dot is kept |
| `CacheBusting.CacheBust.constructor` | pyramid_cachebust/cachebust.py:86-113 | the object holds the resolved options, the given construction time and an empty cache |
| `CacheBusting.CacheBust.Call` | pyramid_cachebust/cachebust.py:115-149 | one call returns and stores exactly what `Step` prescribes, and keeps the cache-fits invariant |
| `CacheBusting.Create` | pyramid_cachebust/cachebust.py:64-113 | construction raises `InvalidConfig` exactly when resolution fails; otherwise it yields a fresh object with the resolved options and an empty cache |

## Left out

- `pyramid.settings.asbool` is Pyramid code that is not part of this model. It is an arbitrary `string -> bool` parameter.
- Settings values are modelled as strings. A bool or another Python value set programmatically is not modelled.
- `request.static_path` and `request.static_url`, and the `method`/`**kwargs` pass-through that chooses between them, are not modelled. Their result is the `path` parameter of `Call`.
- `AssetResolver`, `open`/`read`, `os.stat` and the float formatting of `st_mtime` are file-system I/O. They are functions in `Env`; `None` stands for their exceptions.
- `hashlib.md5` is foreign cryptography. `md5Hex` is an arbitrary function of the bytes fed to it.
- `CacheBusting.FileHash` assumes each `read(1 << 20)` returns a full chunk until the end of the file, as reads of a regular file do. Shorter reads are not modelled.
- `time()` is a clock read. The value of `int(time())` is a parameter of the constructor and of `Create`; the truncation to whole seconds is absorbed into it, so busters built within the same second get the same `init` token.
- The `for key in ('enabled', 'reload_files')` loop with `setattr` is modelled as `Resolve` followed by one constructor. An object left half-initialised when `InvalidConfig` is raised is never returned to the caller, so it is not modelled.
- Concurrent calls sharing one cache are not modelled. The source takes no lock.
- `pyramid_cachebust/__init__.py` (request-method registration), `pyramid_cachebust/tests.py` and `setup.py` are not part of this model.
