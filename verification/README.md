# Manifest rewriter and provider URL resolver

A Dafny model of two helpers of a build/serve tool for desktop applications:

- `getManifest` reads an application manifest (`app.json`), rejects it unless it
  has a `startup_app`, points the startup application's URL and icons at the
  right host for the build context (the local debug server in `DEBUG`, the CDN
  in `DEPLOY`), redirects the running service's own entry under `services` to
  the requested provider version, and optionally overrides `runtime.version`.
- `getProviderUrl` turns a version token (`local`, `stable`, `staging`,
  `testing`, an absolute URL or a release number such as `1.2.3`) into the URL
  of a provider manifest, carries the query string of the old `manifestUrl`
  over, and caches the first URL it resolves for the rest of the process.

Modules:

- `Wrappers` (`wrappers.dfy`): `Option`, `Result` and JavaScript truthiness of
  an optional string.
- `Strings` (`strings.dfy`): `indexOf`, `replace` with a string pattern (first
  occurrence only) and `split('/')[0]`, each with a characterising contract.
- `SemverPattern` (`semver_pattern.dfy`): the regular expression
  `\d+\.\d+\.\d+` as a reference predicate over spans of the token, and the
  linear scanner the resolver uses, proved to accept exactly the same tokens.
- `ProviderUrl` (`provider_url.dfy`): the uncached resolution `Resolve`, one
  call with the cache (`Step`), a run of calls (`Run`), and the cache cell as a
  class.
- `Manifest` (`manifest.dfy`): the manifest records and `GetManifest`, a pure
  function of the parse result, the project configuration, `replaceUrlParams`
  (a function parameter) and the resolver (a function parameter that threads a
  state, instantiated with the cached resolver in `CachedResolver`).

Behaviours of the code worth knowing:

- The JSDoc of `getProviderUrl` (src/utils/getProviderUrl.ts:13) says that
  querystring arguments of `manifestUrl` are persisted, but the code drops a
  query whose `?` is at index 0: `(manifestUrl && manifestUrl.indexOf('?')) || -1`
  turns index 0 into -1. The model follows the code.
- The absolute-URL rule looks at the first `://` only (`indexOf('://') > 0`):
  a token starting with `://` is not a URL even if it contains a later `://`.
- The cache is tested for truthiness (`if (url)`); the model proves that a
  resolved URL is never empty, so a filled cache is always truthy.
- The startup URL and icons are rewritten only when present and non-empty, and
  `runtime.version` only when the override is non-empty.

## Model

| member | source | states |
|---|---|---|
| Strings.IndexOf | src/utils/getProviderUrl.ts:20 | `indexOf`: the result is an occurrence of the pattern and no earlier index holds one; -1 exactly when none exists |
| Strings.IndexFrom | src/utils/getProviderUrl.ts:46 | the scan behind `indexOf` from a start index finds the first occurrence at or after it, or proves there is none |
| Strings.IndexOfChar | src/utils/getProviderUrl.ts:20 | `indexOf('?')` is negative exactly when `?` is absent, otherwise the position of the first `?` with none before it |
| Strings.ReplaceFirst | src/utils/getManifest.ts:77 | `String.replace` with a string pattern: unchanged without an occurrence, otherwise only the first occurrence replaced |
| Strings.ReplaceFirstSelf | src/utils/getManifest.ts:64 | replacing the CDN location by itself (the `DEPLOY` base URL) leaves any string unchanged |
| Strings.ReplaceFirstLeading | src/utils/getManifest.ts:77 | a string starting with the pattern has exactly that leading copy replaced |
| Strings.FirstSegment | src/utils/getManifest.ts:63 | `configPath.split('/')[0]`: a prefix of the path containing no `/`, followed by `/` or the end |
| Strings.FirstSegmentUnique | src/utils/getManifest.ts:63 | those three properties determine the first segment uniquely |
| SemverPattern.DigitRunEnd | src/utils/getProviderUrl.ts:49 | the end of a digit run: everything before it from the start is a digit, the character there is not |
| SemverPattern.MatchesFrom | src/utils/getProviderUrl.ts:49 | the scanner succeeds from index i exactly when a digit-dot-run-dot-digit match starts at some index at or after i |
| SemverPattern.DigitRunEndExact | src/utils/getProviderUrl.ts:49 | any digit run that stops at a non-digit or the end stops where the scanner says |
| SemverPattern.TestSemver | src/utils/getProviderUrl.ts:49 | the scanner accepts a token exactly when a digit, a dot, a maximal digit run, a dot and a digit start at some index; `TestSemverIsRegex` ties this to the regular expression |
| SemverPattern.TestSemverIsRegex | src/utils/getProviderUrl.ts:49 | the scanner accepts a token exactly when `\d+\.\d+\.\d+` matches some span of it (both directions) |
| ProviderUrl.Query | src/utils/getProviderUrl.ts:20-21 | the carried query is empty exactly when `manifestUrl` is absent, has no `?`, or starts with `?`; otherwise it is the suffix from the first `?` |
| ProviderUrl.QueryFromFirstMark | src/utils/getProviderUrl.ts:20-21 | a first `?` after index 0 starts the carried query |
| ProviderUrl.QueryExamples | src/utils/getProviderUrl.ts:20-21 | `?a=1` carries nothing, `x?a=1` carries `?a=1` |
| ProviderUrl.QueryCarriedExample | src/utils/getProviderUrl.ts:20-21 | `https://x/y?foo=bar` carries `?foo=bar` |
| ProviderUrl.Resolve | src/utils/getProviderUrl.ts:19-54 | a token resolves exactly when it is a channel, an absolute URL or contains a release number; otherwise the error names it; a resolved URL is never empty |
| ProviderUrl.ResolveChannels | src/utils/getProviderUrl.ts:23-45 | `local`/`testing` choose the demo/test manifest when it exists and the local provider otherwise; `stable`/`staging` map onto the CDN; each with the query appended |
| ProviderUrl.ResolveAbsoluteUrl | src/utils/getProviderUrl.ts:46-48 | an absolute URL is returned verbatim whatever `manifestUrl` is, even when it also holds a release number |
| ProviderUrl.ResolveRelease | src/utils/getProviderUrl.ts:49-51 | a release number maps to `CDN/<token>/app.json` plus the query |
| ProviderUrl.NoColonNoUrl | src/utils/getProviderUrl.ts:46 | a token without `:` never takes the absolute-URL rule |
| ProviderUrl.ResolveRejectsWords | src/utils/getProviderUrl.ts:23-54 | a token that is no channel and has neither `:` nor a digit (such as `not-a-version`) is rejected with the message naming it |
| ProviderUrl.Step | src/utils/getProviderUrl.ts:7-54 | a truthy cached URL is returned and kept whatever the arguments; otherwise a success is cached and a failure leaves the cache as it was |
| ProviderUrl.Run | src/utils/getProviderUrl.ts:7-54 | the calls of one process in order: one answer per call, each a URL or the error naming that call's token; the memoization facts about it are `RunFromFullCache`, `RunOnceOnly` and `RunFailuresKeepCacheEmpty` |
| ProviderUrl.RunFromFullCache | src/utils/getProviderUrl.ts:16-18 | from a filled cache every call of a run answers with the cached URL |
| ProviderUrl.RunOnceOnly | src/utils/getProviderUrl.ts:7-54 | after the first successful call of a run, every later call returns the same URL, whatever its arguments |
| ProviderUrl.RunFailuresKeepCacheEmpty | src/utils/getProviderUrl.ts:52-54 | invalid tokens before any success keep failing with their own message: the cache stays empty |
| ProviderUrl.Resolver.constructor | src/utils/getProviderUrl.ts:7 | the module-level `url` starts out empty (`null`) |
| ProviderUrl.Resolver.GetProviderUrl | src/utils/getProviderUrl.ts:15-55 | the module-level cell: one call updates it as `Step` says |
| Manifest.RewriteField | src/utils/getManifest.ts:75-84 | an absent or empty field is returned as it was; a non-empty one becomes `replaceUrlParams` of itself when it holds no CDN reference, and otherwise of itself with only its first CDN reference replaced by the base URL |
| Manifest.RewriteApp | src/utils/getManifest.ts:72-81 | the startup application keeps its `uuid`, `name` and `autoShow`; its URL and icon become the field rewrite of the originals |
| Manifest.RewriteShortcut | src/utils/getManifest.ts:82-84 | a shortcut stays present or absent, and a present one's icon becomes the field rewrite of the original |
| Manifest.RedirectService | src/utils/getManifest.ts:71-88 | with `default` or no service of the project's name the services and resolver state come back unchanged; on success only the first service with that name may have a new `manifestUrl`, names, configs, count and order are kept |
| Manifest.Component | src/utils/getManifest.ts:63 | empty when the project is not a service; otherwise `/` followed by the prefix of `configPath` up to its first `/` (or all of it) |
| Manifest.BaseUrl | src/utils/getManifest.ts:64 | `DEPLOY` gives the CDN location; `DEBUG` gives `http://localhost:<port>` followed by the component |
| Manifest.FindService | src/utils/getManifest.ts:71 | `find` by name: the index of the first service with that name, or none when no service has it |
| Manifest.GetManifest | src/utils/getManifest.ts:60-95 | a missing manifest or one without `startup_app` is an error naming `configPath` and the resolver is not called; a success leaves licence key, app identity, `autoShow`, runtime arguments, field presence, services' count, order, names and configs unchanged, and only the first service with the project's name may get a new `manifestUrl`; without a redirect the call succeeds and the resolver state is untouched |
| Manifest.BaseUrlForContext | src/utils/getManifest.ts:63-64 | `DEPLOY` uses the CDN location; `DEBUG` uses `http://localhost:<port>`, followed for a service by `/` and the first path segment of `configPath` |
| Manifest.RewritesUrlFields | src/utils/getManifest.ts:75-84 | each of the startup URL, startup icon and shortcut icon becomes `replaceUrlParams` of its first CDN reference replaced by the base URL |
| Manifest.DeployOnlyExpands | src/utils/getManifest.ts:64-83 | in `DEPLOY` each non-empty field becomes `replaceUrlParams` of the original |
| Manifest.DebugServesLocally | src/utils/getManifest.ts:63-78 | whenever the load succeeds, in `DEBUG` a startup URL starting with the CDN location gets that prefix replaced by the localhost base URL |
| Manifest.ServicesUntouched | src/utils/getManifest.ts:71-88 | with `default` or no service of the project's name, the services are returned as they were and the resolver is not consulted |
| Manifest.RedirectsFirstMatch | src/utils/getManifest.ts:71-88 | otherwise only the first matching service's `manifestUrl` changes, to the resolver's answer on the requested version and the old `manifestUrl`; a resolver error is the call's error |
| Manifest.OverridesRuntimeVersion | src/utils/getManifest.ts:89-92 | a non-empty override becomes `runtime.version`; an absent or empty one leaves it |
| Manifest.CachedResolver | src/utils/getProviderUrl.ts:15-21 | the cached `getProviderUrl` called at src/utils/getManifest.ts:87, sharing the project's port and CDN location: a filled cache answers with its own URL and is kept; an empty one answers as the uncached resolution |
| Manifest.CachedUrlReused | src/utils/getProviderUrl.ts:16-18 | with the cache filled, the project's service is redirected to the cached URL whatever version is requested, and the cache is unchanged |
| Manifest.SecondLoadReusesFirstUrl | src/utils/getManifest.ts:85-88 | once a first load succeeds, a second load in the same process redirects the project's service to the same provider URL |

## Left out

- Reading the file: `getJsonFileSync(path.resolve('res', configPath))` is the `parsed` parameter (`None` for a missing or unparseable file).
- `getProjectConfig` is the `ProjectConfig` parameter; the numeric `PORT` is already text, its formatting is not modelled.
- `replaceUrlParams` (in `./url`) is a function parameter: src/utils/url.ts is not part of this model.
- `existsSync(join(getRootDirectory(), ...))` for the demo and testing provider manifests are the two booleans of `ProviderUrl.Env`.
- The `$` patterns that JavaScript's `replace` expands in the replacement string: the base URL is taken literally.
- JSON values of the wrong type (a non-string `url`, a missing `runtime` object): the record types follow the TypeScript interfaces, with `url` optional so that an absent one can be expressed.
- The contents of a service's `config`: an opaque pass-through value.
- In-place mutation: `GetManifest` returns the rewritten record; the source mutates and returns the parsed object, which nothing else shares.
- Races on the process-wide cache: the source is single-threaded.
- UTF-16: JavaScript strings are sequences of UTF-16 code units, the model's strings are sequences of Unicode scalar values; the results agree because indices are only compared with 0 or used to find a first occurrence and take a prefix or suffix.
- Other JSON members: the source returns every member of the parsed object it does not touch (for example further `startup_app` keys) unchanged; the records hold only the fields of the TypeScript interfaces, so the frame properties say nothing about other members.
