/**
 * `getProviderUrl`: maps a version token (a channel name, `local`, an absolute
 * URL or a release number) to the URL of the provider's manifest, carrying the
 * query string of the manifest's existing `manifestUrl`, and remembers the
 * first URL it resolves for the rest of the process.
 */
module ProviderUrl {
  import opened Wrappers
  import opened Strings
  import opened SemverPattern

  /**
   * What the resolver reads from outside: the project's `PORT` (already
   * formatted as text) and `CDN_LOCATION`, and whether the demo
   * (`res/demo/provider.json`) and testing (`res/test/provider.json`)
   * provider manifests exist under the project root.
   */
  datatype Env = Env(port: string, cdnLocation: string, demoProviderExists: bool, testProviderExists: bool)

  /** The message of the error thrown for a token no rule accepts. */
  function InvalidVersionMessage(version: string): string {
    "Not a valid version number or channel: " + version
  }

  /**
   * The query string carried over from `manifestUrl`. As written in the source,
   * `(manifestUrl && manifestUrl.indexOf('?')) || -1` turns a `?` found at
   * index 0 into -1 as well, so such a query is dropped.
   */
  function Query(manifestUrl: Option<string>): (q: string)
    ensures manifestUrl.None? ==> q == ""
    ensures manifestUrl.Some? ==>
              var m := manifestUrl.value;
              (q == "" <==> '?' !in m || m[0] == '?')
    ensures q != "" ==>
              var m := manifestUrl.value;
              && |q| < |m| && q[0] == '?'
              && m == m[..|m| - |q|] + q
              && '?' !in m[..|m| - |q|]
  {
    IndexOfChar(if manifestUrl.Some? then manifestUrl.value else "", '?');
    var index :=
      if !Truthy(manifestUrl) then -1
      else
        var i := IndexOf(manifestUrl.value, "?");
        if i == 0 then -1 else i;
    if Truthy(manifestUrl) && index >= 0 then manifestUrl.value[index..] else ""
  }

  /** `version.indexOf('://') > 0`: the first `://` in the token is not at its start. */
  ghost predicate IsAbsoluteUrl(version: string) {
    && !OccursAt(version, "://", 0)
    && exists k :: 0 < k && OccursAt(version, "://", k)
  }

  /** The named tokens, tried before the URL and version rules. */
  predicate IsChannel(version: string) {
    version == "local" || version == "stable" || version == "staging" || version == "testing"
  }

  /** Some rule of the resolver accepts the token. */
  ghost predicate Recognised(version: string) {
    IsChannel(version) || IsAbsoluteUrl(version) || HasSemver(version)
  }

  /** The localhost manifest used by `local` and `testing` when their own file is missing. */
  function LocalProviderUrl(env: Env): string {
    "http://localhost:" + env.port + "/provider/app.json"
  }

  /**
   * One uncached resolution: the rules are tried in the order `local`,
   * `stable`, `staging`, `testing`, absolute URL, release number; a token no
   * rule accepts is an error that names it.
   */
  function Resolve(env: Env, version: string, manifestUrl: Option<string>): (r: Result<string, string>)
    ensures r.Ok? <==> Recognised(version)
    ensures r.Err? ==> r.error == InvalidVersionMessage(version)
    ensures r.Ok? ==> r.value != ""
  {
    TestSemverIsRegex(version);
    var query := Query(manifestUrl);
    if version == "local" then
      if env.demoProviderExists then Ok("http://localhost:" + env.port + "/demo/provider.json" + query)
      else Ok(LocalProviderUrl(env) + query)
    else if version == "stable" then
      Ok(env.cdnLocation + "/app.json" + query)
    else if version == "staging" then
      Ok(env.cdnLocation + "/app.staging.json" + query)
    else if version == "testing" then
      if env.testProviderExists then Ok("http://localhost:" + env.port + "/test/provider.json" + query)
      else Ok(LocalProviderUrl(env) + query)
    else if IndexOf(version, "://") > 0 then
      Ok(version)
    else if TestSemver(version) then
      Ok(env.cdnLocation + "/" + version + "/app.json" + query)
    else
      Err(InvalidVersionMessage(version))
  }

  /** The fixed mapping of the four named tokens. */
  lemma ResolveChannels(env: Env, manifestUrl: Option<string>)
    ensures var q := Query(manifestUrl);
      && Resolve(env, "local", manifestUrl)
         == Ok((if env.demoProviderExists then "http://localhost:" + env.port + "/demo/provider.json"
                else LocalProviderUrl(env)) + q)
      && Resolve(env, "stable", manifestUrl) == Ok(env.cdnLocation + "/app.json" + q)
      && Resolve(env, "staging", manifestUrl) == Ok(env.cdnLocation + "/app.staging.json" + q)
      && Resolve(env, "testing", manifestUrl)
         == Ok((if env.testProviderExists then "http://localhost:" + env.port + "/test/provider.json"
                else LocalProviderUrl(env)) + q)
  {
  }

  /**
   * An absolute URL is returned verbatim: the query of `manifestUrl` is not
   * appended, so the result does not depend on `manifestUrl` at all, and the
   * URL rule wins over the release-number rule.
   */
  lemma ResolveAbsoluteUrl(env: Env, version: string, m1: Option<string>, m2: Option<string>)
    requires !IsChannel(version) && IsAbsoluteUrl(version)
    ensures Resolve(env, version, m1) == Resolve(env, version, m2) == Ok(version)
  {
  }

  /** A token that is neither a channel nor a URL but holds a release number maps onto the CDN. */
  lemma ResolveRelease(env: Env, version: string, manifestUrl: Option<string>)
    requires !IsChannel(version) && !IsAbsoluteUrl(version) && HasSemver(version)
    ensures Resolve(env, version, manifestUrl)
            == Ok(env.cdnLocation + "/" + version + "/app.json" + Query(manifestUrl))
  {
  }

  /** A `?` after the first character, with none before it, starts the carried query. */
  lemma QueryFromFirstMark(m: string, k: int)
    requires 0 < k < |m| && m[k] == '?' && '?' !in m[..k]
    ensures Query(Some(m)) == m[k..]
  {
  }

  /** The query at index 0 is dropped; one after the start is kept. */
  lemma QueryExamples()
    ensures Query(Some("?a=1")) == ""
    ensures Query(Some("x?a=1")) == "?a=1"
  {
    QueryFromFirstMark("x?a=1", 1);
  }

  /** A token without a colon cannot be an absolute URL. */
  lemma NoColonNoUrl(version: string)
    requires ':' !in version
    ensures !IsAbsoluteUrl(version)
  {
    forall k | 0 <= k ensures !OccursAt(version, "://", k) {
      if k + 3 <= |version| {
        assert version[k..k + 3][0] == version[k];
      }
    }
  }

  /** The query of the sample manifest URL is `?foo=bar`. */
  lemma QueryCarriedExample()
    ensures Query(Some("https://x/y?foo=bar")) == "?foo=bar"
  {
    assert "https://x/y?foo=bar"[..11] == "https://x/y";
    QueryFromFirstMark("https://x/y?foo=bar", 11);
  }

  /** A word with neither a colon nor a digit that names no channel is rejected. */
  lemma ResolveRejectsWords(env: Env, version: string, manifestUrl: Option<string>)
    requires !IsChannel(version) && ':' !in version
    requires forall k :: 0 <= k < |version| ==> !IsDigit(version[k])
    ensures Resolve(env, version, manifestUrl) == Err(InvalidVersionMessage(version))
  {
    NoColonNoUrl(version);
  }

  /** The state of the process-wide cache: empty, or a URL resolved earlier. */
  type Cache = Option<string>

  /** The answer of one call together with the cache it leaves behind. */
  datatype Outcome = Outcome(result: Result<string, string>, cache: Cache)

  /**
   * One call of `getProviderUrl`: a truthy cached URL is returned whatever the
   * arguments; otherwise the token is resolved and a successful result is cached.
   */
  function Step(env: Env, cache: Cache, version: string, manifestUrl: Option<string>): (o: Outcome)
    ensures Truthy(cache) ==> o == Outcome(Ok(cache.value), cache)
    ensures !Truthy(cache) ==> o.result == Resolve(env, version, manifestUrl)
    ensures o.result.Ok? ==> o.cache == Some(o.result.value) && o.result.value != ""
    ensures o.result.Err? ==> o.cache == cache && o.result.error == InvalidVersionMessage(version)
  {
    if Truthy(cache) then Outcome(Ok(cache.value), cache)
    else
      var r := Resolve(env, version, manifestUrl);
      Outcome(r, if r.Ok? then Some(r.value) else cache)
  }

  /** The arguments of one call. */
  datatype Call = Call(version: string, manifestUrl: Option<string>)

  /** The answers to a sequence of calls made one after another in one process. */
  function Run(env: Env, cache: Cache, calls: seq<Call>): (rs: seq<Result<string, string>>)
    ensures |rs| == |calls|
    ensures forall i :: 0 <= i < |rs| ==> rs[i].Ok? || rs[i].error == InvalidVersionMessage(calls[i].version)
    decreases |calls|
  {
    if calls == [] then []
    else
      var o := Step(env, cache, calls[0].version, calls[0].manifestUrl);
      [o.result] + Run(env, o.cache, calls[1..])
  }

  /** The first answer of a run comes from one step; the others from the run after it. */
  lemma RunUnfold(env: Env, cache: Cache, calls: seq<Call>)
    requires calls != []
    ensures var o := Step(env, cache, calls[0].version, calls[0].manifestUrl);
            var rs, rest := Run(env, cache, calls), Run(env, o.cache, calls[1..]);
            rs[0] == o.result && forall k :: 1 <= k < |calls| ==> rs[k] == rest[k - 1]
  {
  }

  /** Once the cache holds a URL, every later call answers with it. */
  lemma {:induction false} RunFromFullCache(env: Env, cache: Cache, calls: seq<Call>)
    requires Truthy(cache)
    ensures forall i :: 0 <= i < |calls| ==> Run(env, cache, calls)[i] == Ok(cache.value)
    decreases |calls|
  {
    if calls != [] {
      RunUnfold(env, cache, calls);
      RunFromFullCache(env, cache, calls[1..]);
    }
  }

  /**
   * Memoization across a whole run: after the first successful call, every
   * later call returns the same URL, whatever its arguments.
   */
  lemma {:induction false} RunOnceOnly(env: Env, cache: Cache, calls: seq<Call>, i: int, j: int)
    requires 0 <= i < j < |calls|
    requires Run(env, cache, calls)[i].Ok?
    ensures Run(env, cache, calls)[j] == Run(env, cache, calls)[i]
    decreases |calls|
  {
    var o := Step(env, cache, calls[0].version, calls[0].manifestUrl);
    RunUnfold(env, cache, calls);
    var rs, rest := Run(env, cache, calls), Run(env, o.cache, calls[1..]);
    assert rs[j] == rest[j - 1];
    if i == 0 {
      assert o.result.Ok? && Truthy(o.cache);
      RunFromFullCache(env, o.cache, calls[1..]);
    } else {
      assert rs[i] == rest[i - 1];
      RunOnceOnly(env, o.cache, calls[1..], i - 1, j - 1);
    }
  }

  /** Failed calls before the first success leave an empty cache empty. */
  lemma {:induction false} RunFailuresKeepCacheEmpty(env: Env, calls: seq<Call>, i: int)
    requires 0 <= i < |calls|
    requires forall k :: 0 <= k <= i ==> !Recognised(calls[k].version)
    ensures Run(env, None, calls)[i] == Err(InvalidVersionMessage(calls[i].version))
  {
    RunUnfold(env, None, calls);
    if i > 0 {
      RunFailuresKeepCacheEmpty(env, calls[1..], i - 1);
    }
  }

  /**
   * The module-level `url` variable of the source as an object: one cell,
   * empty until the first successful resolution.
   */
  class Resolver {
    var url: Cache
    const env: Env

    constructor(env: Env)
      ensures url == None && this.env == env
    {
      url := None;
      this.env := env;
    }

    method GetProviderUrl(version: string, manifestUrl: Option<string>) returns (r: Result<string, string>)
      modifies this
      ensures Outcome(r, url) == Step(env, old(url), version, manifestUrl)
    {
      var o := Step(env, url, version, manifestUrl);
      url := o.cache;
      r := o.result;
    }
  }
}
