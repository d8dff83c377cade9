/**
 * `getManifest`: validates a parsed application manifest and rewrites it for
 * the build context: CDN references in the startup application's URL and
 * icons point at `baseUrl`, the running service's own provider URL is
 * redirected to the requested version, and the runtime version may be
 * overridden. Everything else is passed through.
 */
module Manifest {
  import opened Wrappers
  import opened Strings
  import ProviderUrl

  datatype StartupApp = StartupApp(
    uuid: string,
    name: string,
    url: Option<string>,
    autoShow: Option<bool>,
    icon: Option<string>)

  datatype Shortcut = Shortcut(icon: Option<string>)

  datatype Runtime = Runtime(arguments: Option<string>, version: string)

  /** A service's `config` object: never inspected, only passed through. */
  datatype Payload = Payload(json: string)

  datatype ServiceDeclaration = ServiceDeclaration(
    name: string,
    manifestUrl: Option<string>,
    config: Option<Payload>)

  /** The parsed `app.json`; `startupApp` is optional because a parsed file may lack it. */
  datatype ManifestFile = ManifestFile(
    licenseKey: string,
    startupApp: Option<StartupApp>,
    shortcut: Option<Shortcut>,
    runtime: Runtime,
    services: Option<seq<ServiceDeclaration>>)

  /** `DEBUG`: served by the local debug server; `DEPLOY`: prepared for upload. */
  datatype RewriteContext = Debug | Deploy

  /** The project configuration fields the rewriter reads; `port` is already text. */
  datatype ProjectConfig = ProjectConfig(port: string, name: string, cdnLocation: string, isService: bool)

  /** The resolver seen from the rewriter: it may read and update a state of type `S`. */
  type Resolver<!S> = (S, string, Option<string>) -> (Result<string, string>, S)

  /** A manifest (or the error that was thrown) and the resolver state after the call. */
  datatype Loaded<S> = Loaded(result: Result<ManifestFile, string>, state: S)

  /** The message thrown for a missing or invalid manifest. */
  function NotAnAppManifest(configPath: string): string {
    configPath + " is not an app manifest"
  }

  /** The parse result is a manifest with a `startup_app`. */
  predicate IsAppManifest(parsed: Option<ManifestFile>) {
    parsed.Some? && parsed.value.startupApp.Some?
  }

  /** The folder a service's manifest lives in (`client`, `provider` or `demo`), as a path prefix. */
  function Component(configPath: string, isService: bool): (c: string)
    ensures !isService ==> c == ""
    ensures isService ==>
              && |c| >= 1 && c[0] == '/'
              && c[1..] <= configPath && '/' !in c[1..]
              && (|c| - 1 == |configPath| || configPath[|c| - 1] == '/')
  {
    if isService then "/" + FirstSegment(configPath) else ""
  }

  /** Where CDN references point after the rewrite. */
  function BaseUrl(context: RewriteContext, project: ProjectConfig, configPath: string): (b: string)
    ensures context == Deploy ==> b == project.cdnLocation
    ensures context == Debug ==>
              var local := "http://localhost:" + project.port;
              && |local| <= |b| && b[..|local|] == local
              && b[|local|..] == Component(configPath, project.isService)
  {
    match context
    case Debug => "http://localhost:" + project.port + Component(configPath, project.isService)
    case Deploy => project.cdnLocation
  }

  /** The rewrite of one string: first CDN reference replaced, then URL parameters expanded. */
  function RewriteUrl(s: string, cdn: string, baseUrl: string, expand: string -> string): string {
    expand(ReplaceFirst(s, cdn, baseUrl))
  }

  /**
   * A present, non-empty field has its first occurrence of `cdn` (if any)
   * replaced by `baseUrl` and is then expanded; an absent or empty one is
   * kept as it is.
   */
  function RewriteField(field: Option<string>, cdn: string, baseUrl: string, expand: string -> string): (r: Option<string>)
    ensures !Truthy(field) ==> r == field
    ensures Truthy(field) ==> r.Some?
    ensures Truthy(field) && (forall k :: !OccursAt(field.value, cdn, k)) ==> r == Some(expand(field.value))
    ensures Truthy(field) ==>
              forall k {:trigger OccursAt(field.value, cdn, k)} ::
                OccursAt(field.value, cdn, k) && (forall j :: 0 <= j < k ==> !OccursAt(field.value, cdn, j)) ==>
                  r == Some(expand(field.value[..k] + baseUrl + field.value[k + |cdn|..]))
  {
    if Truthy(field) then Some(RewriteUrl(field.value, cdn, baseUrl, expand)) else field
  }

  /** `services.find(s => s.name === name)`, as the index of the first match. */
  function FindService(services: seq<ServiceDeclaration>, name: string): (found: Option<nat>)
    ensures found.Some? ==>
              && found.value < |services| && services[found.value].name == name
              && forall j :: 0 <= j < found.value ==> services[j].name != name
    ensures found.None? ==> forall j :: 0 <= j < |services| ==> services[j].name != name
  {
    if services == [] then None
    else if services[0].name == name then Some(0)
    else
      match FindService(services[1..], name)
      case None => None
      case Some(i) => Some(i + 1)
  }

  /** The resolver is consulted: a service is named `name` and a version was requested. */
  ghost predicate Redirects(services: Option<seq<ServiceDeclaration>>, name: string, providerVersion: string) {
    && providerVersion != "default"
    && services.Some?
    && exists i :: 0 <= i < |services.value| && services.value[i].name == name
  }

  /** The same, for a whole manifest. */
  ghost predicate WillRedirect(m: ManifestFile, name: string, providerVersion: string) {
    Redirects(m.services, name, providerVersion)
  }

  /**
   * `after` has the services of `before` in the same order with the same
   * names and configs; only the first one named `name` may have a different
   * `manifestUrl`.
   */
  ghost predicate ServicesPreserved(
    before: Option<seq<ServiceDeclaration>>, after: Option<seq<ServiceDeclaration>>, name: string)
  {
    && after.Some? == before.Some?
    && (before.Some? ==>
          var s, s' := before.value, after.value;
          && |s'| == |s|
          && forall i :: 0 <= i < |s| ==>
               && s'[i].name == s[i].name && s'[i].config == s[i].config
               && (s'[i].manifestUrl != s[i].manifestUrl ==>
                     s[i].name == name && forall j :: 0 <= j < i ==> s[j].name != name))
  }

  /**
   * Redirects the provider URL of the first service named `name` to the
   * resolver's answer for `providerVersion`; a resolver error is passed on.
   */
  function RedirectService<S>(
    services: Option<seq<ServiceDeclaration>>, name: string, providerVersion: string,
    resolve: Resolver<S>, state: S): (r: (Result<Option<seq<ServiceDeclaration>>, string>, S))
    ensures !Redirects(services, name, providerVersion) ==> r == (Ok(services), state)
    ensures r.0.Ok? ==> ServicesPreserved(services, r.0.value, name)
  {
    var found := if services.Some? then FindService(services.value, name) else None;
    if found.None? || providerVersion == "default" then (Ok(services), state)
    else
      var service := services.value[found.value];
      var (url, state') := resolve(state, providerVersion, service.manifestUrl);
      if url.Err? then (Err(url.error), state')
      else (Ok(Some(services.value[found.value := service.(manifestUrl := Some(url.value))])), state')
  }

  /** An absent or empty field is kept as it is; a non-empty one stays present. */
  ghost predicate FieldRewritten(before: Option<string>, after: Option<string>) {
    && (!Truthy(before) ==> after == before)
    && (Truthy(before) ==> after.Some?)
  }

  /** The startup application with its URL and icon rewritten. */
  function RewriteApp(app: StartupApp, cdn: string, baseUrl: string, expand: string -> string): (app': StartupApp)
    ensures app'.uuid == app.uuid && app'.name == app.name && app'.autoShow == app.autoShow
    ensures app'.url == RewriteField(app.url, cdn, baseUrl, expand)
    ensures app'.icon == RewriteField(app.icon, cdn, baseUrl, expand)
    ensures FieldRewritten(app.url, app'.url) && FieldRewritten(app.icon, app'.icon)
  {
    app.(url := RewriteField(app.url, cdn, baseUrl, expand),
         icon := RewriteField(app.icon, cdn, baseUrl, expand))
  }

  /** The shortcut, when there is one, with its icon rewritten. */
  function RewriteShortcut(shortcut: Option<Shortcut>, cdn: string, baseUrl: string, expand: string -> string)
    : (shortcut': Option<Shortcut>)
    ensures shortcut'.Some? == shortcut.Some?
    ensures shortcut.Some? ==> shortcut'.value.icon == RewriteField(shortcut.value.icon, cdn, baseUrl, expand)
    ensures shortcut.Some? ==> FieldRewritten(shortcut.value.icon, shortcut'.value.icon)
  {
    if shortcut.Some? then Some(shortcut.value.(icon := RewriteField(shortcut.value.icon, cdn, baseUrl, expand)))
    else None
  }

  /**
   * What the rewriter never changes: the licence key, the startup
   * application's identity and `autoShow`, the runtime arguments, which
   * optional fields are present, and the services' number, order, names and
   * configs; only the first service named `name` may get a new `manifestUrl`.
   */
  ghost predicate Preserved(before: ManifestFile, after: ManifestFile, name: string) {
    && before.startupApp.Some? && after.startupApp.Some?
    && after.licenseKey == before.licenseKey
    && (var a, a' := before.startupApp.value, after.startupApp.value;
        && a'.uuid == a.uuid && a'.name == a.name && a'.autoShow == a.autoShow
        && FieldRewritten(a.url, a'.url) && FieldRewritten(a.icon, a'.icon))
    && after.shortcut.Some? == before.shortcut.Some?
    && (before.shortcut.Some? ==> FieldRewritten(before.shortcut.value.icon, after.shortcut.value.icon))
    && after.runtime.arguments == before.runtime.arguments
    && ServicesPreserved(before.services, after.services, name)
  }

  /**
   * `getManifest(configPath, context, providerVersion, runtimeVersion)` on the
   * file's parse result, with the project configuration, `replaceUrlParams`
   * (`expand`) and `getProviderUrl` (`resolve`, with its state) passed in.
   */
  function GetManifest<S>(
    configPath: string, context: RewriteContext, providerVersion: string, runtimeVersion: Option<string>,
    project: ProjectConfig, parsed: Option<ManifestFile>,
    expand: string -> string, resolve: Resolver<S>, state: S): (out: Loaded<S>)
    ensures !IsAppManifest(parsed) ==> out == Loaded(Err(NotAnAppManifest(configPath)), state)
    ensures out.result.Ok? ==> IsAppManifest(parsed) && Preserved(parsed.value, out.result.value, project.name)
    ensures IsAppManifest(parsed) && !WillRedirect(parsed.value, project.name, providerVersion) ==>
              out.result.Ok? && out.state == state
  {
    if !IsAppManifest(parsed) then Loaded(Err(NotAnAppManifest(configPath)), state)
    else
      var m := parsed.value;
      var baseUrl := BaseUrl(context, project, configPath);
      var cdn := project.cdnLocation;
      var app' := RewriteApp(m.startupApp.value, cdn, baseUrl, expand);
      var shortcut' := RewriteShortcut(m.shortcut, cdn, baseUrl, expand);
      var (services', state') := RedirectService(m.services, project.name, providerVersion, resolve, state);
      if services'.Err? then Loaded(Err(services'.error), state')
      else
        var runtime' := if Truthy(runtimeVersion) then m.runtime.(version := runtimeVersion.value) else m.runtime;
        Loaded(Ok(m.(startupApp := Some(app'), shortcut := shortcut', services := services'.value, runtime := runtime')), state')
  }

  /**
   * `DEPLOY` points at the CDN itself; `DEBUG` points at the local server,
   * followed for a service by `/` and the first segment of `configPath`.
   */
  lemma BaseUrlForContext(context: RewriteContext, project: ProjectConfig, configPath: string)
    ensures context == Deploy ==> BaseUrl(context, project, configPath) == project.cdnLocation
    ensures context == Debug && !project.isService ==>
              BaseUrl(context, project, configPath) == "http://localhost:" + project.port
    ensures context == Debug && project.isService ==>
              var b := BaseUrl(context, project, configPath);
              var pre := "http://localhost:" + project.port + "/";
              && |pre| <= |b| && b[..|pre|] == pre
              && var folder := b[|pre|..];
                 && folder <= configPath && '/' !in folder
                 && (|folder| == |configPath| || configPath[|folder|] == '/')
  {
  }

  /** The three URL fields after a successful call are the rewrites of the originals. */
  lemma RewritesUrlFields<S>(
    configPath: string, context: RewriteContext, providerVersion: string, runtimeVersion: Option<string>,
    project: ProjectConfig, parsed: Option<ManifestFile>,
    expand: string -> string, resolve: Resolver<S>, state: S)
    requires GetManifest(configPath, context, providerVersion, runtimeVersion, project, parsed, expand, resolve, state).result.Ok?
    ensures
      var m := parsed.value;
      var m' := GetManifest(configPath, context, providerVersion, runtimeVersion, project, parsed, expand, resolve, state).result.value;
      var baseUrl, cdn := BaseUrl(context, project, configPath), project.cdnLocation;
      && m'.startupApp.value.url == RewriteField(m.startupApp.value.url, cdn, baseUrl, expand)
      && m'.startupApp.value.icon == RewriteField(m.startupApp.value.icon, cdn, baseUrl, expand)
      && (m.shortcut.Some? ==>
            m'.shortcut.value.icon == RewriteField(m.shortcut.value.icon, cdn, baseUrl, expand))
  {
  }

  /**
   * In `DEPLOY` the CDN reference is replaced by itself, so each present,
   * non-empty field only has its URL parameters expanded.
   */
  lemma DeployOnlyExpands<S>(
    configPath: string, providerVersion: string, runtimeVersion: Option<string>,
    project: ProjectConfig, parsed: Option<ManifestFile>,
    expand: string -> string, resolve: Resolver<S>, state: S)
    requires GetManifest(configPath, Deploy, providerVersion, runtimeVersion, project, parsed, expand, resolve, state).result.Ok?
    ensures
      var m := parsed.value;
      var m' := GetManifest(configPath, Deploy, providerVersion, runtimeVersion, project, parsed, expand, resolve, state).result.value;
      && (Truthy(m.startupApp.value.url) ==> m'.startupApp.value.url == Some(expand(m.startupApp.value.url.value)))
      && (Truthy(m.startupApp.value.icon) ==> m'.startupApp.value.icon == Some(expand(m.startupApp.value.icon.value)))
      && (m.shortcut.Some? && Truthy(m.shortcut.value.icon) ==>
            m'.shortcut.value.icon == Some(expand(m.shortcut.value.icon.value)))
  {
    var m := parsed.value;
    var cdn := project.cdnLocation;
    if Truthy(m.startupApp.value.url) {
      ReplaceFirstSelf(m.startupApp.value.url.value, cdn);
    }
    if Truthy(m.startupApp.value.icon) {
      ReplaceFirstSelf(m.startupApp.value.icon.value, cdn);
    }
    if m.shortcut.Some? && Truthy(m.shortcut.value.icon) {
      ReplaceFirstSelf(m.shortcut.value.icon.value, cdn);
    }
  }

  /**
   * In `DEBUG` a startup URL that starts with the CDN location is served
   * from the local server: its CDN prefix becomes the local base URL.
   */
  lemma DebugServesLocally<S>(
    configPath: string, providerVersion: string, runtimeVersion: Option<string>,
    project: ProjectConfig, parsed: Option<ManifestFile>,
    expand: string -> string, resolve: Resolver<S>, state: S)
    requires IsAppManifest(parsed)
    requires var url := parsed.value.startupApp.value.url;
             && Truthy(url) && |project.cdnLocation| <= |url.value|
             && url.value[..|project.cdnLocation|] == project.cdnLocation
    ensures
      var url := parsed.value.startupApp.value.url.value;
      var out := GetManifest(configPath, Debug, providerVersion, runtimeVersion, project, parsed, expand, resolve, state);
      out.result.Ok? ==>
        out.result.value.startupApp.value.url
        == Some(expand("http://localhost:" + project.port + Component(configPath, project.isService)
                       + url[|project.cdnLocation|..]))
  {
    ReplaceFirstLeading(parsed.value.startupApp.value.url.value, project.cdnLocation, BaseUrl(Debug, project, configPath));
  }

  /** With `default` or without a service of the project's name, the services are returned as they were. */
  lemma ServicesUntouched<S>(
    configPath: string, context: RewriteContext, providerVersion: string, runtimeVersion: Option<string>,
    project: ProjectConfig, parsed: Option<ManifestFile>,
    expand: string -> string, resolve: Resolver<S>, state: S)
    requires IsAppManifest(parsed) && !WillRedirect(parsed.value, project.name, providerVersion)
    ensures
      var out := GetManifest(configPath, context, providerVersion, runtimeVersion, project, parsed, expand, resolve, state);
      out.result.Ok? && out.result.value.services == parsed.value.services && out.state == state
  {
  }

  /**
   * Otherwise the resolver is asked once, about the first service with the
   * project's name and its old `manifestUrl`: its answer replaces that one
   * `manifestUrl`, and its error is thrown out of the whole call.
   */
  lemma RedirectsFirstMatch<S>(
    configPath: string, context: RewriteContext, providerVersion: string, runtimeVersion: Option<string>,
    project: ProjectConfig, parsed: Option<ManifestFile>,
    expand: string -> string, resolve: Resolver<S>, state: S, i: nat)
    requires IsAppManifest(parsed) && providerVersion != "default"
    requires parsed.value.services.Some?
    requires var s := parsed.value.services.value;
             && i < |s| && s[i].name == project.name
             && forall j :: 0 <= j < i ==> s[j].name != project.name
    ensures
      var s := parsed.value.services.value;
      var out := GetManifest(configPath, context, providerVersion, runtimeVersion, project, parsed, expand, resolve, state);
      var (url, state') := resolve(state, providerVersion, s[i].manifestUrl);
      && out.state == state'
      && (url.Err? ==> out.result == Err(url.error))
      && (url.Ok? ==>
            out.result.Ok? && out.result.value.services == Some(s[i := s[i].(manifestUrl := Some(url.value))]))
  {
    assert FindService(parsed.value.services.value, project.name) == Some(i);
  }

  /** A non-empty `runtimeVersion` becomes `runtime.version`; an absent or empty one leaves it. */
  lemma OverridesRuntimeVersion<S>(
    configPath: string, context: RewriteContext, providerVersion: string, runtimeVersion: Option<string>,
    project: ProjectConfig, parsed: Option<ManifestFile>,
    expand: string -> string, resolve: Resolver<S>, state: S)
    requires GetManifest(configPath, context, providerVersion, runtimeVersion, project, parsed, expand, resolve, state).result.Ok?
    ensures
      var m' := GetManifest(configPath, context, providerVersion, runtimeVersion, project, parsed, expand, resolve, state).result.value;
      m'.runtime.version == if Truthy(runtimeVersion) then runtimeVersion.value else parsed.value.runtime.version
  {
  }

  /**
   * What `getProviderUrl` reads: the same project configuration as the
   * rewriter, and whether the demo and testing provider manifests exist.
   */
  function ProviderEnv(project: ProjectConfig, demoProviderExists: bool, testProviderExists: bool): ProviderUrl.Env {
    ProviderUrl.Env(project.port, project.cdnLocation, demoProviderExists, testProviderExists)
  }

  /**
   * `getProviderUrl` with its module-level cache, as a resolver for
   * `GetManifest`: a filled cache answers for itself; an empty one resolves.
   */
  function CachedResolver(project: ProjectConfig, demoProviderExists: bool, testProviderExists: bool)
    : (resolve: Resolver<ProviderUrl.Cache>)
    ensures forall cache, version, manifestUrl :: Truthy(cache) ==>
              resolve(cache, version, manifestUrl) == (Ok(cache.value), cache)
    ensures forall cache, version, manifestUrl :: !Truthy(cache) ==>
              resolve(cache, version, manifestUrl).0
              == ProviderUrl.Resolve(ProviderEnv(project, demoProviderExists, testProviderExists), version, manifestUrl)
  {
    var env := ProviderEnv(project, demoProviderExists, testProviderExists);
    (cache, version, manifestUrl) =>
      var o := ProviderUrl.Step(ProviderEnv(project, demoProviderExists, testProviderExists), cache, version, manifestUrl);
      (o.result, o.cache)
  }

  /** The `manifestUrl` of service `i` of a loaded manifest, if it was loaded and has one. */
  function ServiceUrl(loaded: Result<ManifestFile, string>, i: nat): Option<string> {
    if loaded.Ok? && loaded.value.services.Some? && i < |loaded.value.services.value| then
      loaded.value.services.value[i].manifestUrl
    else None
  }

  /**
   * Memoization seen from the manifest: with a URL already cached, the
   * project's service is redirected to it whatever version is requested,
   * and the cache stays as it was.
   */
  lemma CachedUrlReused(
    configPath: string, context: RewriteContext, providerVersion: string, runtimeVersion: Option<string>,
    project: ProjectConfig, parsed: Option<ManifestFile>,
    expand: string -> string, demoProviderExists: bool, testProviderExists: bool, cache: ProviderUrl.Cache, i: nat)
    requires Truthy(cache)
    requires IsAppManifest(parsed) && providerVersion != "default"
    requires parsed.value.services.Some?
    requires var s := parsed.value.services.value;
             && i < |s| && s[i].name == project.name
             && forall j :: 0 <= j < i ==> s[j].name != project.name
    ensures
      var out := GetManifest(configPath, context, providerVersion, runtimeVersion, project, parsed,
                             expand, CachedResolver(project, demoProviderExists, testProviderExists), cache);
      && out.result.Ok? && out.state == cache
      && ServiceUrl(out.result, i) == Some(cache.value)
  {
    RedirectsFirstMatch(configPath, context, providerVersion, runtimeVersion, project, parsed,
                        expand, CachedResolver(project, demoProviderExists, testProviderExists), cache, i);
  }

  /**
   * Two loads in one process: once the first has redirected the project's
   * service, the second redirects its own to the same URL, whatever
   * manifest and version it is given.
   */
  lemma SecondLoadReusesFirstUrl(
    configPath1: string, context1: RewriteContext, providerVersion1: string, runtimeVersion1: Option<string>,
    parsed1: Option<ManifestFile>, i1: nat,
    configPath2: string, context2: RewriteContext, providerVersion2: string, runtimeVersion2: Option<string>,
    parsed2: Option<ManifestFile>, i2: nat,
    project: ProjectConfig, expand: string -> string, demoProviderExists: bool, testProviderExists: bool,
    cache: ProviderUrl.Cache)
    requires IsAppManifest(parsed1) && providerVersion1 != "default" && parsed1.value.services.Some?
    requires var s := parsed1.value.services.value;
             && i1 < |s| && s[i1].name == project.name
             && forall j :: 0 <= j < i1 ==> s[j].name != project.name
    requires IsAppManifest(parsed2) && providerVersion2 != "default" && parsed2.value.services.Some?
    requires var s := parsed2.value.services.value;
             && i2 < |s| && s[i2].name == project.name
             && forall j :: 0 <= j < i2 ==> s[j].name != project.name
    ensures
      var first := GetManifest(configPath1, context1, providerVersion1, runtimeVersion1, project, parsed1,
                               expand, CachedResolver(project, demoProviderExists, testProviderExists), cache);
      var second := GetManifest(configPath2, context2, providerVersion2, runtimeVersion2, project, parsed2,
                                expand, CachedResolver(project, demoProviderExists, testProviderExists), first.state);
      first.result.Ok? ==>
        && second.result.Ok? && second.state == first.state
        && ServiceUrl(first.result, i1).Some?
        && ServiceUrl(second.result, i2) == ServiceUrl(first.result, i1)
  {
    var first := GetManifest(configPath1, context1, providerVersion1, runtimeVersion1, project, parsed1,
                             expand, CachedResolver(project, demoProviderExists, testProviderExists), cache);
    if first.result.Ok? {
      var s1 := parsed1.value.services.value;
      var o := ProviderUrl.Step(ProviderEnv(project, demoProviderExists, testProviderExists), cache, providerVersion1, s1[i1].manifestUrl);
      assert CachedResolver(project, demoProviderExists, testProviderExists)(cache, providerVersion1, s1[i1].manifestUrl) == (o.result, o.cache);
      RedirectsFirstMatch(configPath1, context1, providerVersion1, runtimeVersion1, project, parsed1,
                          expand, CachedResolver(project, demoProviderExists, testProviderExists), cache, i1);
      assert first.state == Some(o.result.value) && o.result.value != "";
      CachedUrlReused(configPath2, context2, providerVersion2, runtimeVersion2, project, parsed2,
                      expand, demoProviderExists, testProviderExists, first.state, i2);
    }
  }
}
