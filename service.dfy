/** YooService: the static service behind the façade. It owns a name-keyed
    cache of the library's packages, a per-package cache of requested
    versions, and the settings it was initialized with; it initializes
    packages, requests versions and manifests package by package, and answers
    size queries. */
module Service {
  import opened Common
  import opened Strings
  import opened Settings
  import opened Library

  // ---------------------------------------------------------------------------
  // Package lookup

  /** The name `GetPackage` looks up: a null or empty name stands for the
      default package of the settings; there is none when that is missing or
      empty too. */
  function ResolveName(settings: Option<YooAssetSettings>, name: Option<string>): (r: Option<string>)
    ensures r.Some? ==> r.value != ""
    ensures !IsNullOrEmpty(name) ==> r == name
    ensures IsNullOrEmpty(name) && settings.Some? && DefaultPackageName(settings.value) != "" ==>
              r == Some(DefaultPackageName(settings.value))
    ensures IsNullOrEmpty(name) && (settings.None? || DefaultPackageName(settings.value) == "") ==> r.None?
  {
    if !IsNullOrEmpty(name) then name
    else if settings.Some? && DefaultPackageName(settings.value) != "" then Some(DefaultPackageName(settings.value))
    else None
  }

  /** The library package `GetPackage(name)` returns: the resolved name, when the
      library holds a package of that name. */
  function LookupPackage(settings: Option<YooAssetSettings>, registry: map<string, PackageStatus>, name: Option<string>)
    : (r: Option<string>)
    ensures r.Some? ==> r == ResolveName(settings, name) && r.value in registry
    ensures r.None? ==> ResolveName(settings, name).None? || ResolveName(settings, name).value !in registry
  {
    match ResolveName(settings, name)
    case None => None
    case Some(n) => if n in registry then Some(n) else None
  }

  /** `IsPackageInitialized(name)`: the package exists and its status is `Succeed`. */
  function IsReady(settings: Option<YooAssetSettings>, registry: map<string, PackageStatus>, name: Option<string>)
    : (r: bool)
    ensures r <==> LookupPackage(settings, registry, name).Some?
                   && registry[LookupPackage(settings, registry, name).value] == Succeed
  {
    match LookupPackage(settings, registry, name)
    case None => false
    case Some(n) => registry[n] == Succeed
  }

  /** The names a lookup adds to the package cache. */
  function Filled(found: Option<string>): set<string> {
    if found.Some? then {found.value} else {}
  }

  /** Lemma: a null name and an empty name look up the same (default) package,
      and a non-empty name is looked up as given. */
  lemma {:induction false} NullAndEmptyNamesAgree(settings: Option<YooAssetSettings>, registry: map<string, PackageStatus>, n: string)
    ensures LookupPackage(settings, registry, None) == LookupPackage(settings, registry, Some(""))
    ensures n != "" ==> LookupPackage(settings, registry, Some(n)) == (if n in registry then Some(n) else None)
    ensures settings.Some? && DefaultPackageName(settings.value) != "" ==>
              LookupPackage(settings, registry, None) == LookupPackage(settings, registry, Some(DefaultPackageName(settings.value)))
  {
    assert ResolveName(settings, None) == ResolveName(settings, Some(""));
  }

  // ---------------------------------------------------------------------------
  // Package configuration lookup

  /** The position of the first configuration named `key`. */
  function FirstConfig(cfgs: seq<PackageConfig>, key: string): (r: Option<nat>)
    ensures r.Some? ==> r.value < |cfgs| && cfgs[r.value].packageName == key
    ensures r.Some? ==> forall j :: 0 <= j < r.value ==> cfgs[j].packageName != key
    ensures r.None? ==> forall j :: 0 <= j < |cfgs| ==> cfgs[j].packageName != key
    decreases |cfgs|
  {
    if cfgs == [] then None
    else if cfgs[0].packageName == key then Some(0)
    else match FirstConfig(cfgs[1..], key)
      case None => None
      case Some(k) => Some(k + 1)
  }

  /** `GetPackageConfig(name)`: a null name stands for the default package; the
      first configuration of that name, and none without settings. */
  function PackageConfigFor(settings: Option<YooAssetSettings>, name: Option<string>): (r: Option<PackageConfig>)
    ensures settings.None? ==> r.None?
    ensures settings.Some? ==>
              var cfgs := Packages(settings.value);
              var key := if name.Some? then name.value else DefaultPackageName(settings.value);
              // none exactly when no configuration carries the name
              && (r.None? <==> forall j :: 0 <= j < |cfgs| ==> cfgs[j].packageName != key)
              // otherwise the first one that does
              && (r.Some? ==> exists k :: 0 <= k < |cfgs| && r.value == cfgs[k] && r.value.packageName == key
                                          && forall j :: 0 <= j < k ==> cfgs[j].packageName != key)
  {
    if settings.None? then None
    else
      var cfgs := Packages(settings.value);
      match FirstConfig(cfgs, if name.Some? then name.value else DefaultPackageName(settings.value))
      case None => None
      case Some(k) => Some(cfgs[k])
  }

  // ---------------------------------------------------------------------------
  // Remote URLs

  /** The segments `BuildFullUrl` joins: the base without trailing slashes, the
      project id when there is one, the platform, the game version, the package. */
  function UrlSegments(s: YooAssetSettings, baseUrl: string, packageName: string): seq<string> {
    [TrimEnd(baseUrl, '/')] + (if ProjectId(s) != "" then [ProjectId(s)] else [])
      + [s.platformName, GameVersion(s), packageName]
  }

  /** `BuildFullUrl(baseUrl, packageName)`. */
  function BuildFullUrl(s: YooAssetSettings, baseUrl: string, packageName: string): string {
    Join("/", UrlSegments(s, baseUrl, packageName))
  }

  /** Lemma: the full URL written out; the project segment is present exactly
      when the project id is non-empty, and the base keeps no trailing slash. */
  lemma {:induction false} BuildFullUrlClosedForm(s: YooAssetSettings, baseUrl: string, packageName: string)
    ensures BuildFullUrl(s, baseUrl, packageName)
         == TrimEnd(baseUrl, '/') + "/" + (if ProjectId(s) != "" then ProjectId(s) + "/" else "")
            + s.platformName + "/" + GameVersion(s) + "/" + packageName
  {
    var v := GameVersion(s);
    var tail := [s.platformName, v, packageName];
    assert Join("/", [packageName]) == packageName;
    JoinCons("/", v, [packageName]);
    assert [v] + [packageName] == [v, packageName];
    JoinCons("/", s.platformName, [v, packageName]);
    assert [s.platformName] + [v, packageName] == tail;
    var rest := s.platformName + "/" + v + "/" + packageName;
    assert Join("/", tail) == rest;
    var t := TrimEnd(baseUrl, '/');
    if ProjectId(s) != "" {
      var p := ProjectId(s);
      JoinCons("/", p, tail);
      assert [p] + tail == [p, s.platformName, v, packageName];
      JoinCons("/", t, [p] + tail);
      assert UrlSegments(s, baseUrl, packageName) == [t] + ([p] + tail);
    } else {
      JoinCons("/", t, tail);
      assert UrlSegments(s, baseUrl, packageName) == [t] + tail;
    }
  }

  /** The remote services of `CreateHostInit` / `CreateWebInit`: both URLs are
      full URLs, and an empty fallback is replaced by the package's main server. */
  function ServiceRemote(s: YooAssetSettings, cfg: PackageConfig): (r: RemoteServices)
    ensures r.PlainRemote?
    ensures r.defaultUrl == BuildFullUrl(s, GetHostServerURL(s, Some(cfg)), cfg.packageName)
  {
    var remoteUrl := GetHostServerURL(s, Some(cfg));
    var fallbackUrl := GetFallbackHostServerURL(s, Some(cfg));
    PlainRemote(BuildFullUrl(s, remoteUrl, cfg.packageName),
                BuildFullUrl(s, if fallbackUrl == "" then remoteUrl else fallbackUrl, cfg.packageName))
  }

  /** Lemma: when the resolved fallback server is empty, the full fallback URL is
      the full main URL; otherwise it is built from the fallback server. */
  lemma FallbackCollapsesToMain(s: YooAssetSettings, cfg: PackageConfig, fileName: string)
    ensures GetFallbackHostServerURL(s, Some(cfg)) == "" ==>
              ServiceRemote(s, cfg).fallbackUrl == ServiceRemote(s, cfg).defaultUrl
              && FallbackURL(ServiceRemote(s, cfg), fileName) == MainURL(ServiceRemote(s, cfg), fileName)
    ensures GetFallbackHostServerURL(s, Some(cfg)) != "" ==>
              ServiceRemote(s, cfg).fallbackUrl
                == BuildFullUrl(s, GetFallbackHostServerURL(s, Some(cfg)), cfg.packageName)
  {
  }

  // ---------------------------------------------------------------------------
  // Package initialization

  /** The oracle of one package initialization: whether the editor's simulated
      build succeeded (always false outside the editor), and how the library's
      initialization operation ends. */
  datatype InitOracle = InitOracle(simulateBuilt: bool, result: Op)

  /** `CreateInitOperation`: the parameters the play mode selects, or none
      (a null operation). */
  function InitParamsFor(s: YooAssetSettings, cfg: PackageConfig, simulateBuilt: bool): (r: Option<InitParams>)
    ensures r.None? <==> (PlayMode(s) == EditorSimulateMode && !simulateBuilt) || PlayMode(s).UnlistedMode?
    ensures r.Some? && r.value.HostParams? ==> PlayMode(s) == HostPlayMode
    ensures r.Some? && r.value.WebParams? ==> PlayMode(s) == WebPlayMode
    ensures r.Some? && (r.value.HostParams? || r.value.WebParams?) ==> r.value.remote == ServiceRemote(s, cfg)
    // each listed mode selects its own parameters
    ensures PlayMode(s) == EditorSimulateMode && simulateBuilt ==> r == Some(EditorSimulateParams)
    ensures PlayMode(s) == OfflinePlayMode ==> r == Some(OfflineParams)
    ensures PlayMode(s) == HostPlayMode ==> r == Some(HostParams(ServiceRemote(s, cfg)))
    ensures PlayMode(s) == WebPlayMode ==> r == Some(WebParams(ServiceRemote(s, cfg)))
  {
    match PlayMode(s)
    case EditorSimulateMode => if simulateBuilt then Some(EditorSimulateParams) else None
    case OfflinePlayMode => Some(OfflineParams)
    case HostPlayMode => Some(HostParams(ServiceRemote(s, cfg)))
    case WebPlayMode => Some(WebParams(ServiceRemote(s, cfg)))
    case UnlistedMode(_) => None
  }

  /** One `InitPackageInternalAsync`: whether it returned true, the library's
      packages afterwards, and the calls it made. */
  datatype InitResult = InitResult(ok: bool, registry: map<string, PackageStatus>, calls: seq<Call>)

  function InitStep(s: YooAssetSettings, registry: map<string, PackageStatus>, cfg: PackageConfig, o: InitOracle)
    : (r: InitResult)
    // the package exists afterwards, and no other package changes
    ensures r.registry.Keys == registry.Keys + {cfg.packageName}
    // an initialized package is skipped
    ensures cfg.packageName in registry && registry[cfg.packageName] == Succeed ==>
              r.ok && r.calls == [] && r.registry == registry
    // an initialization succeeds exactly when its operation does
    ensures r.calls != [] ==> (r.ok <==> o.result.Succeeded?) && (r.ok <==> r.registry[cfg.packageName] == Succeed)
    // without an operation: skipped-as-done, or true only in editor simulation
    ensures r.calls == [] && r.ok ==> r.registry[cfg.packageName] == Succeed || PlayMode(s) == EditorSimulateMode
    ensures !r.ok ==> r.registry[cfg.packageName] != Succeed
    // a package not yet initialized: with an operation, exactly its one
    // initialization call; without one, no call, and true only in editor
    // simulation, with the package's status left as it was
    ensures !(cfg.packageName in registry && registry[cfg.packageName] == Succeed) ==>
              var p := InitParamsFor(s, cfg, o.simulateBuilt);
              && (p.Some? ==> r.calls == [InitCall(cfg.packageName, p.value)])
              && (p.None? ==> r.calls == [] && (r.ok <==> PlayMode(s) == EditorSimulateMode)
                              && (cfg.packageName in registry ==> r.registry == registry)
                              && (cfg.packageName !in registry ==> r.registry[cfg.packageName] == NotInitialized))
  {
    var name := cfg.packageName;
    var reg := if name in registry then registry else registry[name := NotInitialized];
    if reg[name] == Succeed then InitResult(true, reg, [])
    else match InitParamsFor(s, cfg, o.simulateBuilt)
      case None => InitResult(PlayMode(s) == EditorSimulateMode, reg, [])
      case Some(p) =>
        InitResult(o.result.Succeeded?, reg[name := if o.result.Succeeded? then Succeed else Failed], [InitCall(name, p)])
  }

  /** Lemma: one initialization step changes no other package, and makes at
      most one initialization call, of its own package. */
  lemma InitStepTouchesOnlyItsPackage(s: YooAssetSettings, registry: map<string, PackageStatus>, cfg: PackageConfig,
                                      o: InitOracle)
    ensures var r := InitStep(s, registry, cfg, o);
      && (forall n :: n in registry && n != cfg.packageName ==> r.registry[n] == registry[n])
      && (r.calls == [] || exists p :: r.calls == [InitCall(cfg.packageName, p)])
  {
    var r := InitStep(s, registry, cfg, o);
    var reg := if cfg.packageName in registry then registry else registry[cfg.packageName := NotInitialized];
    if r.calls != [] {
      var p := InitParamsFor(s, cfg, o.simulateBuilt).value;
      assert r.calls == [InitCall(cfg.packageName, p)];
    }
  }

  /** Lemma: a second initialization of a package that the first one did
      initialize is skipped, whatever its oracle says. */
  lemma InitStepIdempotent(s: YooAssetSettings, registry: map<string, PackageStatus>, cfg: PackageConfig,
                           o1: InitOracle, o2: InitOracle)
    requires InitStep(s, registry, cfg, o1).ok
    requires InitStep(s, registry, cfg, o1).registry[cfg.packageName] == Succeed
    ensures var second := InitStep(s, InitStep(s, registry, cfg, o1).registry, cfg, o2);
      second.ok && second.calls == [] && second.registry == InitStep(s, registry, cfg, o1).registry
  {
  }

  /** The state `InitAllPackagesAsync` threads through its loop. */
  datatype InitState = InitState(registry: map<string, PackageStatus>, calls: seq<Call>, registered: set<string>)

  function InitStepper(s: YooAssetSettings): (InitState, (PackageConfig, InitOracle)) -> Stepped<InitState> {
    (st: InitState, job: (PackageConfig, InitOracle)) =>
      var r := InitStep(s, st.registry, job.0, job.1);
      Stepped(r.ok, InitState(r.registry, st.calls + r.calls, st.registered + {job.0.packageName}))
  }

  /** The loop of `InitAllPackagesAsync`: the packages in configuration order,
      stopping at the first that fails. */
  function InitAll(s: YooAssetSettings, registry: map<string, PackageStatus>, cfgs: seq<PackageConfig>, os: seq<InitOracle>)
    : Stepped<InitState>
    requires |os| == |cfgs|
  {
    RunSteps(InitStepper(s), InitState(registry, [], {}), Zip(cfgs, os))
  }

  /** Lemma: every package the loop reached is registered with the library and
      in the service's cache, and the library gained no other package. */
  lemma {:induction false} InitRunRegisters(s: YooAssetSettings, registry: map<string, PackageStatus>,
                                            jobs: seq<(PackageConfig, InitOracle)>)
    ensures var r := RunSteps(InitStepper(s), InitState(registry, [], {}), jobs);
      r.state.registry.Keys == registry.Keys + r.state.registered
    ensures var r := RunSteps(InitStepper(s), InitState(registry, [], {}), jobs);
      r.ok ==> forall j :: 0 <= j < |jobs| ==> jobs[j].0.packageName in r.state.registered
    decreases |jobs|
  {
    if jobs != [] {
      var init := jobs[..|jobs| - 1];
      InitRunRegisters(s, registry, init);
      var r := RunSteps(InitStepper(s), InitState(registry, [], {}), jobs);
      if r.ok {
        var pre := RunSteps(InitStepper(s), InitState(registry, [], {}), init);
        assert pre.ok;
        forall j | 0 <= j < |jobs| ensures jobs[j].0.packageName in r.state.registered {
          if j < |jobs| - 1 {
            assert init[j] == jobs[j];
          }
        }
      }
    }
  }

  /** Lemma: outside editor simulation, a successful run leaves every
      configured package initialized (`Succeed`). */
  lemma {:induction false} InitRunAllReady(s: YooAssetSettings, registry: map<string, PackageStatus>,
                                           jobs: seq<(PackageConfig, InitOracle)>)
    requires PlayMode(s) != EditorSimulateMode
    ensures var r := RunSteps(InitStepper(s), InitState(registry, [], {}), jobs);
      r.ok ==> forall j :: 0 <= j < |jobs| ==>
        jobs[j].0.packageName in r.state.registry && r.state.registry[jobs[j].0.packageName] == Succeed
    decreases |jobs|
  {
    if jobs != [] {
      var init := jobs[..|jobs| - 1];
      InitRunAllReady(s, registry, init);
      var r := RunSteps(InitStepper(s), InitState(registry, [], {}), jobs);
      if r.ok {
        var pre := RunSteps(InitStepper(s), InitState(registry, [], {}), init);
        assert pre.ok;
        var last := jobs[|jobs| - 1];
        var st := InitStep(s, pre.state.registry, last.0, last.1);
        assert r.state.registry == st.registry;
        forall j | 0 <= j < |jobs|
          ensures jobs[j].0.packageName in r.state.registry && r.state.registry[jobs[j].0.packageName] == Succeed
        {
          if j < |jobs| - 1 {
            assert init[j] == jobs[j];
          }
        }
      }
    }
  }

  // ---------------------------------------------------------------------------
  // Versions and manifests

  /** The key a version is cached under: the name as given, or the settings'
      default package name for a null name (an empty name is kept as ""). */
  function VersionKey(settings: Option<YooAssetSettings>, name: Option<string>): string
    requires name.Some? || settings.Some?
  {
    if name.Some? then name.value else DefaultPackageName(settings.value)
  }

  /** One `UpdateVersionAsync`: success, the version, the version cache, the
      library calls, and the names added to the package cache. */
  datatype VersionResult = VersionResult(ok: bool, version: Option<string>, versions: map<string, string>,
                                         calls: seq<Call>, filled: set<string>)

  function VersionStep(settings: Option<YooAssetSettings>, registry: map<string, PackageStatus>,
                       versions: map<string, string>, name: Option<string>, o: VersionOp): (r: VersionResult)
    ensures r.ok <==> LookupPackage(settings, registry, name).Some? && o.VersionSucceeded?
    ensures r.ok ==> r.version == Some(o.version) && r.versions == versions[VersionKey(settings, name) := o.version]
    ensures !r.ok ==> r.version.None? && r.versions == versions
    ensures LookupPackage(settings, registry, name).None? ==> r.calls == []
    ensures LookupPackage(settings, registry, name).Some? ==>
              r.calls == [VersionCall(LookupPackage(settings, registry, name).value)]
    ensures r.filled == Filled(LookupPackage(settings, registry, name))
  {
    match LookupPackage(settings, registry, name)
    case None => VersionResult(false, None, versions, [], {})
    case Some(p) =>
      if o.VersionErrored? then VersionResult(false, None, versions, [VersionCall(p)], {p})
      else VersionResult(true, Some(o.version), versions[VersionKey(settings, name) := o.version], [VersionCall(p)], {p})
  }

  /** Lemma: `UpdateVersionAsync("")` asks the default package for its version
      but caches it under "", where a later null-name lookup does not see it. */
  lemma EmptyNameVersionKey(s: YooAssetSettings, registry: map<string, PackageStatus>,
                            versions: map<string, string>, v: string)
    requires DefaultPackageName(s) != "" && DefaultPackageName(s) in registry
    requires DefaultPackageName(s) !in versions
    ensures var r := VersionStep(Some(s), registry, versions, Some(""), VersionSucceeded(v));
      r.calls == [VersionCall(DefaultPackageName(s))] && r.versions == versions["" := v]
      && DefaultPackageName(s) !in r.versions
  {
  }

  /** The oracle of one `UpdateManifestAsync`: the version request it may make,
      and the manifest update. */
  datatype ManifestOracle = ManifestOracle(version: VersionOp, manifest: Op)

  datatype ManifestResult = ManifestResult(ok: bool, versions: map<string, string>, calls: seq<Call>, filled: set<string>)

  /** One `UpdateManifestAsync`: a cached version is reused, otherwise one is
      requested and cached; a failed request stops before any manifest update. */
  function ManifestStep(settings: Option<YooAssetSettings>, registry: map<string, PackageStatus>,
                        versions: map<string, string>, name: Option<string>, o: ManifestOracle): (r: ManifestResult)
    ensures LookupPackage(settings, registry, name).None? ==> !r.ok && r.calls == [] && r.versions == versions
    ensures r.filled == Filled(LookupPackage(settings, registry, name))
    ensures LookupPackage(settings, registry, name).Some? ==>
              var p := LookupPackage(settings, registry, name).value;
              var key := VersionKey(settings, name);
              // a cached version is used as is, without a request
              && (key in versions ==> r.versions == versions && r.calls == [ManifestCall(p, versions[key])]
                                      && (r.ok <==> o.manifest.Succeeded?))
              // otherwise the version is requested first
              && (key !in versions && o.version.VersionErrored? ==>
                    !r.ok && r.versions == versions && r.calls == [VersionCall(p)])
              && (key !in versions && o.version.VersionSucceeded? ==>
                    r.versions == versions[key := o.version.version]
                    && r.calls == [VersionCall(p), ManifestCall(p, o.version.version)]
                    && (r.ok <==> o.manifest.Succeeded?))
  {
    match LookupPackage(settings, registry, name)
    case None => ManifestResult(false, versions, [], {})
    case Some(p) =>
      var key := VersionKey(settings, name);
      if key in versions then ManifestResult(o.manifest.Succeeded?, versions, [ManifestCall(p, versions[key])], {p})
      else if o.version.VersionErrored? then ManifestResult(false, versions, [VersionCall(p)], {p})
      else ManifestResult(o.manifest.Succeeded?, versions[key := o.version.version],
                          [VersionCall(p), ManifestCall(p, o.version.version)], {p})
  }

  /** Lemma: a successful manifest update ran on the version now cached for
      the package, and a cached version is never replaced. */
  lemma ManifestUsesCachedVersion(settings: Option<YooAssetSettings>, registry: map<string, PackageStatus>,
                                  versions: map<string, string>, name: Option<string>, o: ManifestOracle)
    requires ManifestStep(settings, registry, versions, name, o).ok
    ensures var r := ManifestStep(settings, registry, versions, name, o);
      LookupPackage(settings, registry, name).Some? && VersionKey(settings, name) in r.versions
      && r.calls[|r.calls| - 1]
           == ManifestCall(LookupPackage(settings, registry, name).value, r.versions[VersionKey(settings, name)])
      && (VersionKey(settings, name) in versions ==> r.versions[VersionKey(settings, name)] == versions[VersionKey(settings, name)])
  {
  }

  /** The state the `UpdateAll*` loops thread: the version cache, the library
      calls, and the names added to the package cache. */
  datatype CacheState = CacheState(versions: map<string, string>, calls: seq<Call>, filled: set<string>)

  function VersionStepper(s: YooAssetSettings, registry: map<string, PackageStatus>)
    : (CacheState, (PackageConfig, VersionOp)) -> Stepped<CacheState>
  {
    (st: CacheState, job: (PackageConfig, VersionOp)) =>
      var r := VersionStep(Some(s), registry, st.versions, Some(job.0.packageName), job.1);
      Stepped(r.ok, CacheState(r.versions, st.calls + r.calls, st.filled + r.filled))
  }

  function ManifestStepper(s: YooAssetSettings, registry: map<string, PackageStatus>)
    : (CacheState, (PackageConfig, ManifestOracle)) -> Stepped<CacheState>
  {
    (st: CacheState, job: (PackageConfig, ManifestOracle)) =>
      var r := ManifestStep(Some(s), registry, st.versions, Some(job.0.packageName), job.1);
      Stepped(r.ok, CacheState(r.versions, st.calls + r.calls, st.filled + r.filled))
  }

  /** One more package in an `UpdateAllVersionsAsync` run that has not failed
      yet: its `UpdateVersionAsync` on the cache the run has built. */
  lemma VersionRunSnoc(s: YooAssetSettings, registry: map<string, PackageStatus>, start: CacheState,
                       cfgs: seq<PackageConfig>, os: seq<VersionOp>, i: nat)
    requires |cfgs| == |os| && i < |cfgs|
    requires RunSteps(VersionStepper(s, registry), start, Zip(cfgs, os)[..i]).ok
    ensures var pre := RunSteps(VersionStepper(s, registry), start, Zip(cfgs, os)[..i]).state;
      var r := VersionStep(Some(s), registry, pre.versions, Some(cfgs[i].packageName), os[i]);
      RunSteps(VersionStepper(s, registry), start, Zip(cfgs, os)[..i + 1])
        == Stepped(r.ok, CacheState(r.versions, pre.calls + r.calls, pre.filled + r.filled))
  {
    RunStepsSnoc(VersionStepper(s, registry), start, Zip(cfgs, os), i);
  }

  /** One more package in an `UpdateAllManifestsAsync` run that has not failed
      yet: its `UpdateManifestAsync` on the cache the run has built. */
  lemma ManifestRunSnoc(s: YooAssetSettings, registry: map<string, PackageStatus>, start: CacheState,
                        cfgs: seq<PackageConfig>, os: seq<ManifestOracle>, i: nat)
    requires |cfgs| == |os| && i < |cfgs|
    requires RunSteps(ManifestStepper(s, registry), start, Zip(cfgs, os)[..i]).ok
    ensures var pre := RunSteps(ManifestStepper(s, registry), start, Zip(cfgs, os)[..i]).state;
      var r := ManifestStep(Some(s), registry, pre.versions, Some(cfgs[i].packageName), os[i]);
      RunSteps(ManifestStepper(s, registry), start, Zip(cfgs, os)[..i + 1])
        == Stepped(r.ok, CacheState(r.versions, pre.calls + r.calls, pre.filled + r.filled))
  {
    RunStepsSnoc(ManifestStepper(s, registry), start, Zip(cfgs, os), i);
  }

  /** Lemma: after a successful `UpdateAllVersionsAsync` every configured
      package name has a cached version. */
  lemma {:induction false} VersionRunCachesAll(s: YooAssetSettings, registry: map<string, PackageStatus>,
                                               versions: map<string, string>, jobs: seq<(PackageConfig, VersionOp)>)
    ensures var r := RunSteps(VersionStepper(s, registry), CacheState(versions, [], {}), jobs);
      r.ok ==> forall j :: 0 <= j < |jobs| ==> jobs[j].0.packageName in r.state.versions
    ensures var r := RunSteps(VersionStepper(s, registry), CacheState(versions, [], {}), jobs);
      versions.Keys <= r.state.versions.Keys
    decreases |jobs|
  {
    if jobs != [] {
      var init := jobs[..|jobs| - 1];
      VersionRunCachesAll(s, registry, versions, init);
      var r := RunSteps(VersionStepper(s, registry), CacheState(versions, [], {}), jobs);
      if r.ok {
        forall j | 0 <= j < |jobs| ensures jobs[j].0.packageName in r.state.versions {
          if j < |jobs| - 1 {
            assert init[j] == jobs[j];
          }
        }
      }
    }
  }

  /** Lemma: after a successful `UpdateAllManifestsAsync` every configured
      package name has a cached version, and no version cached before was
      replaced. */
  lemma {:induction false} ManifestRunCachesAll(s: YooAssetSettings, registry: map<string, PackageStatus>,
                                                versions: map<string, string>, jobs: seq<(PackageConfig, ManifestOracle)>)
    ensures var r := RunSteps(ManifestStepper(s, registry), CacheState(versions, [], {}), jobs);
      r.ok ==> forall j :: 0 <= j < |jobs| ==> jobs[j].0.packageName in r.state.versions
    ensures var r := RunSteps(ManifestStepper(s, registry), CacheState(versions, [], {}), jobs);
      forall k :: k in versions ==> k in r.state.versions && r.state.versions[k] == versions[k]
    decreases |jobs|
  {
    if jobs != [] {
      var init := jobs[..|jobs| - 1];
      ManifestRunCachesAll(s, registry, versions, init);
      var r := RunSteps(ManifestStepper(s, registry), CacheState(versions, [], {}), jobs);
      if r.ok {
        forall j | 0 <= j < |jobs| ensures jobs[j].0.packageName in r.state.versions {
          if j < |jobs| - 1 {
            assert init[j] == jobs[j];
          }
        }
      }
    }
  }

  // ---------------------------------------------------------------------------
  // Size queries

  /** `GetDownloadInfo(tags, name)`: (0, 0) unless the package exists, is
      initialized and the library answers the query. */
  function DownloadInfo(settings: Option<YooAssetSettings>, registry: map<string, PackageStatus>,
                        name: Option<string>, probe: Probe<Scan>): (r: (int, int))
    ensures !IsReady(settings, registry, name) || probe.Threw? ==> r == (0, 0)
    ensures IsReady(settings, registry, name) && probe.Answered? ==> r == (probe.answer.count, probe.answer.bytes)
  {
    if !IsReady(settings, registry, name) then (0, 0)
    else match probe
      case Threw => (0, 0)
      case Answered(scan) => (scan.count, scan.bytes)
  }

  // ---------------------------------------------------------------------------
  // The service

  class YooService {
    const lib: YooAssets
    var packages: set<string>
    var versions: map<string, string>
    var settings: Option<YooAssetSettings>
    var initialized: bool

    /** Every cached package is one the library holds (packages are never destroyed). */
    ghost predicate Valid()
      reads this, lib
    {
      packages <= lib.packages.Keys
    }

    constructor (lib: YooAssets)
      ensures this.lib == lib && Valid()
      ensures packages == {} && versions == map[] && settings == None && !initialized
    {
      this.lib := lib;
      packages := {};
      versions := map[];
      settings := None;
      initialized := false;
    }

    /** `Initialize(settings)`: only the first call has an effect. */
    method Initialize(s: YooAssetSettings)
      requires Valid()
      modifies this, lib
      ensures Valid()
      ensures old(initialized) ==> settings == old(settings) && lib.initialized == old(lib.initialized)
      ensures !old(initialized) ==> settings == Some(s) && lib.initialized
      ensures initialized
      ensures packages == old(packages) && versions == old(versions)
      ensures lib.packages == old(lib.packages) && lib.trace == old(lib.trace) && lib.defaultPackage == old(lib.defaultPackage)
      ensures lib.created == old(lib.created) && lib.finished == old(lib.finished)
    {
      if initialized { return; }
      settings := Some(s);
      lib.Initialize();
      initialized := true;
    }

    /** `GetPackage(name)`: the library's package of the resolved name, served
        from the cache when present and cached when found. The cache never
        changes the answer. */
    method GetPackage(name: Option<string>) returns (r: Option<string>)
      requires Valid()
      modifies this
      ensures Valid()
      ensures r == LookupPackage(settings, lib.packages, name)
      ensures packages == old(packages) + Filled(r)
      ensures versions == old(versions) && settings == old(settings) && initialized == old(initialized)
    {
      var n := ResolveName(settings, name);
      if n.None? { return None; }
      if n.value in packages { return Some(n.value); }
      r := lib.TryGetPackage(n.value);
      if r.Some? {
        packages := packages + {n.value};
      }
    }

    /** `IsPackageInitialized(name)`. */
    method IsPackageInitialized(name: Option<string>) returns (r: bool)
      requires Valid()
      modifies this
      ensures Valid()
      ensures r == IsReady(settings, lib.packages, name)
      ensures packages == old(packages) + Filled(LookupPackage(settings, lib.packages, name))
      ensures versions == old(versions) && settings == old(settings) && initialized == old(initialized)
    {
      var p := GetPackage(name);
      r := p.Some? && lib.packages[p.value] == Succeed;
    }

    /** `GetPackageConfig(name)`: a linear search of the configured packages. */
    method GetPackageConfig(name: Option<string>) returns (r: Option<PackageConfig>)
      ensures r == PackageConfigFor(settings, name)
    {
      if settings.None? { return None; }
      var key := if name.Some? then name.value else DefaultPackageName(settings.value);
      var cfgs := Packages(settings.value);
      var i := 0;
      while i < |cfgs|
        invariant 0 <= i <= |cfgs|
        invariant forall j :: 0 <= j < i ==> cfgs[j].packageName != key
      {
        if cfgs[i].packageName == key {
          return Some(cfgs[i]);
        }
        i := i + 1;
      }
      return None;
    }

    /** `InitPackageInternalAsync(cfg)`. */
    method InitPackageInternal(cfg: PackageConfig, o: InitOracle) returns (ok: bool)
      requires Valid() && settings.Some?
      modifies this, lib
      ensures Valid() && settings == old(settings)
      ensures var st := InitStep(settings.value, old(lib.packages), cfg, o);
        ok == st.ok && lib.packages == st.registry && lib.trace == old(lib.trace) + st.calls
      ensures packages == old(packages) + {cfg.packageName}
      ensures versions == old(versions) && settings == old(settings) && initialized == old(initialized)
      ensures lib.initialized == old(lib.initialized) && lib.defaultPackage == old(lib.defaultPackage)
      ensures lib.created == old(lib.created) && lib.finished == old(lib.finished)
    {
      var name := cfg.packageName;
      var existing := lib.TryGetPackage(name);
      if existing.None? {
        lib.CreatePackage(name);
      }
      packages := packages + {name};
      if lib.packages[name] == Succeed {
        return true;
      }
      var params := InitParamsFor(settings.value, cfg, o.simulateBuilt);
      if params.None? {
        return PlayMode(settings.value) == EditorSimulateMode;
      }
      var result := lib.InitializePackage(name, params.value, o.result);
      ok := result.Succeeded?;
    }

    /** `InitPackageAsync(name)`: initializes the configuration of that name, or
        returns false when there is none. */
    method InitPackage(name: Option<string>, o: InitOracle) returns (ok: bool)
      requires Valid()
      modifies this, lib
      ensures Valid() && settings == old(settings)
      ensures PackageConfigFor(settings, name).None? ==>
                !ok && packages == old(packages) && lib.packages == old(lib.packages) && lib.trace == old(lib.trace)
      ensures PackageConfigFor(settings, name).Some? ==>
                var cfg := PackageConfigFor(settings, name).value;
                var st := InitStep(settings.value, old(lib.packages), cfg, o);
                ok == st.ok && lib.packages == st.registry && lib.trace == old(lib.trace) + st.calls
                && packages == old(packages) + {cfg.packageName}
      ensures versions == old(versions) && settings == old(settings) && initialized == old(initialized)
      ensures lib.initialized == old(lib.initialized) && lib.defaultPackage == old(lib.defaultPackage)
      ensures lib.created == old(lib.created) && lib.finished == old(lib.finished)
    {
      var cfg := GetPackageConfig(name);
      if cfg.None? {
        return false;
      }
      ok := InitPackageInternal(cfg.value, o);
    }

    /** The loop of `InitAllPackagesAsync`: `cfgs` in order, each with its
        oracle, stopping at the first failure. */
    method InitEach(cfgs: seq<PackageConfig>, os: seq<InitOracle>) returns (ok: bool)
      requires Valid() && settings.Some? && |os| == |cfgs|
      modifies this, lib
      ensures Valid() && settings == old(settings)
      ensures var run := RunSteps(InitStepper(settings.value), InitState(old(lib.packages), [], {}), Zip(cfgs, os));
        && ok == run.ok
        && lib.packages == run.state.registry
        && lib.trace == old(lib.trace) + run.state.calls
        && packages == old(packages) + run.state.registered
      ensures versions == old(versions) && initialized == old(initialized)
      ensures lib.initialized == old(lib.initialized) && lib.defaultPackage == old(lib.defaultPackage)
      ensures lib.created == old(lib.created) && lib.finished == old(lib.finished)
    {
      var s := settings.value;
      ghost var jobs := Zip(cfgs, os);
      ghost var start := InitState(lib.packages, [], {});
      var i := 0;
      while i < |cfgs|
        invariant 0 <= i <= |cfgs|
        invariant Valid() && settings == Some(s)
        invariant var run := RunSteps(InitStepper(s), start, jobs[..i]);
          && run.ok
          && lib.packages == run.state.registry
          && lib.trace == old(lib.trace) + run.state.calls
          && packages == old(packages) + run.state.registered
        invariant versions == old(versions) && initialized == old(initialized)
        invariant lib.initialized == old(lib.initialized) && lib.defaultPackage == old(lib.defaultPackage)
        invariant lib.created == old(lib.created) && lib.finished == old(lib.finished)
      {
        ghost var pre := RunSteps(InitStepper(s), start, jobs[..i]);
        ghost var r := InitStep(s, lib.packages, cfgs[i], os[i]);
        var stepOk := InitPackageInternal(cfgs[i], os[i]);
        AppendAssoc(old(lib.trace), pre.state.calls, r.calls);
        RunStepsSnoc(InitStepper(s), start, jobs, i);
        assert RunSteps(InitStepper(s), start, jobs[..i + 1]) == InitStepper(s)(pre.state, (cfgs[i], os[i]));
        if !stepOk {
          RunStepsFailureIsFinal(InitStepper(s), start, jobs, i + 1);
          assert jobs[..|jobs|] == jobs;
          return false;
        }
        i := i + 1;
      }
      assert jobs[..|cfgs|] == jobs;
      return true;
    }

    /** `InitAllPackagesAsync()`: false without configured packages; otherwise
        the packages in order, stopping at the first failure, and only when all
        succeed is the default package handed to the library. */
    method InitAllPackages(os: seq<InitOracle>) returns (ok: bool)
      requires Valid()
      requires settings.Some? ==> |os| == |Packages(settings.value)|
      modifies this, lib
      ensures Valid() && settings == old(settings)
      ensures settings.None? || Packages(settings.value) == [] ==>
                !ok && packages == old(packages) && lib.packages == old(lib.packages)
                && lib.trace == old(lib.trace) && lib.defaultPackage == old(lib.defaultPackage)
      ensures settings.Some? && Packages(settings.value) != [] ==>
                var s := settings.value;
                var run := InitAll(s, old(lib.packages), Packages(s), os);
                && ok == run.ok
                && lib.packages == run.state.registry
                && lib.trace == old(lib.trace) + run.state.calls
                && packages == old(packages) + run.state.registered
                && lib.defaultPackage == (if run.ok && DefaultPackageName(s) != "" then Some(DefaultPackageName(s))
                                          else old(lib.defaultPackage))
      ensures versions == old(versions) && settings == old(settings) && initialized == old(initialized)
      ensures lib.initialized == old(lib.initialized) && lib.created == old(lib.created) && lib.finished == old(lib.finished)
    {
      if settings.None? || |Packages(settings.value)| == 0 {
        return false;
      }
      var s := settings.value;
      var cfgs := Packages(s);
      ok := InitEach(cfgs, os);
      if !ok {
        return false;
      }
      InitRunRegisters(s, old(lib.packages), Zip(cfgs, os));
      assert Zip(cfgs, os)[0].0 == cfgs[0];
      var defaultPkg := GetPackage(Some(DefaultPackageName(s)));
      if defaultPkg.Some? {
        lib.SetDefaultPackage(defaultPkg.value);
      }
      return true;
    }

    /** `UpdateVersionAsync(name)`. */
    method UpdateVersion(name: Option<string>, o: VersionOp) returns (ok: bool, version: Option<string>)
      requires Valid()
      modifies this, lib
      ensures Valid()
      ensures var r := VersionStep(settings, old(lib.packages), old(versions), name, o);
        ok == r.ok && version == r.version && versions == r.versions
        && lib.trace == old(lib.trace) + r.calls && packages == old(packages) + r.filled
      ensures settings == old(settings) && initialized == old(initialized)
      ensures lib.packages == old(lib.packages) && lib.initialized == old(lib.initialized)
      ensures lib.defaultPackage == old(lib.defaultPackage) && lib.created == old(lib.created) && lib.finished == old(lib.finished)
    {
      var p := GetPackage(name);
      if p.None? {
        return false, None;
      }
      var r := lib.RequestPackageVersion(p.value, o);
      if r.VersionErrored? {
        return false, None;
      }
      versions := versions[VersionKey(settings, name) := r.version];
      return true, Some(r.version);
    }

    /** `UpdateAllVersionsAsync()`: every configured package in order, stopping
        at the first failure. */
    method UpdateAllVersions(os: seq<VersionOp>) returns (ok: bool)
      requires Valid() && settings.Some? && |os| == |Packages(settings.value)|
      modifies this, lib
      ensures Valid() && settings == old(settings)
      ensures var run := RunSteps(VersionStepper(settings.value, lib.packages),
                                  CacheState(old(versions), [], {}), Zip(Packages(settings.value), os));
        ok == run.ok && versions == run.state.versions
        && lib.trace == old(lib.trace) + run.state.calls && packages == old(packages) + run.state.filled
      ensures settings == old(settings) && initialized == old(initialized)
      ensures lib.packages == old(lib.packages) && lib.initialized == old(lib.initialized)
      ensures lib.defaultPackage == old(lib.defaultPackage) && lib.created == old(lib.created) && lib.finished == old(lib.finished)
    {
      var s := settings.value;
      var cfgs := Packages(s);
      ghost var jobs := Zip(cfgs, os);
      ghost var stepper := VersionStepper(s, lib.packages);
      ghost var start := CacheState(versions, [], {});
      var i := 0;
      ok := true;
      while i < |cfgs| && ok
        invariant 0 <= i <= |cfgs|
        invariant Valid() && settings == Some(s)
        invariant var run := RunSteps(stepper, start, jobs[..i]);
          ok == run.ok && versions == run.state.versions
          && lib.trace == old(lib.trace) + run.state.calls && packages == old(packages) + run.state.filled
        invariant initialized == old(initialized)
        invariant lib.packages == old(lib.packages) && lib.initialized == old(lib.initialized)
        invariant lib.defaultPackage == old(lib.defaultPackage) && lib.created == old(lib.created)
        invariant lib.finished == old(lib.finished)
      {
        ghost var pre := RunSteps(stepper, start, jobs[..i]);
        ghost var r := VersionStep(settings, lib.packages, versions, Some(cfgs[i].packageName), os[i]);
        var stepOk, _ := UpdateVersion(Some(cfgs[i].packageName), os[i]);
        AppendAssoc(old(lib.trace), pre.state.calls, r.calls);
        VersionRunSnoc(s, old(lib.packages), start, cfgs, os, i);
        ok := stepOk;
        i := i + 1;
      }
      if !ok {
        RunStepsFailureIsFinal(stepper, start, jobs, i);
      }
      assert jobs[..|jobs|] == jobs;
    }

    /** `UpdateManifestAsync(name)`. */
    method UpdateManifest(name: Option<string>, o: ManifestOracle) returns (ok: bool)
      requires Valid()
      modifies this, lib
      ensures Valid()
      ensures var r := ManifestStep(settings, old(lib.packages), old(versions), name, o);
        ok == r.ok && versions == r.versions
        && lib.trace == old(lib.trace) + r.calls && packages == old(packages) + r.filled
      ensures settings == old(settings) && initialized == old(initialized)
      ensures lib.packages == old(lib.packages) && lib.initialized == old(lib.initialized)
      ensures lib.defaultPackage == old(lib.defaultPackage) && lib.created == old(lib.created) && lib.finished == old(lib.finished)
    {
      var p := GetPackage(name);
      if p.None? {
        return false;
      }
      var key := VersionKey(settings, name);
      var version: string;
      if key in versions {
        version := versions[key];
      } else {
        var v := lib.RequestPackageVersion(p.value, o.version);
        if v.VersionErrored? {
          return false;
        }
        version := v.version;
        versions := versions[key := version];
      }
      var r := lib.UpdatePackageManifest(p.value, version, o.manifest);
      ok := r.Succeeded?;
    }

    /** `UpdateAllManifestsAsync()`: every configured package in order, stopping
        at the first failure. */
    method UpdateAllManifests(os: seq<ManifestOracle>) returns (ok: bool)
      requires Valid() && settings.Some? && |os| == |Packages(settings.value)|
      modifies this, lib
      ensures Valid() && settings == old(settings)
      ensures var run := RunSteps(ManifestStepper(settings.value, lib.packages),
                                  CacheState(old(versions), [], {}), Zip(Packages(settings.value), os));
        ok == run.ok && versions == run.state.versions
        && lib.trace == old(lib.trace) + run.state.calls && packages == old(packages) + run.state.filled
      ensures settings == old(settings) && initialized == old(initialized)
      ensures lib.packages == old(lib.packages) && lib.initialized == old(lib.initialized)
      ensures lib.defaultPackage == old(lib.defaultPackage) && lib.created == old(lib.created) && lib.finished == old(lib.finished)
    {
      var s := settings.value;
      var cfgs := Packages(s);
      ghost var jobs := Zip(cfgs, os);
      ghost var stepper := ManifestStepper(s, lib.packages);
      ghost var start := CacheState(versions, [], {});
      var i := 0;
      ok := true;
      while i < |cfgs| && ok
        invariant 0 <= i <= |cfgs|
        invariant Valid() && settings == Some(s)
        invariant var run := RunSteps(stepper, start, jobs[..i]);
          ok == run.ok && versions == run.state.versions
          && lib.trace == old(lib.trace) + run.state.calls && packages == old(packages) + run.state.filled
        invariant initialized == old(initialized)
        invariant lib.packages == old(lib.packages) && lib.initialized == old(lib.initialized)
        invariant lib.defaultPackage == old(lib.defaultPackage) && lib.created == old(lib.created)
        invariant lib.finished == old(lib.finished)
      {
        ghost var pre := RunSteps(stepper, start, jobs[..i]);
        ghost var r := ManifestStep(settings, lib.packages, versions, Some(cfgs[i].packageName), os[i]);
        var stepOk := UpdateManifest(Some(cfgs[i].packageName), os[i]);
        AppendAssoc(old(lib.trace), pre.state.calls, r.calls);
        ManifestRunSnoc(s, old(lib.packages), start, cfgs, os, i);
        ok := stepOk;
        i := i + 1;
      }
      if !ok {
        RunStepsFailureIsFinal(stepper, start, jobs, i);
      }
      assert jobs[..|jobs|] == jobs;
    }

    /** `GetCachedVersion(name)`: the version cached under the name, or under
        the default package name for a null name. */
    function CachedVersion(name: Option<string>): (r: Option<string>)
      requires name.Some? || settings.Some?
      reads this
      ensures r.Some? <==> VersionKey(settings, name) in versions
      ensures r.Some? ==> r.value == versions[VersionKey(settings, name)]
    {
      var key := VersionKey(settings, name);
      if key in versions then Some(versions[key]) else None
    }

    /** `CreateDownloaderByTags` / `CreateDownloaderByPaths`: a downloader for the
        package with the configured concurrency and retries, or null when the
        package is missing. */
    method CreateDownloader(name: Option<string>, selection: Selection, scan: Scan) returns (d: Option<Downloader>)
      requires Valid()
      requires selection.ByTags? || selection.ByPaths?
      requires LookupPackage(settings, lib.packages, name).Some? ==> settings.Some?
      modifies this, lib
      ensures Valid() && settings == old(settings)
      ensures LookupPackage(settings, old(lib.packages), name).None? ==>
                d.None? && lib.trace == old(lib.trace) && lib.created == old(lib.created)
      ensures LookupPackage(settings, old(lib.packages), name).Some? ==>
                var p := LookupPackage(settings, old(lib.packages), name).value;
                var s := settings.value;
                && d.Some? && fresh(d.value) && d.value.package == p && d.value.selection == selection
                && d.value.maxConcurrent == DownloadingMaxNum(s) && d.value.retries == FailedTryAgain(s)
                && d.value.totalCount == scan.count && d.value.totalBytes == scan.bytes
                && lib.created == old(lib.created) + 1
                && lib.trace == old(lib.trace) + [CreateCall(old(lib.created), p, selection,
                                                             DownloadingMaxNum(s), FailedTryAgain(s))]
      ensures packages == old(packages) + Filled(LookupPackage(settings, old(lib.packages), name))
      ensures versions == old(versions) && settings == old(settings) && initialized == old(initialized)
      ensures lib.packages == old(lib.packages) && lib.initialized == old(lib.initialized)
      ensures lib.defaultPackage == old(lib.defaultPackage) && lib.finished == old(lib.finished)
    {
      var p := GetPackage(name);
      if p.None? {
        return None;
      }
      var created := lib.NewDownloader(p.value, selection, DownloadingMaxNum(settings.value),
                                       FailedTryAgain(settings.value), scan);
      return Some(created);
    }

    /** What a size query changes: a probe downloader with concurrency and
        retries 1, created (and never begun) only for an initialized package
        whose query answers; the looked-up package is cached; nothing else
        changes. */
    twostate predicate Probed(tags: seq<string>, name: Option<string>, probe: Probe<Scan>)
      reads this, lib
    {
      var found := LookupPackage(settings, old(lib.packages), name);
      && (IsReady(settings, old(lib.packages), name) && probe.Answered? ==>
            && lib.created == old(lib.created) + 1
            && lib.trace == old(lib.trace) + [CreateCall(old(lib.created), found.value, ByTags(tags), 1, 1)])
      && (!(IsReady(settings, old(lib.packages), name) && probe.Answered?) ==>
            lib.created == old(lib.created) && lib.trace == old(lib.trace))
      && packages == old(packages) + Filled(found)
      && versions == old(versions) && settings == old(settings) && initialized == old(initialized)
      && lib.packages == old(lib.packages) && lib.initialized == old(lib.initialized)
      && lib.defaultPackage == old(lib.defaultPackage) && lib.finished == old(lib.finished)
    }

    /** `GetDownloadInfo(tags, name)`: a probe downloader with concurrency and
        retries 1, made only for an initialized package, and never begun. */
    method GetDownloadInfo(tags: seq<string>, name: Option<string>, probe: Probe<Scan>) returns (count: int, bytes: int)
      requires Valid()
      modifies this, lib
      ensures Valid()
      ensures (count, bytes) == DownloadInfo(settings, old(lib.packages), name, probe)
      ensures Probed(tags, name, probe)
    {
      var p := GetPackage(name);
      if p.None? || lib.packages[p.value] != Succeed {
        return 0, 0;
      }
      if probe.Threw? {
        return 0, 0;
      }
      var d := lib.NewDownloader(p.value, ByTags(tags), 1, 1, probe.answer);
      return d.totalCount, d.totalBytes;
    }

    /** `NeedDownload(tags, name)`: the query found at least one file. */
    method NeedDownload(tags: seq<string>, name: Option<string>, probe: Probe<Scan>) returns (r: bool)
      requires Valid()
      modifies this, lib
      ensures Valid()
      ensures r <==> DownloadInfo(settings, old(lib.packages), name, probe).0 > 0
      ensures Probed(tags, name, probe)
    {
      var count, _ := GetDownloadInfo(tags, name, probe);
      r := count > 0;
    }
  }
}
