/** YooAssetResourceSystem: a single-package hot-update flow. It drives the
    default package through initialization, a version request, a manifest
    update and an optional download by tags, recording the stage it is in as
    `State` and the error of a failing stage as `ErrorMessage`. */
module ResourceSystem {
  import opened Common
  import opened Settings
  import opened Library
  import opened Download

  /** `HotUpdateState`. */
  datatype HotUpdateState = Idle | InitPackage | UpdateVersion | UpdateManifest | CreateDownloader | Downloading | Done | Failed

  /** The stages of a full run, in the order they are entered. */
  const Pipeline: seq<HotUpdateState> := [InitPackage, UpdateVersion, UpdateManifest, CreateDownloader, Downloading]

  /** The initialization parameters of `InitPackageAsync`: the play mode's, with
      remote services over the global server URLs; none for an unlisted mode. */
  function InitParamsFor(s: YooAssetSettings): (r: Option<InitParams>)
    ensures r.None? <==> PlayMode(s).UnlistedMode?
    ensures r == Some(EditorSimulateParams) <==> PlayMode(s) == EditorSimulateMode
    ensures r == Some(OfflineParams) <==> PlayMode(s) == OfflinePlayMode
    ensures r.Some? && r.value.HostParams? <==> PlayMode(s) == HostPlayMode
    ensures r.Some? && r.value.WebParams? <==> PlayMode(s) == WebPlayMode
    ensures r.Some? && (r.value.HostParams? || r.value.WebParams?) ==>
              r.value.remote == CollapsingRemote(HostServerURL(s), FallbackHostServerURL(s))
  {
    var remote := CollapsingRemote(HostServerURL(s), FallbackHostServerURL(s));
    match PlayMode(s)
    case EditorSimulateMode => Some(EditorSimulateParams)
    case OfflinePlayMode => Some(OfflineParams)
    case HostPlayMode => Some(HostParams(remote))
    case WebPlayMode => Some(WebParams(remote))
    case UnlistedMode(_) => None
  }

  /** The library's package table after `InitPackageAsync`: the package exists
      (created when missing) and, when an operation ran, has its status. */
  function InitRegistry(registry: map<string, PackageStatus>, name: string, params: Option<InitParams>, init: Op)
    : (r: map<string, PackageStatus>)
    ensures r.Keys == registry.Keys + {name}
    ensures params.Some? ==> r[name] == (if init.Succeeded? then Succeed else PackageStatus.Failed)
    ensures params.None? && name in registry ==> r[name] == registry[name]
  {
    var reg := if name in registry then registry else registry[name := NotInitialized];
    if params.None? then reg else reg[name := if init.Succeeded? then Succeed else PackageStatus.Failed]
  }

  /** Initializing one package leaves every other package's status as it was. */
  lemma InitRegistryKeepsOthers(registry: map<string, PackageStatus>, name: string, params: Option<InitParams>, init: Op, n: string)
    requires n in registry && n != name
    ensures InitRegistry(registry, name, params, init)[n] == registry[n]
  {
  }

  /** The settings the download stages read: the configured concurrency and
      retries, and the obsolete `autoDownloadTags` of the first package. */
  datatype RunSettings = RunSettings(maxConcurrent: int, retries: int, autoTags: Option<seq<string>>)

  function RunSettingsOf(s: YooAssetSettings): RunSettings {
    RunSettings(DownloadingMaxNum(s), FailedTryAgain(s), AutoDownloadTags(s))
  }

  /** The tags `RunFullUpdateAsync` downloads: the given ones, or the settings'
      obsolete `autoDownloadTags`. */
  function TagsFor(c: RunSettings, downloadTags: Option<seq<string>>): Option<seq<string>> {
    if downloadTags.Some? then downloadTags else c.autoTags
  }

  /** The outcomes of every library operation a full run may await. */
  datatype RunOracle = RunOracle(init: Op, version: VersionOp, manifestVersion: VersionOp, manifest: Op,
                                 scan: Scan, reports: seq<Report>, download: Op)

  /** What a full run does: its result, the states it passes through, the
      error message, the library calls, the version, the id of the downloader
      it ran (if any), the monitor events and the progress it leaves. */
  datatype Outcome = Outcome(ok: bool, stages: seq<HotUpdateState>, error: Option<string>, calls: seq<Call>,
                             version: Option<string>, created: nat, downloader: Option<nat>,
                             monitor: seq<MonitorEvent>, progress: DownloadProgress)

  /** A run's outcome with `stages` and `calls` already behind it. */
  function After(stages: seq<HotUpdateState>, calls: seq<Call>, r: Outcome): (a: Outcome)
    ensures a.stages == stages + r.stages && a.calls == calls + r.calls
    ensures a.(stages := r.stages, calls := r.calls) == r
  {
    r.(stages := stages + r.stages, calls := calls + r.calls)
  }

  /** The download stages of a run, after a manifest update with version `v`:
      a downloader by tags only for non-empty tags, and a download only when
      it finds files. */
  function DownloadPart(c: RunSettings, name: string, v: string, error: Option<string>, progress: DownloadProgress,
                        id: nat, tags: Option<seq<string>>, o: RunOracle): (r: Outcome)
    ensures r.stages != []
  {
    if tags.None? || |tags.value| == 0 then
      Outcome(true, [Done], error, [], Some(v), 0, None, [], progress)
    else
      var create := [CreateCall(id, name, ByTags(tags.value), c.maxConcurrent, c.retries)];
      if o.scan.count <= 0 then
        Outcome(true, [CreateDownloader, Done], error, create, Some(v), 1, None, [], progress)
      else
        var seen := MonitorEvents(o.reports);
        var last := LastProgress(progress, o.reports);
        if o.download.Errored? then
          Outcome(false, [CreateDownloader, Downloading, HotUpdateState.Failed], Some(o.download.error),
                  create + [BeginCall(id)], Some(v), 1, Some(id), seen, last)
        else
          Outcome(true, [CreateDownloader, Downloading, Done], error,
                  create + [BeginCall(id)], Some(v), 1, Some(id), seen + [DownloadComplete], last)
  }

  /** The version and manifest stages of a run: the version, then the
      manifest, requesting the version again when the one fetched is empty. */
  function UpdatePart(name: string, version: Option<string>, error: Option<string>, progress: DownloadProgress,
                      o: RunOracle): (r: Outcome)
    // no downloader runs and no event is raised; the progress is kept
    ensures r.stages != [] && r.created == 0 && r.downloader.None? && r.monitor == [] && r.progress == progress
    // success keeps the error message and leaves a version
    ensures r.ok ==> r.error == error && r.version.Some?
  {
    if o.version.VersionErrored? then
      Outcome(false, [UpdateVersion, HotUpdateState.Failed], Some(o.version.error), [VersionCall(name)],
              version, 0, None, [], progress)
    else
      var v1 := o.version.version;
      if v1 == "" && o.manifestVersion.VersionErrored? then
        Outcome(false, [UpdateVersion, UpdateManifest, HotUpdateState.Failed], Some(o.manifestVersion.error),
                [VersionCall(name), VersionCall(name)], Some(v1), 0, None, [], progress)
      else
        var v2 := if v1 == "" then o.manifestVersion.version else v1;
        var calls := [VersionCall(name)] + (if v1 == "" then [VersionCall(name)] else []) + [ManifestCall(name, v2)];
        if o.manifest.Errored? then
          Outcome(false, [UpdateVersion, UpdateManifest, HotUpdateState.Failed], Some(o.manifest.error),
                  calls, Some(v2), 0, None, [], progress)
        else
          Outcome(true, [UpdateVersion, UpdateManifest], error, calls, Some(v2), 0, None, [], progress)
  }

  /** The `HostPlayMode` stages of a run, after a successful initialization:
      the version and manifest stages, then, when they succeed, the download
      stages with the version the manifest was updated to. */
  function HostPart(c: RunSettings, name: string, version: Option<string>, error: Option<string>,
                    progress: DownloadProgress, id: nat, downloadTags: Option<seq<string>>, o: RunOracle): (r: Outcome)
    ensures r.stages != []
  {
    var u := UpdatePart(name, version, error, progress, o);
    if !u.ok || u.version.None? then u
    else After(u.stages, u.calls, DownloadPart(c, name, u.version.value, error, progress, id, TagsFor(c, downloadTags), o))
  }

  /** `RunFullUpdateAsync(downloadTags)`: initialization of the default package,
      then, in `HostPlayMode` only, the host stages. The run starts from a
      state whose version, error message and progress are `version`, `error`
      and `progress`, with `id` the library's next downloader id. */
  function FullUpdate(s: YooAssetSettings, version: Option<string>, error: Option<string>, progress: DownloadProgress,
                      id: nat, downloadTags: Option<seq<string>>, o: RunOracle): Outcome
  {
    var name := DefaultPackageName(s);
    match InitParamsFor(s)
    case None => Outcome(false, [InitPackage, HotUpdateState.Failed], Some("Invalid play mode"), [], version, 0, None, [], progress)
    case Some(p) =>
      if o.init.Errored? then
        Outcome(false, [InitPackage, HotUpdateState.Failed], Some(o.init.error), [InitCall(name, p)], version, 0, None, [], progress)
      else if PlayMode(s) != HostPlayMode then
        Outcome(true, [InitPackage, Done], error, [InitCall(name, p)], version, 0, None, [], progress)
      else
        After([InitPackage], [InitCall(name, p)], HostPart(RunSettingsOf(s), name, version, error, progress, id, downloadTags, o))
  }

  /** The part of `FullUpdate` after a successful initialization of the
      default package. */
  function AfterInitPart(s: YooAssetSettings, name: string, version: Option<string>, error: Option<string>, progress: DownloadProgress,
                         id: nat, downloadTags: Option<seq<string>>, o: RunOracle): Outcome
  {
    if PlayMode(s) != HostPlayMode then Outcome(true, [Done], error, [], version, 0, None, [], progress)
    else HostPart(RunSettingsOf(s), name, version, error, progress, id, downloadTags, o)
  }

  /** The states `r` passes through are the stages of the pipeline from
      position `from` on, in order, followed by `Done` exactly when it
      succeeds and by `Failed` otherwise. */
  predicate FollowsPipeline(r: Outcome, from: nat) {
    && 1 <= |r.stages| && from + |r.stages| <= |Pipeline| + 1
    && r.stages[|r.stages| - 1] == (if r.ok then Done else HotUpdateState.Failed)
    && r.stages[..|r.stages| - 1] == Pipeline[from..from + |r.stages| - 1]
  }

  /** Putting the pipeline stages just before `from` in front of a run that
      follows the pipeline from `from` gives a run that follows it from
      earlier on. */
  lemma AfterFollowsPipeline(pre: seq<HotUpdateState>, calls: seq<Call>, r: Outcome, from: nat)
    requires |pre| <= from <= |Pipeline| && pre == Pipeline[from - |pre|..from]
    requires FollowsPipeline(r, from)
    ensures FollowsPipeline(After(pre, calls, r), from - |pre|)
  {
    var a := After(pre, calls, r);
    var n := |r.stages|;
    assert a.stages[..|a.stages| - 1] == pre + r.stages[..n - 1];
    assert Pipeline[from - |pre|..from + n - 1] == Pipeline[from - |pre|..from] + Pipeline[from..from + n - 1];
  }

  /** Lemma: the download stages follow the pipeline from `CreateDownloader`. */
  lemma DownloadPartFollowsPipeline(c: RunSettings, name: string, v: string, error: Option<string>,
                                    progress: DownloadProgress, id: nat, tags: Option<seq<string>>, o: RunOracle)
    ensures FollowsPipeline(DownloadPart(c, name, v, error, progress, id, tags, o), 3)
  {
    var d := DownloadPart(c, name, v, error, progress, id, tags, o);
    assert Pipeline[3..3] == [] && Pipeline[3..4] == [CreateDownloader] && Pipeline[3..5] == [CreateDownloader, Downloading];
    if tags.Some? && |tags.value| > 0 && o.scan.count > 0 {
      assert d.stages[..2] == [CreateDownloader, Downloading];
    } else if tags.Some? && |tags.value| > 0 {
      assert d.stages[..1] == [CreateDownloader];
    }
  }

  /** A host run that fails before its download stages: at the version or at
      the manifest. */
  lemma HostPartEarlyFailureFollowsPipeline(c: RunSettings, name: string, version: Option<string>,
                                            error: Option<string>, progress: DownloadProgress, id: nat,
                                            downloadTags: Option<seq<string>>, o: RunOracle)
    requires o.version.VersionErrored? || (o.version.version == "" && o.manifestVersion.VersionErrored?)
             || o.manifest.Errored?
    ensures FollowsPipeline(HostPart(c, name, version, error, progress, id, downloadTags, o), 1)
  {
    var h := HostPart(c, name, version, error, progress, id, downloadTags, o);
    var u := UpdatePart(name, version, error, progress, o);
    assert h == u;
    if o.version.VersionErrored? {
      assert u.stages == [UpdateVersion, HotUpdateState.Failed];
      assert u.stages[..1] == [UpdateVersion] == Pipeline[1..2];
    } else {
      assert u.stages == [UpdateVersion, UpdateManifest, HotUpdateState.Failed];
      assert u.stages[..2] == [UpdateVersion, UpdateManifest] == Pipeline[1..3];
    }
  }

  /** Lemma: the `HostPlayMode` stages follow the pipeline from `UpdateVersion`. */
  lemma HostPartFollowsPipeline(c: RunSettings, name: string, version: Option<string>, error: Option<string>,
                                progress: DownloadProgress, id: nat, downloadTags: Option<seq<string>>, o: RunOracle)
    ensures FollowsPipeline(HostPart(c, name, version, error, progress, id, downloadTags, o), 1)
  {
    if o.version.VersionErrored? || (o.version.version == "" && o.manifestVersion.VersionErrored?)
       || o.manifest.Errored? {
      HostPartEarlyFailureFollowsPipeline(c, name, version, error, progress, id, downloadTags, o);
    } else {
      var v2 := if o.version.version == "" then o.manifestVersion.version else o.version.version;
      DownloadPartFollowsPipeline(c, name, v2, error, progress, id, TagsFor(c, downloadTags), o);
      var calls := [VersionCall(name)] + (if o.version.version == "" then [VersionCall(name)] else []) + [ManifestCall(name, v2)];
      AfterFollowsPipeline([UpdateVersion, UpdateManifest], calls,
                           DownloadPart(c, name, v2, error, progress, id, TagsFor(c, downloadTags), o), 3);
    }
  }

  /** Lemma: a run ends in `Done` exactly when it returns true and in `Failed`
      otherwise, and the states it passed through before are the leading
      stages of the pipeline, in order. */
  lemma FullUpdateStages(s: YooAssetSettings, version: Option<string>, error: Option<string>, progress: DownloadProgress,
                         id: nat, downloadTags: Option<seq<string>>, o: RunOracle)
    ensures var r := FullUpdate(s, version, error, progress, id, downloadTags, o);
      && 2 <= |r.stages| <= |Pipeline| + 1
      && r.stages[|r.stages| - 1] == (if r.ok then Done else HotUpdateState.Failed)
      && r.stages[..|r.stages| - 1] == Pipeline[..|r.stages| - 1]
  {
    var r := FullUpdate(s, version, error, progress, id, downloadTags, o);
    var name := DefaultPackageName(s);
    if InitParamsFor(s).Some? && o.init.Succeeded? && PlayMode(s) == HostPlayMode {
      HostPartFollowsPipeline(RunSettingsOf(s), name, version, error, progress, id, downloadTags, o);
      var h := HostPart(RunSettingsOf(s), name, version, error, progress, id, downloadTags, o);
      AfterFollowsPipeline([InitPackage], [InitCall(name, InitParamsFor(s).value)], h, 1);
      assert r == After([InitPackage], [InitCall(name, InitParamsFor(s).value)], h);
    } else {
      assert r.stages[..1] == [InitPackage] == Pipeline[..1];
    }
  }

  /** Lemma: outside `HostPlayMode` a successful initialization is the whole
      run: no version, manifest or download call is made. */
  lemma NonHostSkipsUpdate(s: YooAssetSettings, version: Option<string>, error: Option<string>, progress: DownloadProgress,
                           id: nat, downloadTags: Option<seq<string>>, o: RunOracle)
    requires PlayMode(s) != HostPlayMode
    ensures var r := FullUpdate(s, version, error, progress, id, downloadTags, o);
      && (r.ok <==> !PlayMode(s).UnlistedMode? && o.init.Succeeded?)
      && (r.ok ==> r.stages == [InitPackage, Done])
      && |r.calls| <= 1 && r.created == 0 && r.downloader.None? && r.version == version && r.monitor == []
  {
  }

  /** Lemma: the download stages fail only at a failed download, with its
      error, and otherwise keep the error message. */
  lemma DownloadPartRecordsError(c: RunSettings, name: string, v: string, error: Option<string>,
                                 progress: DownloadProgress, id: nat, tags: Option<seq<string>>, o: RunOracle)
    ensures var d := DownloadPart(c, name, v, error, progress, id, tags, o);
      && (d.ok ==> d.error == error)
      && (!d.ok ==> |d.stages| == 3 && o.download.Errored? && d.error == Some(o.download.error))
  {
  }

  /** Lemma: the `HostPlayMode` stages record the error of the operation that
      failed, told apart by how many stages were entered. */
  lemma HostPartRecordsError(c: RunSettings, name: string, version: Option<string>, error: Option<string>,
                             progress: DownloadProgress, id: nat, downloadTags: Option<seq<string>>, o: RunOracle)
    ensures var h := HostPart(c, name, version, error, progress, id, downloadTags, o);
      && (h.ok ==> h.error == error)
      && (!h.ok && |h.stages| == 2 ==> o.version.VersionErrored? && h.error == Some(o.version.error))
      && (!h.ok && |h.stages| == 3 ==>
            (o.manifestVersion.VersionErrored? && h.error == Some(o.manifestVersion.error))
            || (o.manifest.Errored? && h.error == Some(o.manifest.error)))
      && (!h.ok && |h.stages| == 5 ==> o.download.Errored? && h.error == Some(o.download.error))
  {
    if o.version.VersionSucceeded? && !(o.version.version == "" && o.manifestVersion.VersionErrored?)
       && o.manifest.Succeeded? {
      var v2 := if o.version.version == "" then o.manifestVersion.version else o.version.version;
      DownloadPartRecordsError(c, name, v2, error, progress, id, TagsFor(c, downloadTags), o);
    }
  }

  /** Lemma: a failed run records the error of the operation that failed (or
      "Invalid play mode"), and a successful one leaves the message as it was. */
  lemma FailureRecordsError(s: YooAssetSettings, version: Option<string>, error: Option<string>, progress: DownloadProgress,
                            id: nat, downloadTags: Option<seq<string>>, o: RunOracle)
    ensures var r := FullUpdate(s, version, error, progress, id, downloadTags, o);
      && (r.ok ==> r.error == error)
      && (!r.ok && r.stages == [InitPackage, HotUpdateState.Failed] ==>
            if PlayMode(s).UnlistedMode? then r.error == Some("Invalid play mode")
            else o.init.Errored? && r.error == Some(o.init.error))
      && (!r.ok && r.stages == [InitPackage, UpdateVersion, HotUpdateState.Failed] ==>
            o.version.VersionErrored? && r.error == Some(o.version.error))
      && (!r.ok && r.stages == [InitPackage, UpdateVersion, UpdateManifest, HotUpdateState.Failed] ==>
            (o.manifestVersion.VersionErrored? && r.error == Some(o.manifestVersion.error))
            || (o.manifest.Errored? && r.error == Some(o.manifest.error)))
      && (!r.ok && r.stages == Pipeline + [HotUpdateState.Failed] ==>
            o.download.Errored? && r.error == Some(o.download.error))
  {
    var r := FullUpdate(s, version, error, progress, id, downloadTags, o);
    var name := DefaultPackageName(s);
    if InitParamsFor(s).Some? && o.init.Succeeded? && PlayMode(s) == HostPlayMode {
      var h := HostPart(RunSettingsOf(s), name, version, error, progress, id, downloadTags, o);
      HostPartRecordsError(RunSettingsOf(s), name, version, error, progress, id, downloadTags, o);
      assert r == After([InitPackage], [InitCall(name, InitParamsFor(s).value)], h);
      assert |r.stages| == 1 + |h.stages|;
    }
  }

  /** Lemma: the download stages begin a download only for non-empty tags
      and a positive file count; the completion event is raised last, and only
      after a successful download. */
  lemma DownloadPartDownloads(c: RunSettings, name: string, v: string, error: Option<string>,
                              progress: DownloadProgress, id: nat, tags: Option<seq<string>>, o: RunOracle)
    ensures var d := DownloadPart(c, name, v, error, progress, id, tags, o);
      && (d.downloader.Some? <==> tags.Some? && |tags.value| > 0 && o.scan.count > 0)
      && (d.downloader.Some? ==> d.downloader.value == id && BeginCall(id) in d.calls)
      && (DownloadComplete in d.monitor <==> d.downloader.Some? && o.download.Succeeded?)
      && (DownloadComplete in d.monitor ==> d.ok && d.monitor[|d.monitor| - 1] == DownloadComplete)
  {
    if tags.Some? && |tags.value| > 0 && o.scan.count > 0 {
      assert DownloadComplete !in MonitorEvents(o.reports);
    }
  }

  /** Lemma: the `HostPlayMode` stages download only after a successful
      version and manifest update, under the conditions of the download
      stages. */
  lemma HostPartDownloads(c: RunSettings, name: string, version: Option<string>, error: Option<string>,
                          progress: DownloadProgress, id: nat, downloadTags: Option<seq<string>>, o: RunOracle)
    ensures var h := HostPart(c, name, version, error, progress, id, downloadTags, o);
      var tags := TagsFor(c, downloadTags);
      && (h.downloader.Some? <==>
            && o.version.VersionSucceeded? && (o.version.version == "" ==> o.manifestVersion.VersionSucceeded?)
            && o.manifest.Succeeded? && tags.Some? && |tags.value| > 0 && o.scan.count > 0)
      && (h.downloader.Some? ==> h.downloader.value == id && BeginCall(id) in h.calls)
      && (DownloadComplete in h.monitor <==> h.downloader.Some? && o.download.Succeeded?)
      && (DownloadComplete in h.monitor ==> h.ok && h.monitor[|h.monitor| - 1] == DownloadComplete)
  {
    var u := UpdatePart(name, version, error, progress, o);
    if u.ok {
      var d := DownloadPart(c, name, u.version.value, error, progress, id, TagsFor(c, downloadTags), o);
      DownloadPartDownloads(c, name, u.version.value, error, progress, id, TagsFor(c, downloadTags), o);
      assert HostPart(c, name, version, error, progress, id, downloadTags, o) == After(u.stages, u.calls, d);
    }
  }

  /** Lemma: a download begins only in `HostPlayMode`, with non-empty tags and a
      positive file count; the completion event is raised once, last, and only
      after a successful download. */
  lemma DownloadOnlyWhenNeeded(s: YooAssetSettings, version: Option<string>, error: Option<string>, progress: DownloadProgress,
                               id: nat, downloadTags: Option<seq<string>>, o: RunOracle)
    ensures var r := FullUpdate(s, version, error, progress, id, downloadTags, o);
      && (r.downloader.Some? <==>
            && PlayMode(s) == HostPlayMode && o.init.Succeeded? && o.version.VersionSucceeded?
            && (o.version.version == "" ==> o.manifestVersion.VersionSucceeded?) && o.manifest.Succeeded?
            && TagsFor(RunSettingsOf(s), downloadTags).Some? && |TagsFor(RunSettingsOf(s), downloadTags).value| > 0 && o.scan.count > 0)
      && (r.downloader.Some? ==> r.downloader.value == id && BeginCall(id) in r.calls)
      && (DownloadComplete in r.monitor <==> r.downloader.Some? && o.download.Succeeded?)
      && (DownloadComplete in r.monitor ==> r.ok && r.monitor[|r.monitor| - 1] == DownloadComplete)
  {
    var name := DefaultPackageName(s);
    if InitParamsFor(s).Some? && o.init.Succeeded? && PlayMode(s) == HostPlayMode {
      var h := HostPart(RunSettingsOf(s), name, version, error, progress, id, downloadTags, o);
      HostPartDownloads(RunSettingsOf(s), name, version, error, progress, id, downloadTags, o);
      assert FullUpdate(s, version, error, progress, id, downloadTags, o)
          == After([InitPackage], [InitCall(name, InitParamsFor(s).value)], h);
    }
  }

  /** Lemma: the `HostPlayMode` stages begin with the calls of the version
      and manifest stages, and keep the version those stages leave. */
  lemma HostPartStartsWithUpdate(c: RunSettings, name: string, version: Option<string>, error: Option<string>,
                                 progress: DownloadProgress, id: nat, downloadTags: Option<seq<string>>, o: RunOracle)
    ensures var h := HostPart(c, name, version, error, progress, id, downloadTags, o);
      var u := UpdatePart(name, version, error, progress, o);
      |u.calls| <= |h.calls| && h.calls[..|u.calls|] == u.calls && h.version == u.version
  {
    var u := UpdatePart(name, version, error, progress, o);
    if u.ok {
      var d := DownloadPart(c, name, u.version.value, error, progress, id, TagsFor(c, downloadTags), o);
      assert HostPart(c, name, version, error, progress, id, downloadTags, o) == After(u.stages, u.calls, d);
      assert (u.calls + d.calls)[..|u.calls|] == u.calls;
    }
  }

  /** Lemma: the manifest is updated with the version the version stage
      fetched, unless that version is empty; only then is a second version
      requested, and the run keeps the version it used. */
  lemma ManifestReusesVersion(s: YooAssetSettings, version: Option<string>, error: Option<string>, progress: DownloadProgress,
                              id: nat, downloadTags: Option<seq<string>>, o: RunOracle)
    requires PlayMode(s) == HostPlayMode && o.init.Succeeded? && o.version.VersionSucceeded?
    ensures var r := FullUpdate(s, version, error, progress, id, downloadTags, o);
      var name := DefaultPackageName(s);
      && (o.version.version != "" ==>
            r.calls[..3] == [InitCall(name, InitParamsFor(s).value), VersionCall(name),
                             ManifestCall(name, o.version.version)]
            && r.version == Some(o.version.version))
      && (o.version.version == "" && o.manifestVersion.VersionSucceeded? ==>
            r.calls[..4] == [InitCall(name, InitParamsFor(s).value), VersionCall(name), VersionCall(name),
                             ManifestCall(name, o.manifestVersion.version)]
            && r.version == Some(o.manifestVersion.version))
  {
    var name := DefaultPackageName(s);
    var p := InitParamsFor(s).value;
    var h := HostPart(RunSettingsOf(s), name, version, error, progress, id, downloadTags, o);
    var u := UpdatePart(name, version, error, progress, o);
    HostPartStartsWithUpdate(RunSettingsOf(s), name, version, error, progress, id, downloadTags, o);
    var r := FullUpdate(s, version, error, progress, id, downloadTags, o);
    assert r == After([InitPackage], [InitCall(name, p)], h);
    assert r.calls[..1 + |u.calls|] == [InitCall(name, p)] + u.calls;
    if o.version.version != "" {
      assert u.calls == [VersionCall(name), ManifestCall(name, o.version.version)];
    } else if o.manifestVersion.VersionSucceeded? {
      assert u.calls == [VersionCall(name), VersionCall(name), ManifestCall(name, o.manifestVersion.version)];
    }
  }

  class YooAssetResourceSystem {
    const lib: YooAssets
    var settings: Option<YooAssetSettings>
    var defaultPackage: Option<string>
    var currentDownloader: Option<Downloader>
    var downloadManager: Option<DownloadManager>
    var currentVersion: Option<string>
    var state: HotUpdateState
    var errorMessage: Option<string>
    var currentProgress: DownloadProgress
    /** The progress and error callbacks are attached to the current downloader. */
    var monitoring: bool
    /** The monitor events raised so far. */
    var monitorEvents: seq<MonitorEvent>
    /** Every value `State` has been given, in order. */
    ghost var stages: seq<HotUpdateState>

    /** The default package is one the library holds; callbacks are attached
        only to an existing downloader. */
    ghost predicate Valid()
      reads this, lib
    {
      && (defaultPackage.Some? ==> defaultPackage.value in lib.packages)
      && (monitoring ==> currentDownloader.Some?)
    }

    constructor (lib: YooAssets)
      ensures this.lib == lib && Valid()
      ensures settings.None? && defaultPackage.None? && currentDownloader.None? && downloadManager.None?
      ensures currentVersion.None? && state == Idle && errorMessage.None? && !monitoring
      ensures monitorEvents == [] && stages == []
    {
      this.lib := lib;
      settings := None;
      defaultPackage := None;
      currentDownloader := None;
      downloadManager := None;
      currentVersion := None;
      state := Idle;
      errorMessage := None;
      currentProgress := DownloadProgress(0, 0, 0, 0);
      monitoring := false;
      monitorEvents := [];
      stages := [];
    }

    /** `IsDownloading`: a current downloader that is not done. */
    function IsDownloading(): bool
      reads this, lib
    {
      currentDownloader.Some? && currentDownloader.value.id !in lib.finished
    }

    /** `OnInitializeAsync`: reads the settings and initializes the library. */
    method OnInitialize(s: YooAssetSettings)
      requires Valid()
      modifies this, lib
      ensures Valid()
      ensures settings == Some(s) && lib.initialized
      ensures defaultPackage == old(defaultPackage) && currentDownloader == old(currentDownloader)
      ensures downloadManager == old(downloadManager) && currentVersion == old(currentVersion)
      ensures state == old(state) && errorMessage == old(errorMessage) && currentProgress == old(currentProgress)
      ensures monitoring == old(monitoring) && monitorEvents == old(monitorEvents) && stages == old(stages)
      ensures lib.packages == old(lib.packages) && lib.trace == old(lib.trace) && lib.defaultPackage == old(lib.defaultPackage)
      ensures lib.created == old(lib.created) && lib.finished == old(lib.finished)
    {
      settings := Some(s);
      lib.Initialize();
    }

    /** Sets `State`, keeping the history of states. */
    method Enter(st: HotUpdateState)
      modifies this
      ensures state == st && stages == old(stages) + [st]
      ensures settings == old(settings) && defaultPackage == old(defaultPackage)
      ensures currentDownloader == old(currentDownloader) && downloadManager == old(downloadManager)
      ensures currentVersion == old(currentVersion) && errorMessage == old(errorMessage)
      ensures currentProgress == old(currentProgress) && monitoring == old(monitoring) && monitorEvents == old(monitorEvents)
    {
      state := st;
      stages := stages + [st];
    }

    /** A stage fails: its error is recorded and `State` becomes `Failed`. */
    method Fail(error: string)
      modifies this
      ensures errorMessage == Some(error) && state == HotUpdateState.Failed && stages == old(stages) + [HotUpdateState.Failed]
      ensures settings == old(settings) && defaultPackage == old(defaultPackage)
      ensures currentDownloader == old(currentDownloader) && downloadManager == old(downloadManager)
      ensures currentVersion == old(currentVersion)
      ensures currentProgress == old(currentProgress) && monitoring == old(monitoring) && monitorEvents == old(monitorEvents)
    {
      errorMessage := Some(error);
      Enter(HotUpdateState.Failed);
    }

    /** The package of that name, fetched or created, becomes the default
        package, here and in the library. */
    method OpenPackage(name: string)
      requires Valid()
      modifies this, lib
      ensures Valid()
      ensures defaultPackage == Some(name) && lib.defaultPackage == Some(name)
      ensures lib.packages == (if name in old(lib.packages) then old(lib.packages) else old(lib.packages)[name := NotInitialized])
      ensures settings == old(settings) && state == old(state) && stages == old(stages) && errorMessage == old(errorMessage)
      ensures currentDownloader == old(currentDownloader) && downloadManager == old(downloadManager)
      ensures currentVersion == old(currentVersion)
      ensures currentProgress == old(currentProgress) && monitoring == old(monitoring) && monitorEvents == old(monitorEvents)
      ensures lib.trace == old(lib.trace)
      ensures lib.initialized == old(lib.initialized) && lib.created == old(lib.created) && lib.finished == old(lib.finished)
    {
      var existing := lib.TryGetPackage(name);
      if existing.None? {
        lib.CreatePackage(name);
      }
      defaultPackage := Some(name);
      lib.SetDefaultPackage(name);
    }

    /** `InitPackageAsync(packageName)`: a null name stands for the default
        package; the package is fetched or created and made the library's
        default before it is initialized, and a download manager is made for
        it only when the initialization succeeds. */
    method InitPackageStage(packageName: Option<string>, o: Op) returns (ok: bool)
      requires Valid() && settings.Some?
      modifies this, lib
      ensures Valid() && settings == old(settings)
      ensures var s := settings.value;
        var name := if packageName.Some? then packageName.value else DefaultPackageName(s);
        var params := InitParamsFor(s);
        && defaultPackage == Some(name) && lib.defaultPackage == Some(name)
        && lib.packages == InitRegistry(old(lib.packages), name, params, o)
        && lib.trace == old(lib.trace) + (if params.Some? then [InitCall(name, params.value)] else [])
        && (ok <==> params.Some? && o.Succeeded?)
        && (params.None? ==> errorMessage == Some("Invalid play mode"))
        && (params.Some? && o.Errored? ==> errorMessage == Some(o.error))
        && (ok ==> errorMessage == old(errorMessage) && downloadManager.Some? && fresh(downloadManager.value)
                   && downloadManager.value.package == name && downloadManager.value.lib == lib
                   && downloadManager.value.settings == settings.value
                   && downloadManager.value.active == [] && downloadManager.value.events == [])
        && (!ok ==> downloadManager == old(downloadManager))
        && stages == old(stages) + (if ok then [InitPackage] else [InitPackage, HotUpdateState.Failed])
        && state == (if ok then InitPackage else HotUpdateState.Failed)
      ensures currentDownloader == old(currentDownloader) && currentVersion == old(currentVersion)
      ensures currentProgress == old(currentProgress) && monitoring == old(monitoring) && monitorEvents == old(monitorEvents)
      ensures lib.initialized == old(lib.initialized) && lib.created == old(lib.created) && lib.finished == old(lib.finished)
    {
      Enter(InitPackage);
      var s := settings.value;
      var name := if packageName.Some? then packageName.value else DefaultPackageName(s);
      OpenPackage(name);
      ok := InitializeDefault(o);
    }

    /** The second half of `InitPackageAsync`: the default package is
        initialized with the play mode's parameters, and gets a download
        manager when that succeeds. */
    method InitializeDefault(o: Op) returns (ok: bool)
      requires Valid() && settings.Some? && defaultPackage.Some?
      modifies this, lib
      ensures Valid() && settings == old(settings) && defaultPackage == old(defaultPackage)
      ensures var name := defaultPackage.value;
        var params := InitParamsFor(settings.value);
        && lib.packages == (if params.Some? then old(lib.packages)[name := if o.Succeeded? then Succeed else PackageStatus.Failed]
                            else old(lib.packages))
        && lib.trace == old(lib.trace) + (if params.Some? then [InitCall(name, params.value)] else [])
        && (ok <==> params.Some? && o.Succeeded?)
        && (params.None? ==> errorMessage == Some("Invalid play mode"))
        && (params.Some? && o.Errored? ==> errorMessage == Some(o.error))
        && (ok ==> errorMessage == old(errorMessage) && downloadManager.Some? && fresh(downloadManager.value)
                   && downloadManager.value.package == name && downloadManager.value.lib == lib
                   && downloadManager.value.settings == settings.value
                   && downloadManager.value.active == [] && downloadManager.value.events == [])
        && (!ok ==> downloadManager == old(downloadManager))
        && stages == old(stages) + (if ok then [] else [HotUpdateState.Failed])
        && state == (if ok then old(state) else HotUpdateState.Failed)
      ensures currentDownloader == old(currentDownloader) && currentVersion == old(currentVersion)
      ensures currentProgress == old(currentProgress) && monitoring == old(monitoring) && monitorEvents == old(monitorEvents)
      ensures lib.defaultPackage == old(lib.defaultPackage)
      ensures lib.initialized == old(lib.initialized) && lib.created == old(lib.created) && lib.finished == old(lib.finished)
    {
      var s := settings.value;
      var name := defaultPackage.value;
      var params := InitParamsFor(s);
      if params.None? {
        Fail("Invalid play mode");
        return false;
      }
      var result := lib.InitializePackage(name, params.value, o);
      if result.Errored? {
        Fail(result.error);
        return false;
      }
      var manager := new DownloadManager(lib, name, s);
      downloadManager := Some(manager);
      return true;
    }

    /** `UpdateVersionAsync()`: the default package's version, kept as the
        current version on success. */
    method UpdateVersionStage(o: VersionOp) returns (ok: bool)
      requires Valid() && defaultPackage.Some?
      modifies this, lib
      ensures Valid() && settings == old(settings) && defaultPackage == old(defaultPackage)
      ensures ok <==> o.VersionSucceeded?
      ensures lib.trace == old(lib.trace) + [VersionCall(defaultPackage.value)]
      ensures ok ==> currentVersion == Some(o.version) && errorMessage == old(errorMessage)
                     && stages == old(stages) + [UpdateVersion] && state == UpdateVersion
      ensures !ok ==> currentVersion == old(currentVersion) && errorMessage == Some(o.error)
                      && stages == old(stages) + [UpdateVersion, HotUpdateState.Failed] && state == HotUpdateState.Failed
      ensures settings == old(settings) && defaultPackage == old(defaultPackage)
      ensures currentDownloader == old(currentDownloader) && downloadManager == old(downloadManager)
      ensures currentProgress == old(currentProgress) && monitoring == old(monitoring) && monitorEvents == old(monitorEvents)
      ensures lib.packages == old(lib.packages) && lib.defaultPackage == old(lib.defaultPackage)
      ensures lib.initialized == old(lib.initialized) && lib.created == old(lib.created) && lib.finished == old(lib.finished)
    {
      Enter(UpdateVersion);
      var result := lib.RequestPackageVersion(defaultPackage.value, o);
      if result.VersionErrored? {
        Fail(result.error);
        return false;
      }
      currentVersion := Some(result.version);
      return true;
    }

    /** `UpdateManifestAsync()`: a null or empty current version is first
        requested again (a failure there stops the stage); the manifest is
        then updated with the current version. */
    method UpdateManifestStage(versionOp: VersionOp, o: Op) returns (ok: bool)
      requires Valid() && defaultPackage.Some?
      modifies this, lib
      ensures Valid() && settings == old(settings) && defaultPackage == old(defaultPackage)
      ensures var p := defaultPackage.value;
        && (!IsNullOrEmpty(old(currentVersion)) ==>
              currentVersion == old(currentVersion)
              && lib.trace == old(lib.trace) + [ManifestCall(p, old(currentVersion).value)]
              && (ok <==> o.Succeeded?))
        && (IsNullOrEmpty(old(currentVersion)) && versionOp.VersionErrored? ==>
              !ok && currentVersion == old(currentVersion) && errorMessage == Some(versionOp.error)
              && lib.trace == old(lib.trace) + [VersionCall(p)])
        && (IsNullOrEmpty(old(currentVersion)) && versionOp.VersionSucceeded? ==>
              currentVersion == Some(versionOp.version)
              && lib.trace == old(lib.trace) + [VersionCall(p), ManifestCall(p, versionOp.version)]
              && (ok <==> o.Succeeded?))
      ensures ok ==> errorMessage == old(errorMessage) && stages == old(stages) + [UpdateManifest] && state == UpdateManifest
      ensures !ok ==> stages == old(stages) + [UpdateManifest, HotUpdateState.Failed] && state == HotUpdateState.Failed
      ensures !ok && (!IsNullOrEmpty(old(currentVersion)) || versionOp.VersionSucceeded?) ==> errorMessage == Some(o.error)
      ensures settings == old(settings) && defaultPackage == old(defaultPackage)
      ensures currentDownloader == old(currentDownloader) && downloadManager == old(downloadManager)
      ensures currentProgress == old(currentProgress) && monitoring == old(monitoring) && monitorEvents == old(monitorEvents)
      ensures lib.packages == old(lib.packages) && lib.defaultPackage == old(lib.defaultPackage)
      ensures lib.initialized == old(lib.initialized) && lib.created == old(lib.created) && lib.finished == old(lib.finished)
    {
      Enter(UpdateManifest);
      var p := defaultPackage.value;
      if IsNullOrEmpty(currentVersion) {
        var v := lib.RequestPackageVersion(p, versionOp);
        if v.VersionErrored? {
          Fail(v.error);
          return false;
        }
        currentVersion := Some(v.version);
      }
      var result := lib.UpdatePackageManifest(p, currentVersion.value, o);
      if result.Errored? {
        Fail(result.error);
        return false;
      }
      return true;
    }

    /** `CreateDownloaderByTagsAsync` / `CreateDownloaderByPathsAsync`: a
        downloader of the default package with the configured concurrency and
        retries. */
    method CreateDownloaderStage(selection: Selection, scan: Scan) returns (d: Downloader)
      requires Valid() && settings.Some? && defaultPackage.Some?
      requires selection.ByTags? || selection.ByPaths?
      modifies this, lib
      ensures Valid() && settings == old(settings) && defaultPackage == old(defaultPackage)
      ensures fresh(d) && d.id == old(lib.created) && d.package == defaultPackage.value && d.selection == selection
      ensures d.totalCount == scan.count && d.totalBytes == scan.bytes
      ensures lib.created == old(lib.created) + 1
      ensures lib.trace == old(lib.trace) + [CreateCall(old(lib.created), defaultPackage.value, selection,
                                                        DownloadingMaxNum(settings.value), FailedTryAgain(settings.value))]
      ensures stages == old(stages) + [CreateDownloader] && state == CreateDownloader
      ensures settings == old(settings) && defaultPackage == old(defaultPackage) && errorMessage == old(errorMessage)
      ensures currentDownloader == old(currentDownloader) && downloadManager == old(downloadManager)
      ensures currentVersion == old(currentVersion)
      ensures currentProgress == old(currentProgress) && monitoring == old(monitoring) && monitorEvents == old(monitorEvents)
      ensures lib.packages == old(lib.packages) && lib.defaultPackage == old(lib.defaultPackage)
      ensures lib.initialized == old(lib.initialized) && lib.finished == old(lib.finished)
    {
      Enter(CreateDownloader);
      var s := settings.value;
      d := lib.NewDownloader(defaultPackage.value, selection, DownloadingMaxNum(s), FailedTryAgain(s), scan);
    }

    /** `StartMonitor()`: attaches the callbacks to the current downloader, if any. */
    method StartMonitor()
      requires Valid()
      modifies this
      ensures Valid()
      ensures monitoring == (currentDownloader.Some? || old(monitoring))
      ensures settings == old(settings) && defaultPackage == old(defaultPackage)
      ensures currentDownloader == old(currentDownloader) && downloadManager == old(downloadManager)
      ensures currentVersion == old(currentVersion) && state == old(state) && errorMessage == old(errorMessage)
      ensures currentProgress == old(currentProgress) && monitorEvents == old(monitorEvents) && stages == old(stages)
    {
      if currentDownloader.None? { return; }
      monitoring := true;
    }

    /** `StopMonitor()`: detaches the callbacks from the current downloader, if any. */
    method StopMonitor()
      requires Valid()
      modifies this
      ensures Valid()
      ensures monitoring == (old(monitoring) && currentDownloader.None?)
      ensures !monitoring
      ensures settings == old(settings) && defaultPackage == old(defaultPackage)
      ensures currentDownloader == old(currentDownloader) && downloadManager == old(downloadManager)
      ensures currentVersion == old(currentVersion) && state == old(state) && errorMessage == old(errorMessage)
      ensures currentProgress == old(currentProgress) && monitorEvents == old(monitorEvents) && stages == old(stages)
    {
      if currentDownloader.Some? {
        monitoring := false;
      }
    }

    /** The reports a downloader makes while it is awaited: each reaches the
        progress or error callback, when they are attached. */
    method Deliver(reports: seq<Report>)
      modifies this
      ensures monitoring == old(monitoring)
      ensures monitoring ==> currentProgress == LastProgress(old(currentProgress), reports)
                             && monitorEvents == old(monitorEvents) + MonitorEvents(reports)
      ensures !monitoring ==> currentProgress == old(currentProgress) && monitorEvents == old(monitorEvents)
      ensures settings == old(settings) && defaultPackage == old(defaultPackage)
      ensures currentDownloader == old(currentDownloader) && downloadManager == old(downloadManager)
      ensures currentVersion == old(currentVersion) && state == old(state) && errorMessage == old(errorMessage)
      ensures stages == old(stages)
    {
      if monitoring {
        currentProgress := LastProgress(currentProgress, reports);
        monitorEvents := monitorEvents + MonitorEvents(reports);
      }
    }

    /** The fields a run of stages changes, against what `r` says it does:
        the result, the states entered, the error message, the version, the
        library calls, the downloader run, the monitor events and progress;
        the callbacks are detached from a downloader the run started, and a
        run without one leaves them as they were. */
    twostate predicate Ran(r: Outcome, ok: bool)
      reads this, lib
    {
      && ok == r.ok && |r.stages| > 0 && state == r.stages[|r.stages| - 1] && stages == old(stages) + r.stages
      && errorMessage == r.error && currentVersion == r.version
      && lib.trace == old(lib.trace) + r.calls && lib.created == old(lib.created) + r.created
      && monitorEvents == old(monitorEvents) + r.monitor && currentProgress == r.progress
      && (r.downloader.Some? ==> currentDownloader.Some? && currentDownloader.value.id == r.downloader.value
                                 && lib.finished == old(lib.finished) + {r.downloader.value})
      && (r.downloader.None? ==> currentDownloader == old(currentDownloader) && lib.finished == old(lib.finished))
      && (r.downloader.Some? ==> !monitoring)
      && (r.downloader.None? ==> monitoring == old(monitoring))
    }

    /** The `Downloading` stage of `RunFullUpdateAsync`: the downloader becomes
        the current one, the callbacks are attached while it runs and detached
        when it is done; a failed download fails the run. */
    method DownloadStage(d: Downloader, reports: seq<Report>, outcome: Op) returns (ok: bool)
      requires Valid()
      modifies this, lib
      ensures Valid() && settings == old(settings) && defaultPackage == old(defaultPackage)
      ensures ok <==> outcome.Succeeded?
      ensures currentDownloader == Some(d) && !monitoring
      ensures stages == old(stages) + [Downloading, if ok then Done else HotUpdateState.Failed]
      ensures state == (if ok then Done else HotUpdateState.Failed)
      ensures errorMessage == (if ok then old(errorMessage) else Some(outcome.error))
      ensures currentProgress == LastProgress(old(currentProgress), reports)
      ensures monitorEvents == old(monitorEvents) + MonitorEvents(reports) + (if ok then [DownloadComplete] else [])
      ensures lib.trace == old(lib.trace) + [BeginCall(d.id)] && lib.created == old(lib.created)
      ensures lib.finished == old(lib.finished) + {d.id}
      ensures downloadManager == old(downloadManager) && currentVersion == old(currentVersion)
      ensures lib.packages == old(lib.packages) && lib.defaultPackage == old(lib.defaultPackage)
      ensures lib.initialized == old(lib.initialized)
    {
      BeginDownloadStage(d, reports);
      var result := lib.AwaitDownload(d, outcome);
      StopMonitor();
      if result.Errored? {
        Fail(result.error);
        return false;
      }
      monitorEvents := monitorEvents + [DownloadComplete];
      Enter(Done);
      return true;
    }

    /** The first half of the `Downloading` stage: the downloader becomes the
        current one, the callbacks are attached, the download is begun and its
        reports reach the callbacks. */
    method BeginDownloadStage(d: Downloader, reports: seq<Report>)
      requires Valid()
      modifies this, lib
      ensures Valid() && settings == old(settings) && defaultPackage == old(defaultPackage)
      ensures currentDownloader == Some(d) && monitoring
      ensures stages == old(stages) + [Downloading] && state == Downloading
      ensures errorMessage == old(errorMessage)
      ensures currentProgress == LastProgress(old(currentProgress), reports)
      ensures monitorEvents == old(monitorEvents) + MonitorEvents(reports)
      ensures lib.trace == old(lib.trace) + [BeginCall(d.id)] && lib.created == old(lib.created)
      ensures lib.finished == old(lib.finished)
      ensures downloadManager == old(downloadManager) && currentVersion == old(currentVersion)
      ensures lib.packages == old(lib.packages) && lib.defaultPackage == old(lib.defaultPackage)
      ensures lib.initialized == old(lib.initialized)
    {
      currentDownloader := Some(d);
      // the new current downloader has no callbacks yet (the previous one, if
      // any, has finished and makes no more reports)
      monitoring := false;
      Enter(Downloading);
      StartMonitor();
      lib.Begin(d);
      Deliver(reports);
    }

    /** The download stages of `RunFullUpdateAsync`. */
    method RunDownloadStages(tags: Option<seq<string>>, o: RunOracle) returns (ok: bool)
      requires Valid() && settings.Some? && defaultPackage.Some? && currentVersion.Some?
      modifies this, lib
      ensures Valid() && settings == old(settings) && defaultPackage == old(defaultPackage)
      ensures downloadManager == old(downloadManager)
      ensures lib.packages == old(lib.packages) && lib.defaultPackage == old(lib.defaultPackage)
      ensures lib.initialized == old(lib.initialized)
      ensures Ran(DownloadPart(RunSettingsOf(settings.value), defaultPackage.value, old(currentVersion).value, old(errorMessage),
                               old(currentProgress), old(lib.created), tags, o), ok)
    {
      ghost var r := DownloadPart(RunSettingsOf(settings.value), defaultPackage.value, old(currentVersion).value, old(errorMessage),
                                  old(currentProgress), old(lib.created), tags, o);
      if tags.None? || |tags.value| == 0 {
        Enter(Done);
        return true;
      }
      var d := CreateDownloaderStage(ByTags(tags.value), o.scan);
      ghost var create := [CreateCall(old(lib.created), defaultPackage.value, ByTags(tags.value),
                                      DownloadingMaxNum(settings.value), FailedTryAgain(settings.value))];
      assert lib.trace == old(lib.trace) + create;
      if d.totalCount <= 0 {
        Enter(Done);
        assert r.stages == [CreateDownloader, Done] && r.calls == create;
        return true;
      }
      ok := DownloadStage(d, o.reports, o.download);
      AppendAssoc(old(lib.trace), create, [BeginCall(d.id)]);
      AppendAssoc(old(stages), [CreateDownloader], r.stages[1..]);
    }

    /** The version and manifest stages of `RunFullUpdateAsync`. */
    method RunUpdateStages(o: RunOracle) returns (ok: bool)
      requires Valid() && defaultPackage.Some?
      modifies this, lib
      ensures Valid() && settings == old(settings) && defaultPackage == old(defaultPackage)
      ensures downloadManager == old(downloadManager)
      ensures lib.packages == old(lib.packages) && lib.defaultPackage == old(lib.defaultPackage)
      ensures lib.initialized == old(lib.initialized)
      ensures Ran(UpdatePart(defaultPackage.value, old(currentVersion), old(errorMessage), old(currentProgress), o), ok)
    {
      ghost var name := defaultPackage.value;
      var versionOk := UpdateVersionStage(o.version);
      if !versionOk {
        return false;
      }
      ok := UpdateManifestStage(o.manifestVersion, o.manifest);
      AppendAssoc(old(stages), [UpdateVersion], [UpdateManifest]);
      AppendAssoc(old(stages), [UpdateVersion], [UpdateManifest, HotUpdateState.Failed]);
    }

    /** The `HostPlayMode` stages of `RunFullUpdateAsync`. */
    method RunHostStages(downloadTags: Option<seq<string>>, o: RunOracle) returns (ok: bool)
      requires Valid() && settings.Some? && defaultPackage.Some?
      modifies this, lib
      ensures Valid() && settings == old(settings) && defaultPackage == old(defaultPackage)
      ensures downloadManager == old(downloadManager)
      ensures lib.packages == old(lib.packages) && lib.defaultPackage == old(lib.defaultPackage)
      ensures lib.initialized == old(lib.initialized)
      ensures Ran(HostPart(RunSettingsOf(settings.value), defaultPackage.value, old(currentVersion), old(errorMessage),
                           old(currentProgress), old(lib.created), downloadTags, o), ok)
    {
      ghost var h := HostPart(RunSettingsOf(settings.value), defaultPackage.value, currentVersion, errorMessage, currentProgress,
                              lib.created, downloadTags, o);
      ghost var u := UpdatePart(defaultPackage.value, currentVersion, errorMessage, currentProgress, o);
      ok := RunUpdateStages(o);
      if !ok {
        assert h == u;
        return false;
      }
      assert errorMessage == old(errorMessage) && currentProgress == old(currentProgress);
      assert lib.created == old(lib.created) && currentVersion == u.version;
      ghost var d := DownloadPart(RunSettingsOf(settings.value), defaultPackage.value, currentVersion.value, errorMessage,
                                  currentProgress, lib.created, TagsFor(RunSettingsOf(settings.value), downloadTags), o);
      assert h == After(u.stages, u.calls, d);
      ok := RunDownloadStages(TagsFor(RunSettingsOf(settings.value), downloadTags), o);
      AppendAssoc(old(stages), u.stages, d.stages);
      AppendAssoc(old(lib.trace), u.calls, d.calls);
    }

    /** `RunFullUpdateAsync(downloadTags)`: initialization of the default
        package; then, in `HostPlayMode` only, the version, the manifest and a
        download by tags when there are tags and files to fetch. */
    method RunFullUpdate(downloadTags: Option<seq<string>>, o: RunOracle) returns (ok: bool)
      requires Valid() && settings.Some?
      modifies this, lib
      ensures Valid() && settings == old(settings)
      ensures Ran(FullUpdate(settings.value, old(currentVersion), old(errorMessage), old(currentProgress),
                             old(lib.created), downloadTags, o), ok)
      ensures defaultPackage == Some(DefaultPackageName(settings.value))
      ensures lib.defaultPackage == Some(DefaultPackageName(settings.value))
      ensures lib.packages == InitRegistry(old(lib.packages), DefaultPackageName(settings.value), InitParamsFor(settings.value), o.init)
      ensures lib.initialized == old(lib.initialized)
      // a successful initialization gives the package a new download manager
      ensures InitParamsFor(settings.value).Some? && o.init.Succeeded? ==>
                && downloadManager.Some? && fresh(downloadManager.value)
                && downloadManager.value.package == DefaultPackageName(settings.value)
                && downloadManager.value.lib == lib && downloadManager.value.settings == settings.value
                && downloadManager.value.active == [] && downloadManager.value.events == []
      ensures !(InitParamsFor(settings.value).Some? && o.init.Succeeded?) ==> downloadManager == old(downloadManager)
      // a run that downloads has awaited its downloader; one that does not
      // leaves `IsDownloading` as it was
      ensures IsDownloading() <==>
                old(IsDownloading()) && FullUpdate(settings.value, old(currentVersion), old(errorMessage), old(currentProgress),
                                                   old(lib.created), downloadTags, o).downloader.None?
    {
      ghost var s := settings.value;
      ghost var name := DefaultPackageName(s);
      ghost var r := FullUpdate(s, currentVersion, errorMessage, currentProgress, lib.created, downloadTags, o);
      var initOk := InitPackageStage(None, o.init);
      if !initOk {
        if InitParamsFor(s).None? {
          assert r == Outcome(false, [InitPackage, HotUpdateState.Failed], Some("Invalid play mode"), [], old(currentVersion),
                              0, None, [], old(currentProgress));
        } else {
          assert r == Outcome(false, [InitPackage, HotUpdateState.Failed], Some(o.init.error),
                              [InitCall(name, InitParamsFor(s).value)], old(currentVersion), 0, None, [], old(currentProgress));
        }
        return false;
      }
      ghost var p := InitParamsFor(s).value;
      assert defaultPackage == Some(name) && lib.trace == old(lib.trace) + [InitCall(name, p)];
      assert currentVersion == old(currentVersion) && errorMessage == old(errorMessage);
      ghost var rest := AfterInitPart(s, name, currentVersion, errorMessage, currentProgress, lib.created, downloadTags, o);
      assert r == After([InitPackage], [InitCall(name, p)], rest);
      ok := RunAfterInit(downloadTags, o);
      AppendAssoc(old(stages), [InitPackage], rest.stages);
      AppendAssoc(old(lib.trace), [InitCall(name, p)], rest.calls);
    }

    /** What `RunFullUpdateAsync` does once the package is initialized: it is
        done, except in `HostPlayMode`, where the update stages follow. */
    method RunAfterInit(downloadTags: Option<seq<string>>, o: RunOracle) returns (ok: bool)
      requires Valid() && settings.Some? && defaultPackage.Some?
      modifies this, lib
      ensures Valid() && settings == old(settings) && defaultPackage == old(defaultPackage)
      ensures downloadManager == old(downloadManager)
      ensures lib.packages == old(lib.packages) && lib.defaultPackage == old(lib.defaultPackage)
      ensures lib.initialized == old(lib.initialized)
      ensures Ran(AfterInitPart(settings.value, defaultPackage.value, old(currentVersion), old(errorMessage), old(currentProgress),
                                old(lib.created), downloadTags, o), ok)
    {
      if PlayMode(settings.value) != HostPlayMode {
        Enter(Done);
        return true;
      }
      ok := RunHostStages(downloadTags, o);
    }
  }
}
