# YooAssetExtension, modelled in Dafny

This project models a Unity extension built around the YooAsset resource library.
The extension has three runtime parts:

- **Settings.** A settings asset holds a list of profiles. The active profile holds the play mode, the server URLs, the download limits and the list of resource packages.
- **Service.** A static service (`YooService`) keeps a name-keyed cache of library packages and a per-package cache of versions. It initializes packages one by one, requests versions and manifests, creates downloaders and answers size queries.
- **Flows.**
  - A single-package hot-update flow (`YooAssetResourceSystem`) runs initialization, then a version request, a manifest update and an optional download. It records each stage it enters as `State` and the failing error as `ErrorMessage`.
  - A façade (`YooSystem`) forwards to the service. It keeps one `DownloadManager` per package name. A download manager runs download tasks, keeps a list of active downloaders, and pauses, resumes or cancels all of them.

It also has two editor parts:

- **Build settings.** `YooAssetBuildSettings` holds the persisted per-package selection flags and per-step enabled flags.
- **Build pipeline.** `YooAssetBuildPipeline` lists the configured packages and the selected ones. It recognises hot-update packages (those whose collectors collect compiled assemblies) and caches that answer per package name.

## How the model is built

The YooAsset library is the class `Library.YooAssets`.

- **Its state.**
  - It holds the package table (name to `InitializeStatus`).
  - It holds the default package name and the next downloader id.
  - It holds `trace`: every call the wrapper makes that reaches the library, in order. A call is an initialization, a version request, a manifest update, creating, beginning, pausing, resuming or cancelling a downloader, or unloading an asset.
- **Oracles.** Every asynchronous library operation is an oracle: how it ends is a parameter of the method that awaits it. A library call guarded by `try`/`catch` is a `Probe`, which either answers or throws.
- **Null.** C# `null` is `Option.None`.

The core's static or stateful objects are classes whose fields are the source's fields:

- `YooService`, `DownloadManager`, `YooAssetResourceSystem`, `YooSystem`, `YooAssetBuildSettings` and `YooAssetBuildPipeline`.
- Each method's `ensures` ties its result and its new state to a pure specification function:
  - `InitStep` / `InitAll`, `VersionStep`, `ManifestStep` and `DownloadInfo` for the service;
  - `FullUpdate`, with its parts `UpdatePart`, `HostPart` and `DownloadPart`, for the hot-update flow;
  - `ExecuteEvents` and `RemoveFirst` for the download manager;
  - `Upsert`, `Lookup` and `Filter` for the build settings;
  - `PackageNames`, `HotView` and `IsHot` for the pipeline.
- Lemmas prove the properties the code promises about those functions.

The `foreach` loops that return `false` at the first failure are one generic fold, `Common.RunSteps`, with lemmas about stopping at the first failure. The service's loops are proved against it.

## Model

| member | source | states |
|---|---|---|
| Settings.ActiveProfile | Runtime/YooAssetSettings.cs:97-100 | the active profile exists exactly when the profile array is non-null and the index is inside it, and it is the profile at that index |
| Settings.PlayMode | Runtime/YooAssetSettings.cs:105 | the active profile's mode, or editor-simulate mode; both cases are stated by `NoActiveProfileDefaults` and `ActiveProfileFields` |
| Settings.HostServerURL | Runtime/YooAssetSettings.cs:110 | the active profile's URL unless null, otherwise "http://127.0.0.1"; stated by `NoActiveProfileDefaults` and `ActiveProfileFields` |
| Settings.FallbackHostServerURL | Runtime/YooAssetSettings.cs:115 | the active profile's fallback URL unless null, otherwise ""; stated by `NoActiveProfileDefaults` and `ActiveProfileFields` |
| Settings.ProjectId | Runtime/YooAssetSettings.cs:120 | the framework settings' project id, or "" when they or it are null; used by `BuildFullUrlClosedForm` |
| Settings.GameVersion | Runtime/YooAssetSettings.cs:125 | the framework settings' version, or "1.0.0" when they or it are null; used by `BuildFullUrlClosedForm` |
| Settings.DownloadingMaxNum | Runtime/YooAssetSettings.cs:155 | the active profile's limit, or 10; stated by `NoActiveProfileDefaults` and `ActiveProfileFields` |
| Settings.FailedTryAgain | Runtime/YooAssetSettings.cs:160 | the active profile's retries, or 3; stated by `NoActiveProfileDefaults` and `ActiveProfileFields` |
| Settings.AutoInitOnStartup | Runtime/YooAssetSettings.cs:165 | the active profile's flag, or true; stated by `NoActiveProfileDefaults` and `ActiveProfileFields` |
| Settings.AutoDownloadOnLoad | Runtime/YooAssetSettings.cs:170 | the active profile's flag, or false; stated by `NoActiveProfileDefaults` and `ActiveProfileFields` |
| Settings.NewProfileConfig | Runtime/YooAssetSettings.cs:56-80 | a new profile is in editor-simulate mode and holds one default package |
| Settings.Packages | Runtime/YooAssetSettings.cs:175 | the package list is the active profile's, or empty when there is no active profile or its list is null |
| Settings.DefaultPackageName | Runtime/YooAssetSettings.cs:180-181 | the default package name is the first package's name, or "DefaultPackage" when there are no packages |
| Settings.GetHostServerURL | Runtime/YooAssetSettings.cs:186-189 | a package's own server URL wins unless it is null or empty; then the global URL is used |
| Settings.GetFallbackHostServerURL | Runtime/YooAssetSettings.cs:194-199 | a package's own fallback URL wins unless it is null or empty; then the global fallback is used |
| Settings.AutoDownloadTags | Runtime/YooAssetSettings.cs:217-218 | the obsolete tags are the first package's (possibly null), or the empty array without packages |
| Settings.NoActiveProfileDefaults | Runtime/YooAssetSettings.cs:105-175 | without an active profile every getter gives its fixed default (editor mode, 127.0.0.1, 10 downloads, 3 retries, no packages) |
| Settings.ActiveProfileFields | Runtime/YooAssetSettings.cs:105-175 | with an active profile every getter gives that profile's field; only null strings and a null package list fall back |
| Settings.FreshSettingsDefaults | Runtime/YooAssetSettings.cs:90-92 | a freshly created settings asset is in editor-simulate mode with default package "DefaultPackage" |
| Settings.PackageOverrideIgnoresProfiles | Runtime/YooAssetSettings.cs:186-199 | a package's non-empty URL overrides are used whatever the profiles hold |
| Strings.TrimEnd | Runtime/Internal/YooService.cs:206 | the result is a prefix of the input, every removed character is '/', and the result does not end in '/' |
| Strings.TrimEndIdempotent | Runtime/Internal/YooService.cs:206 | trimming twice gives the same result as trimming once |
| Strings.Contains | Editor/Build/YooAssetBuildPipeline.cs:78 | true exactly when the text occurs at some position (ordinal comparison) |
| Strings.EndsWith | Editor/Build/YooAssetBuildPipeline.cs:79 | true exactly when the string is some prefix followed by the suffix |
| Common.Filter | Editor/Build/YooAssetBuildPipeline.cs:107-116 | the kept elements are exactly the matching ones, in their original order (a subsequence); each matching element is kept as often as it occurs, and no other element is kept |
| Common.FilterSnoc | Editor/Build/YooAssetBuildPipeline.cs:110-114 | filtering a list with one more element appends that element exactly when it matches |
| Common.RunStepsFailureIsFinal | Runtime/Internal/YooService.cs:77-81 | once a step has failed, the later items are never attempted |
| Common.RunStepsStopsAtFirstFailure | Runtime/Internal/YooService.cs:77-81 | a failed run is its first failing step on top of the successful run of the items before it |
| Common.RunStepsOkThroughout | Runtime/Internal/YooService.cs:77-81 | a successful run succeeded at every prefix |
| Library.FallbackURL | Runtime/YooAssetResourceSystem.cs:396-399 | the resource system's remote falls back to the main URL when its fallback is empty; the service's remote always appends the file name to its fallback |
| Service.ResolveName | Runtime/Internal/YooService.cs:40-44 | a non-empty name is kept as given; a null or empty name becomes the settings' default name, or no name when there are no settings or that default is empty; a resolved name is never empty |
| Service.LookupPackage | Runtime/Internal/YooService.cs:40-53 | a package is found exactly when the resolved name is in the library's table |
| Service.IsReady | Runtime/Internal/YooService.cs:55-59 | true exactly when the package is found and its status is Succeed |
| Service.NullAndEmptyNamesAgree | Runtime/Internal/YooService.cs:42-44 | a null name and an empty name look up the same default package; a non-empty name is looked up as given |
| Service.FirstConfig | Runtime/Internal/YooService.cs:390-395 | the position of the first configuration with that name, or none when no configuration has it |
| Service.PackageConfigFor | Runtime/Internal/YooService.cs:385-396 | without settings there is none; otherwise, with a null name meaning the default name, there is none exactly when no configuration has the name, and the one found is the first configuration that has it |
| Service.BuildFullUrl | Runtime/Internal/YooService.cs:204-213 | the URL segments joined by '/'; `BuildFullUrlClosedForm` writes the result out segment by segment |
| Service.BuildFullUrlClosedForm | Runtime/Internal/YooService.cs:204-213 | the full URL is the trimmed base, the project id (only when non-empty), the platform, the game version and the package, joined by '/' |
| Service.ServiceRemote | Runtime/Internal/YooService.cs:164-174 | the main URL is the full URL of the package's server |
| Service.FallbackCollapsesToMain | Runtime/Internal/YooService.cs:167-170 | an empty resolved fallback server gives a fallback URL equal to the main URL; otherwise it is built from the fallback server |
| Service.InitParamsFor | Runtime/Internal/YooService.cs:125-202 | each listed mode selects its own parameters: a built editor simulation, offline, and host and web with the package's remote services; editor mode without a simulated build and an unlisted mode give no operation, and only they do |
| Service.InitStep | Runtime/Internal/YooService.cs:90-123 | the package exists afterwards; an initialized package is skipped; otherwise an operation makes exactly that package's one initialization call and succeeds with it, and no operation makes no call, keeps the status and returns true exactly in editor mode |
| Service.InitStepTouchesOnlyItsPackage | Runtime/Internal/YooService.cs:90-123 | one initialization changes no other package and makes at most one call, for its own package |
| Service.InitStepIdempotent | Runtime/Internal/YooService.cs:96-100 | initializing a package that is already initialized is skipped, whatever the library would answer |
| Service.InitRunRegisters | Runtime/Internal/YooService.cs:72-88 | every package the loop reached is created and cached, and no other package is created |
| Service.InitRunAllReady | Runtime/Internal/YooService.cs:72-88 | outside editor mode, a successful run leaves every configured package initialized |
| Service.VersionStep | Runtime/Internal/YooService.cs:219-237 | success needs the package and a successful request; the version is cached under `name ?? default`; a missing package makes no call |
| Service.VersionKey | Runtime/Internal/YooService.cs:221-234 | the name as given, or the default name for a null name; `EmptyNameVersionKey` shows an empty name is kept |
| Service.EmptyNameVersionKey | Runtime/Internal/YooService.cs:221-234 | `UpdateVersionAsync("")` asks the default package but caches the version under "" |
| Service.ManifestStep | Runtime/Internal/YooService.cs:249-279 | a cached version is reused without a request; otherwise one is requested and cached; a failed request stops before the manifest update |
| Service.ManifestUsesCachedVersion | Runtime/Internal/YooService.cs:254-268 | a successful update ran on the version now cached, and a cached version is never replaced |
| Service.VersionRunCachesAll | Runtime/Internal/YooService.cs:239-247 | after a successful run every configured package has a cached version, and no cached key is lost |
| Service.ManifestRunCachesAll | Runtime/Internal/YooService.cs:281-289 | after a successful run every configured package has a cached version, and earlier cached versions are unchanged |
| Service.DownloadInfo | Runtime/Internal/YooService.cs:313-325 | (0, 0) unless the package is initialized and the query answers; then the answer's count and bytes |
| Service.YooService.Initialize | Runtime/Internal/YooService.cs:28-34 | only the first call stores the settings and initializes the library |
| Service.YooService.GetPackage | Runtime/Internal/YooService.cs:40-53 | returns the looked-up package and caches exactly that package |
| Service.YooService.IsPackageInitialized | Runtime/Internal/YooService.cs:55-59 | returns `IsReady` of the name |
| Service.YooService.GetPackageConfig | Runtime/Internal/YooService.cs:385-396 | returns `PackageConfigFor`: the first configuration with the requested name, or null when none has it; nothing changes |
| Service.YooService.InitPackageInternal | Runtime/Internal/YooService.cs:90-123 | the library table, the calls and the result are those of `InitStep`, and the package is cached |
| Service.YooService.InitPackage | Runtime/Internal/YooService.cs:65-70 | returns false and changes nothing without a configuration; otherwise it performs `InitStep` on that configuration |
| Service.YooService.InitEach | Runtime/Internal/YooService.cs:77-81 | the loop's result, library table, calls and cache are those of the run that stops at the first failure |
| Service.YooService.InitAllPackages | Runtime/Internal/YooService.cs:72-88 | returns false with no settings or no packages; otherwise it performs the run, and after success the default package becomes the library's default |
| Service.YooService.UpdateVersion | Runtime/Internal/YooService.cs:219-237 | result, version, version cache, calls and package cache as `VersionStep` defines |
| Service.YooService.UpdateAllVersions | Runtime/Internal/YooService.cs:239-247 | the loop's effect is the run of `VersionStep` that stops at the first failure |
| Service.YooService.UpdateManifest | Runtime/Internal/YooService.cs:249-279 | result, version cache, calls and package cache as `ManifestStep` defines |
| Service.YooService.UpdateAllManifests | Runtime/Internal/YooService.cs:281-289 | the loop's effect is the run of `ManifestStep` that stops at the first failure |
| Service.YooService.CachedVersion | Runtime/Internal/YooService.cs:291-295 | the version cached under `name ?? default`, or null when none is cached |
| Service.YooService.CreateDownloader | Runtime/Internal/YooService.cs:301-311 | null without a package; otherwise a new downloader with the configured concurrency and retries, and exactly one creation call |
| Service.YooService.GetDownloadInfo | Runtime/Internal/YooService.cs:313-325 | returns `DownloadInfo`; the package is cached as `GetPackage` does; only an initialized package whose query answers adds one probe downloader (concurrency 1, retries 1) to the calls; nothing else changes |
| Service.YooService.NeedDownload | Runtime/Internal/YooService.cs:327-331 | true exactly when `DownloadInfo` counts files; the calls, downloader ids and package cache change as in `GetDownloadInfo`, and nothing else |
| Download.ProgressOf | Runtime/Download/DownloadManager.cs:97-103 | the progress record copies the four counters unchanged |
| Download.ErrorLine | Runtime/Download/DownloadManager.cs:108 | the text "file: error"; `ErrorLineInjective` shows it determines the file and the error |
| Download.ErrorLineInjective | Runtime/Download/DownloadManager.cs:108 | the text "file: error" determines the file and the error when the file name has no ':' |
| Download.ReportEvent | Runtime/Download/DownloadManager.cs:95-109 | an update report raises the download task's progress event; an error report raises its error event with "file: error" |
| Download.ReportEvents | Runtime/Download/DownloadManager.cs:95-109 | one event per report, in order |
| Download.ExecuteEvents | Runtime/Download/DownloadManager.cs:85-123 | every event one download task raises; `ExecuteEventsComplete` states when it completes |
| Download.ExecuteEventsComplete | Runtime/Download/DownloadManager.cs:85-123 | a task completes precisely when there was nothing to fetch or the download succeeded; completion is raised once and last; every event carries the download task id |
| Download.MonitorEventOf | Runtime/YooAssetResourceSystem.cs:230-245 | an update report raises the progress event and an error report raises the error text |
| Download.MonitorEvents | Runtime/YooAssetResourceSystem.cs:230-245 | one monitor event per report, none of them a completion |
| Download.LastProgress | Runtime/YooAssetResourceSystem.cs:230-240 | without update reports the current progress is kept |
| Download.LastProgressIsLastUpdate | Runtime/YooAssetResourceSystem.cs:230-240 | after a run of reports the current progress is that of the last update report |
| Download.RemoveFirst | Runtime/Download/DownloadManager.cs:114 | removes one occurrence of the downloader, or nothing when it is absent; the multiset loses exactly that one element |
| Download.FirstIndex | Runtime/Download/DownloadManager.cs:114 | the position of the first occurrence of a downloader in the list |
| Download.RemoveFirstDeletesFirst | Runtime/Download/DownloadManager.cs:114 | `List.Remove` deletes the first occurrence and keeps the order of the rest: the list before it followed by the list after it |
| Download.RemoveFirstOfAppended | Runtime/Download/DownloadManager.cs:93-114 | removing a downloader just added to a list that did not hold it restores the list |
| Download.DownloadManager.HasActiveDownloads | Runtime/Download/DownloadManager.cs:156 | true exactly when the active list is non-empty |
| Download.DownloadManager.Download | Runtime/Download/DownloadManager.cs:32-47 | creates one downloader with the configured concurrency and retries; succeeds exactly when nothing was to fetch or the download succeeded; the active list is restored |
| Download.DownloadManager.ExecuteDownload | Runtime/Download/DownloadManager.cs:85-123 | nothing to fetch completes at once without beginning; otherwise the downloader is added, begins, is removed, and its events are `ExecuteEvents` |
| Download.DownloadManager.Begin | Runtime/Download/DownloadManager.cs:93-111 | the downloader joins the active list, then begins |
| Download.DownloadManager.Finish | Runtime/Download/DownloadManager.cs:112-122 | the reports become events; the downloader leaves the list; completion only on success |
| Download.DownloadManager.Query | Runtime/Download/DownloadManager.cs:52-83 | a probe downloader with concurrency 1 and retries 1 answers the count and bytes; it never begins |
| Download.DownloadManager.Broadcast | Runtime/Download/DownloadManager.cs:128-151 | one control call per active downloader, in list order, appended to the calls; no other library state changes |
| Download.DownloadManager.PauseAll | Runtime/Download/DownloadManager.cs:128-132 | every active downloader is paused, in list order |
| Download.DownloadManager.ResumeAll | Runtime/Download/DownloadManager.cs:137-141 | every active downloader is resumed, in list order |
| Download.DownloadManager.CancelAll | Runtime/Download/DownloadManager.cs:146-151 | every active downloader is cancelled, in list order, and none is active afterwards |
| ResourceSystem.InitParamsFor | Runtime/YooAssetResourceSystem.cs:72-79 | each listed mode gives its parameters; host and web use the global URLs with a collapsing fallback; an unlisted mode gives none |
| ResourceSystem.InitRegistry | Runtime/YooAssetResourceSystem.cs:68-96 | the package exists afterwards; with an operation its status is the operation's result; without one it is unchanged |
| ResourceSystem.TagsFor | Runtime/YooAssetResourceSystem.cs:177 | the given tags, or the settings' obsolete tags when none are given |
| ResourceSystem.DownloadPart | Runtime/YooAssetResourceSystem.cs:177-201 | the download stages; their outcome always enters some stage; `DownloadPartDownloads` and `DownloadPartRecordsError` state its properties |
| ResourceSystem.UpdatePart | Runtime/YooAssetResourceSystem.cs:174-175 | the version and manifest stages: no downloader, no event and the progress kept; success keeps the error message and leaves a version |
| ResourceSystem.HostPart | Runtime/YooAssetResourceSystem.cs:172-203 | the host-mode stages, which always enter some stage; `HostPartFollowsPipeline`, `HostPartDownloads` and `HostPartStartsWithUpdate` state their properties |
| ResourceSystem.FullUpdate | Runtime/YooAssetResourceSystem.cs:168-208 | a whole run; `FullUpdateStages`, `FailureRecordsError`, `NonHostSkipsUpdate` and `DownloadOnlyWhenNeeded` state its properties |
| ResourceSystem.HostPartFollowsPipeline | Runtime/YooAssetResourceSystem.cs:172-207 | the host stages enter version, manifest, downloader and downloading in order, ending in Done or Failed |
| ResourceSystem.FullUpdateStages | Runtime/YooAssetResourceSystem.cs:168-208 | a run's states are the leading pipeline stages in order; it ends in Done exactly when it returns true, and in Failed otherwise |
| ResourceSystem.NonHostSkipsUpdate | Runtime/YooAssetResourceSystem.cs:170-172 | outside host mode a run is initialization only: no version, manifest or download |
| ResourceSystem.DownloadPartRecordsError | Runtime/YooAssetResourceSystem.cs:192-198 | the download stages fail only at a failed download, recording its error |
| ResourceSystem.HostPartRecordsError | Runtime/YooAssetResourceSystem.cs:103-152 | a failing version or manifest stage records its operation's error |
| ResourceSystem.FailureRecordsError | Runtime/YooAssetResourceSystem.cs:81-95 | a failed run records the failing operation's error, or "Invalid play mode"; a successful run keeps the old message |
| ResourceSystem.DownloadPartDownloads | Runtime/YooAssetResourceSystem.cs:177-201 | a download begins only for non-empty tags and a positive file count; completion is raised last, only on success |
| ResourceSystem.HostPartDownloads | Runtime/YooAssetResourceSystem.cs:172-202 | the host stages download only after a successful version and manifest update |
| ResourceSystem.DownloadOnlyWhenNeeded | Runtime/YooAssetResourceSystem.cs:168-208 | a run downloads exactly when host mode and every earlier stage succeeded and the tags find files; completion is raised once, last |
| ResourceSystem.HostPartStartsWithUpdate | Runtime/YooAssetResourceSystem.cs:172-176 | the host stages begin with the version and manifest calls and keep their version |
| ResourceSystem.ManifestReusesVersion | Runtime/YooAssetResourceSystem.cs:122-139 | the manifest uses the fetched version unless it is empty; only then is the version requested a second time |
| ResourceSystem.YooAssetResourceSystem.OnInitialize | Runtime/YooAssetResourceSystem.cs:54-59 | stores the settings and initializes the library |
| ResourceSystem.YooAssetResourceSystem.OpenPackage | Runtime/YooAssetResourceSystem.cs:68-70 | the package is fetched or created, then becomes the default package |
| ResourceSystem.YooAssetResourceSystem.InitPackageStage | Runtime/YooAssetResourceSystem.cs:63-101 | enters InitPackage; the library table is `InitRegistry`; success exactly when an operation exists and succeeds; a failure records its error; success creates a download manager |
| ResourceSystem.YooAssetResourceSystem.InitializeDefault | Runtime/YooAssetResourceSystem.cs:72-100 | the initialization half of `InitPackageAsync`, with the same outcomes |
| ResourceSystem.YooAssetResourceSystem.UpdateVersionStage | Runtime/YooAssetResourceSystem.cs:103-120 | one version call; success keeps the version; failure records its error |
| ResourceSystem.YooAssetResourceSystem.UpdateManifestStage | Runtime/YooAssetResourceSystem.cs:122-152 | a non-empty current version is used directly; otherwise a version is requested first; failures record the error |
| ResourceSystem.YooAssetResourceSystem.CreateDownloaderStage | Runtime/YooAssetResourceSystem.cs:154-166 | enters CreateDownloader and creates one downloader with the configured concurrency and retries |
| ResourceSystem.YooAssetResourceSystem.StartMonitor | Runtime/YooAssetResourceSystem.cs:214-219 | the callbacks are attached only when there is a current downloader |
| ResourceSystem.YooAssetResourceSystem.StopMonitor | Runtime/YooAssetResourceSystem.cs:221-228 | the callbacks are detached |
| ResourceSystem.YooAssetResourceSystem.Deliver | Runtime/YooAssetResourceSystem.cs:230-245 | while attached, each report updates the progress and raises its monitor event; otherwise nothing changes |
| ResourceSystem.YooAssetResourceSystem.BeginDownloadStage | Runtime/YooAssetResourceSystem.cs:185-188 | the downloader becomes current, the state is Downloading, and the callbacks are attached to it before it begins |
| ResourceSystem.YooAssetResourceSystem.DownloadStage | Runtime/YooAssetResourceSystem.cs:185-200 | the download runs monitored; failure records its error; success raises completion; the callbacks are detached afterwards |
| ResourceSystem.YooAssetResourceSystem.RunDownloadStages | Runtime/YooAssetResourceSystem.cs:177-201 | the download stages do what `DownloadPart` defines |
| ResourceSystem.YooAssetResourceSystem.RunUpdateStages | Runtime/YooAssetResourceSystem.cs:174-175 | the version and manifest stages do what `UpdatePart` defines |
| ResourceSystem.YooAssetResourceSystem.RunHostStages | Runtime/YooAssetResourceSystem.cs:172-203 | the host-mode stages do what `HostPart` defines |
| ResourceSystem.YooAssetResourceSystem.RunAfterInit | Runtime/YooAssetResourceSystem.cs:172-207 | after initialization, Done outside host mode, otherwise the host stages; the download manager is unchanged |
| ResourceSystem.YooAssetResourceSystem.RunFullUpdate | Runtime/YooAssetResourceSystem.cs:98-208 | with or without the callbacks attached: state, stages, error, version, calls, downloader, events and progress are those of `FullUpdate`; the default package is the settings'; a successful initialization creates a new download manager for that package with no active downloads, and otherwise the old manager is kept; afterwards it is downloading only if it was before and the run started no download |
| Facade.AssetExists | Runtime/YooSystem.cs:84-92 | true only for an initialized package whose check answers true; a throwing check gives false |
| Facade.NeedsAll | Runtime/YooSystem.cs:121-132 | true only for an initialized package, with settings present and an answering scan that finds files |
| Facade.YooSystem.OnInitialize | Runtime/YooSystem.cs:455-461 | stores the settings and takes the service's default package |
| Facade.YooSystem.IsDownloading | Runtime/YooSystem.cs:35 | always false, since no member ever sets the current downloader |
| Facade.YooSystem.GetDownloadManager | Runtime/YooSystem.cs:52-66 | null without settings; the manager cached under `name ?? default` with the service cache unchanged, or else a new manager cached for a found package, with the service caching the looked-up package as `GetPackage` does; nothing is cached in the facade for a missing package |
| Facade.YooSystem.CheckAssetExists | Runtime/YooSystem.cs:84-92 | returns `AssetExists` |
| Facade.YooSystem.GetDownloadCount | Runtime/YooSystem.cs:97-101 | the file count of the service's `DownloadInfo`; the service changes as in `GetDownloadInfo` |
| Facade.YooSystem.GetDownloadBytes | Runtime/YooSystem.cs:106-110 | the byte count of the service's `DownloadInfo`; the service changes as in `GetDownloadInfo` |
| Facade.YooSystem.NeedDownloadAll | Runtime/YooSystem.cs:121-132 | returns `NeedsAll`; exactly one whole-package downloader is created, and only when the package is ready, settings exist and the scan answers; the version cache and initialization flags are unchanged |
| Facade.YooSystem.TryUnloadUnusedAsset | Runtime/YooSystem.cs:236-242 | false exactly when the package is missing; otherwise one unload call is made; the package is cached as `GetPackage` does, and the version cache is unchanged |
| Facade.YooSystem.OnDownloadProgress | Runtime/YooSystem.cs:194-204 | the current progress copies the update's counters, and one progress event is raised |
| Facade.YooSystem.OnDownloadError | Runtime/YooSystem.cs:206-209 | one error event "file: error" is raised and the progress is kept |
| BuildSettings.FindFirst | Editor/Build/YooAssetBuildSettings.cs:112 | the position of the first entry with the name, or none when no entry has it |
| BuildSettings.Lookup | Editor/Build/YooAssetBuildSettings.cs:110-114 | the flag of the first entry with the name, or true when there is none |
| BuildSettings.Upsert | Editor/Build/YooAssetBuildSettings.cs:119-134 | afterwards the name reads the new flag; an unlisted name is appended; other entries keep their positions |
| BuildSettings.UpsertKeepsOthers | Editor/Build/YooAssetBuildSettings.cs:119-134 | setting one name's flag leaves every other name's flag unchanged |
| BuildSettings.CleanupLookup | Editor/Build/YooAssetBuildSettings.cs:139-143 | after cleanup a valid name reads as before, and any other name reads as the default (selected) |
| BuildSettings.YooAssetBuildSettings.GetPackageSelected | Editor/Build/YooAssetBuildSettings.cs:110-114 | `Lookup` of the selections: the first entry's flag, or selected by default |
| BuildSettings.YooAssetBuildSettings.GetStepEnabled | Editor/Build/YooAssetBuildSettings.cs:148-152 | `Lookup` of the step states: the first entry's flag, or enabled by default |
| BuildSettings.YooAssetBuildSettings.SetPackageSelected | Editor/Build/YooAssetBuildSettings.cs:119-134 | the selections become `Upsert` of the old ones; nothing else changes |
| BuildSettings.YooAssetBuildSettings.CleanupSelections | Editor/Build/YooAssetBuildSettings.cs:139-143 | keeps exactly the entries with valid names, in order |
| BuildSettings.YooAssetBuildSettings.SetStepEnabled | Editor/Build/YooAssetBuildSettings.cs:157-164 | the step states become `Upsert` of the old ones; nothing else changes |
| BuildSettings.YooAssetBuildSettings.Save | Editor/Build/YooAssetBuildSettings.cs:169-172 | one more write of the settings asset; no value changes |
| BuildPipeline.PackageNames | Editor/Build/YooAssetBuildPipeline.cs:45-55 | the configured package names in order, or empty for a null setting |
| BuildPipeline.FirstPackage | Editor/Build/YooAssetBuildPipeline.cs:66 | a found package is configured under that name; none means no package has it |
| BuildPipeline.FirstNamed | Editor/Build/YooAssetBuildPipeline.cs:66 | `FirstOrDefault` by name: a found package is in the list under that name; none means no package has it |
| BuildPipeline.FirstNamedIsFirst | Editor/Build/YooAssetBuildPipeline.cs:66 | the package found is the first one configured under the name |
| BuildPipeline.UploadConfigFor | Editor/Build/YooAssetBuildPipeline.cs:147-153 | the configuration at the index when it is in range, otherwise the current one |
| BuildPipeline.IsHot | Editor/Build/YooAssetBuildPipeline.cs:65-88 | a fresh answer: only a configured package can be a hot-update package |
| BuildPipeline.HotView | Editor/Build/YooAssetBuildPipeline.cs:60-88 | the cached answer when there is one, the fresh one otherwise; `HotViewOfConsistentCache` and `CachedAnswerSticks` state its properties |
| BuildPipeline.YooAssetBuildPipeline.Enabled | Editor/Build/YooAssetBuildPipeline.cs:26 | the persisted `pipelineEnabled` flag; `SetEnabled` states how it is written |
| BuildPipeline.YooAssetBuildPipeline.GetUploadConfig | Editor/Build/YooAssetBuildPipeline.cs:147-153 | `UploadConfigFor` at the persisted upload configuration index |
| BuildPipeline.YooAssetBuildPipeline.SetEnabled | Editor/Build/YooAssetBuildPipeline.cs:27-34 | the new value is stored and saved only when it differs |
| BuildPipeline.YooAssetBuildPipeline.GetAvailablePackages | Editor/Build/YooAssetBuildPipeline.cs:45-55 | returns `PackageNames` |
| BuildPipeline.YooAssetBuildPipeline.ScanPackage | Editor/Build/YooAssetBuildPipeline.cs:73-88 | true exactly when some collector of some group collects a hot-update path |
| BuildPipeline.YooAssetBuildPipeline.IsHotUpdatePackage | Editor/Build/YooAssetBuildPipeline.cs:60-89 | a cached answer is returned unchanged; otherwise the computed answer (false for an unknown package) is returned and cached |
| BuildPipeline.YooAssetBuildPipeline.ClearHotUpdateCache | Editor/Build/YooAssetBuildPipeline.cs:121-124 | the cache is empty |
| BuildPipeline.YooAssetBuildPipeline.GetSelectedPackages | Editor/Build/YooAssetBuildPipeline.cs:107-116 | the configured packages that are selected, in configuration order |
| BuildPipeline.YooAssetBuildPipeline.HasHotUpdatePackageSelected | Editor/Build/YooAssetBuildPipeline.cs:94-102 | true exactly when some selected package is a hot-update package as the cache sees it; the cached answers never change |
| BuildPipeline.HotViewOfConsistentCache | Editor/Build/YooAssetBuildPipeline.cs:60-63 | while the cache agrees with the collector setting, it answers what a fresh computation would |
| BuildPipeline.CachedAnswerSticks | Editor/Build/YooAssetBuildPipeline.cs:60-63 | once an answer is cached, it is given again even if the collector setting changes, until the cache is cleared |

## Notes on the code

Where the code's behaviour differs from the documented intent, the model follows the code:

- `RunFullUpdateAsync` requests the version, updates the manifest and downloads only in `HostPlayMode`. In `WebPlayMode` it stops after initialization.
- `ErrorMessage` is never cleared when a run starts. A successful run leaves the previous message in place.
- `YooSystem` never assigns `_currentDownloader`. So its `IsDownloading` is always false, and its `StartMonitor` and `StopMonitor` do nothing.
- `UpdateVersionAsync` and `UpdateManifestAsync` cache versions under `packageName ?? DefaultPackageName`. A null name is replaced, but an empty name is kept as "". Meanwhile `GetPackage` resolves both null and "" to the default package (`EmptyNameVersionKey`).
- The resource system's remote services fall back to the main URL when the fallback URL is empty. The service's remote services do not, but the service replaces an empty fallback server before building its URL.
- `HotUpdateState` is declared outside these files. The model assumes `Idle` is its first member, so `Idle` is the initial state.

## Left out

- Asset loading, scene loading, instantiation and the unload-all APIs (`Load*`, `LoadSceneAsync`, `InstantiateAsync`, `UnloadUnusedAssetsAsync`, `ForceUnloadAllAssetsAsync` and the all-package variants): they hand work to the library and return its handles; no state of the wrapper changes.
- `ClearUnusedCacheAsync`, `ClearAllCacheAsync` and `GetCacheInfo`: forwards to the library, and a constant zero record.
- `DownloadProgress.Progress`: a floating-point ratio.
- Logging, `UniTask` scheduling and awaiting: each await is one oracle outcome. Concurrent interleavings are not modelled, except the pause/resume/cancel window that `DownloadManager.Begin` / `Finish` leave open.
- `EditorSimulateModeHelper.SimulateBuild` and its exceptions: an oracle flag says whether the simulated build succeeded. The resource system's editor initialization always builds an operation.
- `YooAssetSettings.Instance` being null in `YooService`, `YooAssetResourceSystem` and the download manager: those members require settings. The source would fail with a null reference there.
- Null elements inside arrays, and a null `CollectPath` or `Groups`: not modelled.
- `ProjectId`, `GameVersion` and `PlatformName` come from the framework settings and the build platform; they are fields of the settings value.
- YooSystem's forwarding members (`GetPackage`, `IsPackageInitialized`, `NeedDownload`, `GetDownloadInfo`, `InitPackageAsync`, `UpdateVersionAsync`, `UpdateManifestAsync`, `CreateDownloaderByTags`, `CreateDownloaderByPaths`, the `DownloadManager` property): they are one-line calls of the service methods modelled above.
- YooSystem's `StartMonitor` and `StopMonitor`: they do nothing, since no member sets the current downloader.
- Registering `YooSystem` as the framework's resource loader (`AzathrixFramework.ResourcesLoader`) and the pipeline registrar: framework wiring.
- `DrawConfigGUI`, `DrawUploadConfigGUI`, `GetUploadDirectories` and `GetBuildOutputRoot`: editor UI and file-system paths.
- `DllBuildMode` and the other scalar build options: plain fields with no logic.
- BuildSettings.Upsert: the entries are reference objects in the source and values here. Updating the first entry in place is the same as replacing it at its index, so nothing observable is lost.
- Strings.EndsWith: models ordinal comparison. .NET's `EndsWith(string)` compares by culture, which can differ from ordinal comparison for some non-ASCII text.
- Library calls made by downloaders themselves (file transfers, retries): the library's internals.
- UpdateVersionStage: requires a default package. Called before `InitPackageAsync`, the source sets `State` and then fails with a null reference; the model has no exceptions.
- UpdateManifestStage: requires a default package, for the same reason as `UpdateVersionStage`.
- CreateDownloaderStage: requires a default package, for the same reason as `UpdateVersionStage`.
- Settings as a snapshot: `YooService`, `YooAssetResourceSystem` and `DownloadManager` hold a reference to the mutable settings asset and read it on every call. The model holds the settings value they were given, so an edit to the asset after that is not seen.
- HasHotUpdatePackageSelected: the cache afterwards keeps every earlier answer and gains answers only for configured names. Which names gain one is not stated, because the loop stops at the first selected hot-update package and only the selected names it visits are asked.
