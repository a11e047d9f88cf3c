/** YooSystem: the façade the framework talks to. It forwards package
    operations to the service, guards the asset queries with the package's
    initialization status, keeps one download manager per package name, made
    on first request, and turns a downloader's callbacks into monitor events. */
module Facade {
  import opened Common
  import opened Settings
  import opened Library
  import opened Download
  import opened Service

  /** `CheckAssetExists(assetPath, name)`: the package exists, is initialized,
      and the library's validity check answers yes without throwing. */
  function AssetExists(settings: Option<YooAssetSettings>, registry: map<string, PackageStatus>,
                       name: Option<string>, check: Probe<bool>): (r: bool)
    ensures r ==> IsReady(settings, registry, name)
    ensures !IsReady(settings, registry, name) || check.Threw? ==> !r
    ensures IsReady(settings, registry, name) && check.Answered? ==> r == check.answer
  {
    if !IsReady(settings, registry, name) then false
    else match check
      case Threw => false
      case Answered(valid) => valid
  }

  /** `NeedDownloadAll(name)`: the package exists and is initialized, the
      façade has settings to build the downloader with (a missing one throws
      inside the `try`), and the downloader for the whole package finds files. */
  function NeedsAll(own: Option<YooAssetSettings>, settings: Option<YooAssetSettings>,
                    registry: map<string, PackageStatus>, name: Option<string>, scan: Probe<Scan>): (r: bool)
    ensures r ==> IsReady(settings, registry, name) && own.Some? && scan.Answered?
    ensures IsReady(settings, registry, name) && own.Some? && scan.Answered? ==> (r <==> scan.answer.count > 0)
  {
    if !IsReady(settings, registry, name) || own.None? then false
    else match scan
      case Threw => false
      case Answered(found) => found.count > 0
  }

  class YooSystem {
    const service: YooService
    /** `_settings`: null until `OnInitializeAsync`. */
    var settings: Option<YooAssetSettings>
    /** `_defaultPackage`. */
    var defaultPackage: Option<string>
    /** `_currentDownloader`: no member of the class ever assigns it. */
    var currentDownloader: Option<Downloader>
    /** `_downloadManagers`, keyed by the name they were requested under. */
    var managers: map<string, DownloadManager>
    /** `CurrentProgress`. */
    var currentProgress: DownloadProgress
    /** The monitor events raised so far. */
    var monitorEvents: seq<MonitorEvent>

    /** The service is consistent; there is never a current downloader; every
        cached manager drives a package of the service's library. */
    ghost predicate Valid()
      reads this, service, service.lib
    {
      && service.Valid()
      && currentDownloader.None?
      && forall k :: k in managers ==> managers[k].lib == service.lib && managers[k].package in service.lib.packages
    }

    constructor (service: YooService)
      requires service.Valid()
      ensures this.service == service && Valid()
      ensures settings.None? && defaultPackage.None? && managers == map[] && monitorEvents == []
    {
      this.service := service;
      settings := None;
      defaultPackage := None;
      currentDownloader := None;
      managers := map[];
      currentProgress := DownloadProgress(0, 0, 0, 0);
      monitorEvents := [];
    }

    /** `OnInitializeAsync()`: takes the settings instance (possibly null) and
        the service's default package. */
    method OnInitialize(s: Option<YooAssetSettings>)
      requires Valid()
      modifies this, service
      ensures Valid()
      ensures settings == s && defaultPackage == LookupPackage(service.settings, service.lib.packages, None)
      ensures managers == old(managers) && monitorEvents == old(monitorEvents) && currentProgress == old(currentProgress)
      ensures service.packages == old(service.packages) + Filled(defaultPackage)
      ensures service.settings == old(service.settings) && service.versions == old(service.versions)
      ensures service.initialized == old(service.initialized)
    {
      settings := s;
      defaultPackage := service.GetPackage(None);
    }

    /** `IsDownloading`: a current downloader that is not done. */
    function IsDownloading(): (r: bool)
      reads this, service, service.lib
      ensures Valid() ==> !r
    {
      currentDownloader.Some? && currentDownloader.value.id !in service.lib.finished
    }

    /** `GetDownloadManager(name)`: null without settings; otherwise the manager
        cached under `name ?? DefaultPackageName`, or a new one for the package
        that name finds, cached under it; nothing is cached when the package is
        missing. */
    method GetDownloadManager(name: Option<string>) returns (r: Option<DownloadManager>)
      requires Valid()
      modifies this, service
      ensures Valid()
      ensures settings.None? ==> r.None? && managers == old(managers)
      ensures settings.Some? ==>
        var key := VersionKey(settings, name);
        var found := LookupPackage(service.settings, service.lib.packages, Some(key));
        && (key in old(managers) ==> r == Some(old(managers)[key]) && managers == old(managers))
        && (key !in old(managers) && found.None? ==> r.None? && managers == old(managers))
        && (key !in old(managers) && found.Some? ==>
              r.Some? && fresh(r.value) && r.value.package == found.value && r.value.settings == settings.value
              && r.value.active == [] && r.value.events == [] && managers == old(managers)[key := r.value])
        && (r.Some? ==> key in managers && managers[key] == r.value)
        && (key in old(managers) ==> service.packages == old(service.packages))
        && (key !in old(managers) ==> service.packages == old(service.packages) + Filled(found))
      ensures settings.None? ==> service.packages == old(service.packages)
      ensures settings == old(settings) && monitorEvents == old(monitorEvents) && currentProgress == old(currentProgress)
      ensures defaultPackage == old(defaultPackage) && currentDownloader == old(currentDownloader)
      ensures service.settings == old(service.settings) && service.versions == old(service.versions)
      ensures service.initialized == old(service.initialized)
    {
      if settings.None? {
        return None;
      }
      var key := VersionKey(settings, name);
      if key in managers {
        return Some(managers[key]);
      }
      var package := service.GetPackage(Some(key));
      if package.None? {
        return None;
      }
      var manager := new DownloadManager(service.lib, package.value, settings.value);
      managers := managers[key := manager];
      return Some(manager);
    }

    /** `CheckAssetExists(assetPath, name)`; `check` is the library's
        `CheckLocationValid(assetPath)`. */
    method CheckAssetExists(assetPath: string, name: Option<string>, check: Probe<bool>) returns (r: bool)
      requires Valid()
      modifies service
      ensures Valid()
      ensures r == AssetExists(service.settings, service.lib.packages, name, check)
      ensures service.packages == old(service.packages) + Filled(LookupPackage(service.settings, service.lib.packages, name))
      ensures service.settings == old(service.settings) && service.versions == old(service.versions)
      ensures service.initialized == old(service.initialized)
    {
      var p := service.GetPackage(name);
      if p.None? || service.lib.packages[p.value] != Succeed {
        return false;
      }
      match check
      case Threw => return false;
      case Answered(valid) => return valid;
    }

    /** `GetDownloadCount(tags, name)`: the file count of `GetDownloadInfo`. */
    method GetDownloadCount(tags: seq<string>, name: Option<string>, probe: Probe<Scan>) returns (count: int)
      requires Valid()
      modifies service, service.lib
      ensures Valid()
      ensures count == DownloadInfo(service.settings, old(service.lib.packages), name, probe).0
      ensures service.Probed(tags, name, probe)
    {
      var c, _ := service.GetDownloadInfo(tags, name, probe);
      count := c;
    }

    /** `GetDownloadBytes(tags, name)`: the byte count of `GetDownloadInfo`. */
    method GetDownloadBytes(tags: seq<string>, name: Option<string>, probe: Probe<Scan>) returns (bytes: int)
      requires Valid()
      modifies service, service.lib
      ensures Valid()
      ensures bytes == DownloadInfo(service.settings, old(service.lib.packages), name, probe).1
      ensures service.Probed(tags, name, probe)
    {
      var _, b := service.GetDownloadInfo(tags, name, probe);
      bytes := b;
    }

    /** `NeedDownloadAll(name)`: a downloader for the whole package with the
        configured concurrency and retries, never begun. */
    method NeedDownloadAll(name: Option<string>, scan: Probe<Scan>) returns (r: bool)
      requires Valid()
      modifies service, service.lib
      ensures Valid()
      ensures r == NeedsAll(settings, service.settings, old(service.lib.packages), name, scan)
      ensures var p := LookupPackage(service.settings, old(service.lib.packages), name);
        if IsReady(service.settings, old(service.lib.packages), name) && settings.Some? && scan.Answered? then
          service.lib.trace == old(service.lib.trace) + [CreateCall(old(service.lib.created), p.value, Everything,
                                                                    DownloadingMaxNum(settings.value),
                                                                    FailedTryAgain(settings.value))]
        else service.lib.trace == old(service.lib.trace)
      ensures service.lib.created == old(service.lib.created)
                + (if IsReady(service.settings, old(service.lib.packages), name) && settings.Some? && scan.Answered? then 1 else 0)
      ensures service.lib.packages == old(service.lib.packages) && service.settings == old(service.settings)
      ensures service.packages == old(service.packages) + Filled(LookupPackage(service.settings, old(service.lib.packages), name))
      ensures service.versions == old(service.versions) && service.initialized == old(service.initialized)
      ensures service.lib.initialized == old(service.lib.initialized) && service.lib.finished == old(service.lib.finished)
      ensures service.lib.defaultPackage == old(service.lib.defaultPackage)
    {
      var p := service.GetPackage(name);
      if p.None? || service.lib.packages[p.value] != Succeed {
        return false;
      }
      if settings.None? || scan.Threw? {
        return false;
      }
      var d := service.lib.NewDownloader(p.value, Everything, DownloadingMaxNum(settings.value),
                                         FailedTryAgain(settings.value), scan.answer);
      r := d.totalCount > 0;
    }

    /** `TryUnloadUnusedAsset(assetPath, name)`: false exactly when the package
        is missing; otherwise the library is asked to unload the asset. */
    method TryUnloadUnusedAsset(assetPath: string, name: Option<string>) returns (r: bool)
      requires Valid()
      modifies service, service.lib
      ensures Valid()
      ensures r <==> LookupPackage(service.settings, old(service.lib.packages), name).Some?
      ensures r ==> service.lib.trace == old(service.lib.trace)
                      + [UnloadCall(LookupPackage(service.settings, old(service.lib.packages), name).value, assetPath)]
      ensures !r ==> service.lib.trace == old(service.lib.trace)
      ensures service.lib.packages == old(service.lib.packages) && service.settings == old(service.settings)
      ensures service.packages == old(service.packages) + Filled(LookupPackage(service.settings, old(service.lib.packages), name))
      ensures service.versions == old(service.versions) && service.initialized == old(service.initialized)
      ensures service.lib.created == old(service.lib.created) && service.lib.finished == old(service.lib.finished)
      ensures service.lib.initialized == old(service.lib.initialized)
      ensures service.lib.defaultPackage == old(service.lib.defaultPackage)
    {
      var p := service.GetPackage(name);
      if p.None? {
        return false;
      }
      service.lib.TryUnloadUnused(p.value, assetPath);
      return true;
    }

    /** The progress callback: `CurrentProgress` takes the four counters of the
        update, and `OnProgressChanged` is raised with it. */
    method OnDownloadProgress(data: UpdateData)
      modifies this
      ensures currentProgress == ProgressOf(data)
      ensures monitorEvents == old(monitorEvents) + [ProgressChanged(currentProgress)]
      ensures settings == old(settings) && managers == old(managers) && currentDownloader == old(currentDownloader)
      ensures defaultPackage == old(defaultPackage)
    {
      currentProgress := ProgressOf(data);
      monitorEvents := monitorEvents + [ProgressChanged(currentProgress)];
    }

    /** The error callback: `OnDownloadError` is raised with `"{FileName}: {ErrorInfo}"`. */
    method OnDownloadError(data: ErrorData)
      modifies this
      ensures monitorEvents == old(monitorEvents) + [DownloadError(ErrorLine(data.fileName, data.errorInfo))]
      ensures currentProgress == old(currentProgress)
      ensures settings == old(settings) && managers == old(managers) && currentDownloader == old(currentDownloader)
      ensures defaultPackage == old(defaultPackage)
    {
      monitorEvents := monitorEvents + [DownloadError(ErrorLine(data.fileName, data.errorInfo))];
    }
  }
}
