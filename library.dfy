/** The YooAsset library as the wrapper sees it. Every asynchronous library
    operation is an oracle: its outcome is a parameter of the method that
    performs it. The library records, in `trace`, every call the wrapper makes
    that reaches the outside world (an initialization, a version request, a
    manifest update, creating or driving a downloader), so that the wrapper's
    contracts can say which calls happen, in what order, and which do not. */
module Library {
  import opened Common

  /** `InitializeStatus` of a resource package. */
  datatype PackageStatus = NotInitialized | Succeed | Failed

  /** The finished status of an asynchronous operation: `Succeed`, or failed with its `Error`. */
  datatype Op = Succeeded | Errored(error: string)

  /** A finished version request: the package version, or its `Error`. */
  datatype VersionOp = VersionSucceeded(version: string) | VersionErrored(error: string)

  /** What a downloader finds to do when it is created: `TotalDownloadCount` and `TotalDownloadBytes`. */
  datatype Scan = Scan(count: int, bytes: int)

  /** A library call the wrapper guards with `try`/`catch`: it either answers or throws. */
  datatype Probe<T> = Answered(answer: T) | Threw

  /** What a downloader is asked to fetch. */
  datatype Selection = ByTags(tags: seq<string>) | ByPaths(paths: seq<string>) | Everything

  /** The remote-services objects handed to the library. The two source files
      define two different classes: `PlainRemote` (the service's) always appends
      the file name to its fallback URL; `CollapsingRemote` (the resource
      system's) falls back to the main URL when its fallback URL is empty. */
  datatype RemoteServices =
    | PlainRemote(defaultUrl: string, fallbackUrl: string)
    | CollapsingRemote(defaultUrl: string, fallbackUrl: string)

  /** `GetRemoteMainURL(fileName)`. */
  function MainURL(r: RemoteServices, fileName: string): string {
    r.defaultUrl + "/" + fileName
  }

  /** `GetRemoteFallbackURL(fileName)`. */
  function FallbackURL(r: RemoteServices, fileName: string): (url: string)
    ensures r.CollapsingRemote? && r.fallbackUrl == "" ==> url == MainURL(r, fileName)
    ensures r.PlainRemote? || r.fallbackUrl != "" ==> url == r.fallbackUrl + "/" + fileName
  {
    if r.CollapsingRemote? && r.fallbackUrl == "" then MainURL(r, fileName)
    else r.fallbackUrl + "/" + fileName
  }

  /** The initialization parameters for each play mode. */
  datatype InitParams =
    | EditorSimulateParams
    | OfflineParams
    | HostParams(remote: RemoteServices)
    | WebParams(remote: RemoteServices)

  /** One call into the library that the wrapper makes. Downloaders are named
      by the id the library gave them when they were created. */
  datatype Call =
    | InitCall(package: string, params: InitParams)
    | VersionCall(package: string)
    | ManifestCall(package: string, version: string)
    | CreateCall(id: nat, package: string, selection: Selection, maxConcurrent: int, retries: int)
    | BeginCall(id: nat)
    | PauseCall(id: nat)
    | ResumeCall(id: nat)
    | CancelCall(id: nat)
    | UnloadCall(package: string, assetPath: string)

  /** A `ResourceDownloaderOperation`: what it was created for and what it found to do. */
  class Downloader {
    const id: nat
    const package: string
    const selection: Selection
    const maxConcurrent: int
    const retries: int
    const totalCount: int
    const totalBytes: int

    constructor (id: nat, package: string, selection: Selection, maxConcurrent: int, retries: int, scan: Scan)
      ensures this.id == id && this.package == package && this.selection == selection
      ensures this.maxConcurrent == maxConcurrent && this.retries == retries
      ensures totalCount == scan.count && totalBytes == scan.bytes
    {
      this.id := id;
      this.package := package;
      this.selection := selection;
      this.maxConcurrent := maxConcurrent;
      this.retries := retries;
      totalCount := scan.count;
      totalBytes := scan.bytes;
    }
  }

  /** The `YooAssets` singleton: the packages it holds, keyed by name, the
      default package, the downloaders it has created and seen finish. */
  class YooAssets {
    var initialized: bool
    var packages: map<string, PackageStatus>
    var defaultPackage: Option<string>
    var created: nat
    var finished: set<nat>
    var trace: seq<Call>

    constructor ()
      ensures !initialized && packages == map[] && defaultPackage == None
      ensures created == 0 && finished == {} && trace == []
    {
      initialized := false;
      packages := map[];
      defaultPackage := None;
      created := 0;
      finished := {};
      trace := [];
    }

    /** `YooAssets.Initialize()`. */
    method Initialize()
      modifies this
      ensures initialized
      ensures packages == old(packages) && defaultPackage == old(defaultPackage)
      ensures created == old(created) && finished == old(finished) && trace == old(trace)
    {
      initialized := true;
    }

    /** `YooAssets.TryGetPackage(name)`: the package of that name, if one was created. */
    function TryGetPackage(name: string): (r: Option<string>)
      reads this
      ensures r.Some? <==> name in packages
      ensures r.Some? ==> r.value == name
    {
      if name in packages then Some(name) else None
    }

    /** `YooAssets.CreatePackage(name)`: a new, uninitialized package. */
    method CreatePackage(name: string)
      requires name !in packages
      modifies this
      ensures packages == old(packages)[name := NotInitialized]
      ensures initialized == old(initialized) && defaultPackage == old(defaultPackage)
      ensures created == old(created) && finished == old(finished) && trace == old(trace)
    {
      packages := packages[name := NotInitialized];
    }

    /** `YooAssets.SetDefaultPackage(package)`. */
    method SetDefaultPackage(name: string)
      requires name in packages
      modifies this
      ensures defaultPackage == Some(name)
      ensures initialized == old(initialized) && packages == old(packages)
      ensures created == old(created) && finished == old(finished) && trace == old(trace)
    {
      defaultPackage := Some(name);
    }

    /** `package.InitializeAsync(params)`, awaited: the package's status becomes
        that of the operation. */
    method InitializePackage(name: string, params: InitParams, outcome: Op) returns (r: Op)
      requires name in packages
      modifies this
      ensures r == outcome
      ensures packages == old(packages)[name := if outcome.Succeeded? then Succeed else Failed]
      ensures trace == old(trace) + [InitCall(name, params)]
      ensures initialized == old(initialized) && defaultPackage == old(defaultPackage)
      ensures created == old(created) && finished == old(finished)
    {
      packages := packages[name := if outcome.Succeeded? then Succeed else Failed];
      trace := trace + [InitCall(name, params)];
      r := outcome;
    }

    /** `package.RequestPackageVersionAsync()` (or `UpdatePackageVersionAsync()`), awaited. */
    method RequestPackageVersion(name: string, outcome: VersionOp) returns (r: VersionOp)
      modifies this
      ensures r == outcome
      ensures trace == old(trace) + [VersionCall(name)]
      ensures initialized == old(initialized) && packages == old(packages) && defaultPackage == old(defaultPackage)
      ensures created == old(created) && finished == old(finished)
    {
      trace := trace + [VersionCall(name)];
      r := outcome;
    }

    /** `package.UpdatePackageManifestAsync(version)`, awaited. */
    method UpdatePackageManifest(name: string, version: string, outcome: Op) returns (r: Op)
      modifies this
      ensures r == outcome
      ensures trace == old(trace) + [ManifestCall(name, version)]
      ensures initialized == old(initialized) && packages == old(packages) && defaultPackage == old(defaultPackage)
      ensures created == old(created) && finished == old(finished)
    {
      trace := trace + [ManifestCall(name, version)];
      r := outcome;
    }

    /** `package.CreateResourceDownloader(...)` / `CreateBundleDownloader(...)`:
        a fresh downloader with the next id; nothing is downloaded yet. */
    method NewDownloader(name: string, selection: Selection, maxConcurrent: int, retries: int, scan: Scan)
      returns (d: Downloader)
      modifies this
      ensures fresh(d)
      ensures d.id == old(created) && d.package == name && d.selection == selection
      ensures d.maxConcurrent == maxConcurrent && d.retries == retries
      ensures d.totalCount == scan.count && d.totalBytes == scan.bytes
      ensures created == old(created) + 1
      ensures trace == old(trace) + [CreateCall(old(created), name, selection, maxConcurrent, retries)]
      ensures initialized == old(initialized) && packages == old(packages) && defaultPackage == old(defaultPackage)
      ensures finished == old(finished)
    {
      d := new Downloader(created, name, selection, maxConcurrent, retries, scan);
      trace := trace + [CreateCall(created, name, selection, maxConcurrent, retries)];
      created := created + 1;
    }

    /** `downloader.BeginDownload()`. */
    method Begin(d: Downloader)
      modifies this
      ensures trace == old(trace) + [BeginCall(d.id)]
      ensures initialized == old(initialized) && packages == old(packages) && defaultPackage == old(defaultPackage)
      ensures created == old(created) && finished == old(finished)
    {
      trace := trace + [BeginCall(d.id)];
    }

    /** Awaiting a begun downloader: it is done, with the given outcome. */
    method AwaitDownload(d: Downloader, outcome: Op) returns (r: Op)
      modifies this
      ensures r == outcome
      ensures finished == old(finished) + {d.id}
      ensures initialized == old(initialized) && packages == old(packages) && defaultPackage == old(defaultPackage)
      ensures created == old(created) && trace == old(trace)
    {
      finished := finished + {d.id};
      r := outcome;
    }

    /** `PauseDownload()`, `ResumeDownload()` or `CancelDownload()` on a downloader. */
    method Control(kind: ControlKind, d: Downloader)
      modifies this
      ensures trace == old(trace) + [ControlCall(kind, d)]
      ensures initialized == old(initialized) && packages == old(packages) && defaultPackage == old(defaultPackage)
      ensures created == old(created) && finished == old(finished)
    {
      trace := trace + [ControlCall(kind, d)];
    }

    /** `package.TryUnloadUnusedAsset(assetPath)`. */
    method TryUnloadUnused(name: string, assetPath: string)
      modifies this
      ensures trace == old(trace) + [UnloadCall(name, assetPath)]
      ensures initialized == old(initialized) && packages == old(packages) && defaultPackage == old(defaultPackage)
      ensures created == old(created) && finished == old(finished)
    {
      trace := trace + [UnloadCall(name, assetPath)];
    }
  }

  /** The three calls a download manager broadcasts to its active downloaders. */
  datatype ControlKind = Pause | Resume | Cancel

  function ControlCall(kind: ControlKind, d: Downloader): Call {
    match kind
    case Pause => PauseCall(d.id)
    case Resume => ResumeCall(d.id)
    case Cancel => CancelCall(d.id)
  }

  /** The calls made by broadcasting `kind` to `ds`, in list order. */
  function Each(ds: seq<Downloader>, kind: ControlKind): (calls: seq<Call>)
    ensures |calls| == |ds|
    ensures forall i :: 0 <= i < |ds| ==> calls[i] == ControlCall(kind, ds[i])
  {
    seq(|ds|, i requires 0 <= i < |ds| => ControlCall(kind, ds[i]))
  }
}
