/** YooAssetBuildPipeline: the editor build pipeline's view of YooAsset's
    collector configuration. It lists the configured packages, tells which of
    them are selected for a build, recognises hot-update packages (those that
    collect compiled assemblies) and remembers that answer per package name. */
module BuildPipeline {
  import opened Common
  import opened Strings
  import opened BuildSettings

  /** An `AssetBundleCollector`: the path it collects. */
  datatype Collector = Collector(collectPath: string)

  /** An `AssetBundleCollectorGroup`. */
  datatype Group = Group(collectors: seq<Collector>)

  /** An `AssetBundleCollectorPackage`. */
  datatype CollectorPackage = CollectorPackage(packageName: string, groups: seq<Group>)

  /** `AssetBundleCollectorSettingData.Setting?.Packages`: the configured
      packages; `None` when the setting or its package list is null. */
  type CollectorSetting = Option<seq<CollectorPackage>>

  /** The names of the configured packages, in configuration order. */
  function PackageNames(setting: CollectorSetting): (names: seq<string>)
    ensures setting.None? ==> names == []
    ensures setting.Some? ==> |names| == |setting.value|
                              && forall i :: 0 <= i < |names| ==> names[i] == setting.value[i].packageName
  {
    if setting.None? then []
    else seq(|setting.value|, i requires 0 <= i < |setting.value| => setting.value[i].packageName)
  }

  /** A collect path that marks a hot-update package: it contains
      "AssemblyHotUpdate" or ends with ".dll.bytes". */
  predicate HotPath(path: string) {
    Contains(path, "AssemblyHotUpdate") || EndsWith(path, ".dll.bytes")
  }

  /** Some collector of the group collects a hot-update path. */
  predicate GroupIsHot(g: Group) {
    exists k :: 0 <= k < |g.collectors| && HotPath(g.collectors[k].collectPath)
  }

  /** Some group of the package has a hot-update collector. */
  predicate PackageIsHot(p: CollectorPackage) {
    exists i :: 0 <= i < |p.groups| && GroupIsHot(p.groups[i])
  }

  /** `FirstOrDefault(p => p.PackageName == name)` over the configured packages. */
  function FirstPackage(setting: CollectorSetting, name: string): (r: Option<CollectorPackage>)
    ensures r.Some? ==> setting.Some? && r.value in setting.value && r.value.packageName == name
    ensures r.None? ==> setting.None? || forall i :: 0 <= i < |setting.value| ==> setting.value[i].packageName != name
  {
    if setting.None? then None else FirstNamed(setting.value, name)
  }

  function FirstNamed(ps: seq<CollectorPackage>, name: string): (r: Option<CollectorPackage>)
    ensures r.Some? ==> r.value in ps && r.value.packageName == name
    ensures r.None? ==> forall i :: 0 <= i < |ps| ==> ps[i].packageName != name
    decreases |ps|
  {
    if ps == [] then None
    else if ps[0].packageName == name then Some(ps[0])
    else FirstNamed(ps[1..], name)
  }

  /** Lemma: the package found by name is the first one configured under it. */
  lemma {:induction false} FirstNamedIsFirst(ps: seq<CollectorPackage>, name: string, i: nat)
    requires i < |ps| && ps[i].packageName == name
    requires forall j :: 0 <= j < i ==> ps[j].packageName != name
    ensures FirstNamed(ps, name) == Some(ps[i])
    decreases i
  {
    if i > 0 {
      FirstNamedIsFirst(ps[1..], name, i - 1);
    }
  }

  /** `IsHotUpdatePackage(name)` computed afresh: the package exists and one of
      its collectors collects a hot-update path; an unknown package is not one. */
  predicate IsHot(setting: CollectorSetting, name: string)
    ensures IsHot(setting, name) ==>
              setting.Some? && exists i :: 0 <= i < |setting.value| && setting.value[i].packageName == name
  {
    match FirstPackage(setting, name)
    case None => false
    case Some(p) => PackageIsHot(p)
  }

  /** What `IsHotUpdatePackage(name)` answers with the cache `cache`: the
      cached value when there is one, the computed one otherwise. */
  predicate HotView(cache: map<string, bool>, setting: CollectorSetting, name: string) {
    if name in cache then cache[name] else IsHot(setting, name)
  }

  /** `GetUploadConfig()`: the registry's configuration at the pipeline's
      index when the index is in range, otherwise the registry's current one. */
  function UploadConfigFor<C>(index: int, configs: seq<C>, current: C): (r: C)
    ensures 0 <= index < |configs| ==> r == configs[index]
    ensures (index < 0 || index >= |configs|) ==> r == current
  {
    if 0 <= index < |configs| then configs[index] else current
  }

  class YooAssetBuildPipeline {
    /** `YooAssetBuildSettings.instance`. */
    const settings: YooAssetBuildSettings
    /** `_hotUpdatePackageCache`. */
    var hotUpdateCache: map<string, bool>

    constructor (settings: YooAssetBuildSettings)
      ensures this.settings == settings && hotUpdateCache == map[]
    {
      this.settings := settings;
      hotUpdateCache := map[];
    }

    /** The `Enabled` getter: the persisted `pipelineEnabled`. */
    function Enabled(): bool
      reads settings
    {
      settings.pipelineEnabled
    }

    /** The `Enabled` setter: writes and saves only a changed value. */
    method SetEnabled(value: bool)
      modifies settings
      ensures Enabled() == value
      ensures settings.saves == old(settings.saves) + (if old(settings.pipelineEnabled) != value then 1 else 0)
      ensures settings.packageSelections == old(settings.packageSelections)
      ensures settings.stepEnabledStates == old(settings.stepEnabledStates)
      ensures settings.uploadConfigIndex == old(settings.uploadConfigIndex)
    {
      if settings.pipelineEnabled != value {
        settings.pipelineEnabled := value;
        settings.Save();
      }
    }

    /** `GetAvailablePackages()`: the configured package names, in order. */
    method GetAvailablePackages(setting: CollectorSetting) returns (packages: seq<string>)
      ensures packages == PackageNames(setting)
    {
      packages := [];
      if setting.None? {
        return;
      }
      var ps := setting.value;
      for i := 0 to |ps|
        invariant packages == PackageNames(setting)[..i]
      {
        packages := packages + [ps[i].packageName];
      }
      assert PackageNames(setting)[..|ps|] == PackageNames(setting);
    }

    /** The nested `foreach` of `IsHotUpdatePackage` over the groups and
        collectors of one package: true at the first hot-update collect path. */
    method ScanPackage(p: CollectorPackage) returns (hot: bool)
      ensures hot == PackageIsHot(p)
    {
      for i := 0 to |p.groups|
        invariant forall i' :: 0 <= i' < i ==> !GroupIsHot(p.groups[i'])
      {
        var collectors := p.groups[i].collectors;
        for k := 0 to |collectors|
          invariant forall k' :: 0 <= k' < k ==> !HotPath(collectors[k'].collectPath)
        {
          if Contains(collectors[k].collectPath, "AssemblyHotUpdate") || EndsWith(collectors[k].collectPath, ".dll.bytes") {
            assert HotPath(collectors[k].collectPath);
            return true;
          }
        }
      }
      return false;
    }

    /** `IsHotUpdatePackage(name)`: the cached answer when there is one;
        otherwise the answer is computed and cached. */
    method IsHotUpdatePackage(setting: CollectorSetting, name: string) returns (r: bool)
      modifies this
      ensures r == HotView(old(hotUpdateCache), setting, name)
      ensures name in old(hotUpdateCache) ==> hotUpdateCache == old(hotUpdateCache)
      ensures name !in old(hotUpdateCache) ==> hotUpdateCache == old(hotUpdateCache)[name := r]
    {
      if name in hotUpdateCache {
        return hotUpdateCache[name];
      }
      var package := FirstPackage(setting, name);
      if package.None? {
        hotUpdateCache := hotUpdateCache[name := false];
        return false;
      }
      r := ScanPackage(package.value);
      hotUpdateCache := hotUpdateCache[name := r];
    }

    /** `ClearHotUpdateCache()`. */
    method ClearHotUpdateCache()
      modifies this
      ensures hotUpdateCache == map[]
    {
      hotUpdateCache := map[];
    }

    /** `GetSelectedPackages()`: the configured packages that are selected, in
        configuration order. */
    method GetSelectedPackages(setting: CollectorSetting) returns (selected: seq<string>)
      ensures selected == Filter(PackageNames(setting), Selected(settings.packageSelections))
    {
      var packages := GetAvailablePackages(setting);
      selected := [];
      for i := 0 to |packages|
        invariant selected == Filter(packages[..i], Selected(settings.packageSelections))
      {
        FilterPrefixStep(packages, i, Selected(settings.packageSelections));
        if settings.GetPackageSelected(packages[i]) {
          selected := selected + [packages[i]];
        }
      }
      assert packages[..|packages|] == packages;
    }

    /** `HasHotUpdatePackageSelected()`: some configured package is selected and
        is a hot-update package. Only selected packages are asked, and so cached. */
    method HasHotUpdatePackageSelected(setting: CollectorSetting) returns (r: bool)
      modifies this
      ensures r <==> exists i :: 0 <= i < |PackageNames(setting)|
                                 && Lookup(settings.packageSelections, PackageNames(setting)[i])
                                 && HotView(old(hotUpdateCache), setting, PackageNames(setting)[i])
      ensures forall n :: HotView(hotUpdateCache, setting, n) == HotView(old(hotUpdateCache), setting, n)
      ensures old(hotUpdateCache).Keys <= hotUpdateCache.Keys
      ensures forall n :: n in hotUpdateCache ==> n in old(hotUpdateCache) || n in PackageNames(setting)
    {
      var packages := GetAvailablePackages(setting);
      for i := 0 to |packages|
        invariant forall n :: HotView(hotUpdateCache, setting, n) == HotView(old(hotUpdateCache), setting, n)
        invariant old(hotUpdateCache).Keys <= hotUpdateCache.Keys
        invariant forall n :: n in hotUpdateCache ==> n in old(hotUpdateCache) || n in packages[..i]
        invariant forall j :: 0 <= j < i ==>
                    !(Lookup(settings.packageSelections, packages[j]) && HotView(old(hotUpdateCache), setting, packages[j]))
      {
        if settings.GetPackageSelected(packages[i]) {
          var hot := IsHotUpdatePackage(setting, packages[i]);
          if hot {
            return true;
          }
        }
      }
      return false;
    }

    /** `GetUploadConfig()` over the upload configuration registry. */
    function GetUploadConfig<C>(configs: seq<C>, current: C): C
      reads settings
    {
      UploadConfigFor(settings.uploadConfigIndex, configs, current)
    }
  }

  /** The predicate `GetSelectedPackages` keeps names by. */
  function Selected(selections: seq<Entry>): string -> bool {
    (n: string) => Lookup(selections, n)
  }

  /** Lemma: while the cache agrees with the collector setting, the cached
      answer is the computed one; in particular right after the cache is
      cleared. */
  lemma HotViewOfConsistentCache(cache: map<string, bool>, setting: CollectorSetting, name: string)
    requires forall n :: n in cache ==> cache[n] == IsHot(setting, n)
    ensures HotView(cache, setting, name) == IsHot(setting, name)
  {
  }

  /** Lemma: a computed answer, once cached, is answered again whatever the
      collector setting has become, until the cache is cleared. */
  lemma CachedAnswerSticks(cache: map<string, bool>, before: CollectorSetting, after: CollectorSetting, name: string)
    ensures HotView(cache[name := HotView(cache, before, name)], after, name) == HotView(cache, before, name)
  {
  }
}
