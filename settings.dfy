/** YooAssetSettings: the configuration the runtime reads. A list of profiles,
    one of them active by index; every getter falls back to a fixed default
    when no profile is active (or the profile's field is null). */
module Settings {
  import opened Common

  /** EPlayMode. C# enums are integers, so a serialized value outside the four
      declared ones can reach the `switch` statements; `UnlistedMode` is that value. */
  datatype EPlayMode =
    | EditorSimulateMode
    | OfflinePlayMode
    | HostPlayMode
    | WebPlayMode
    | UnlistedMode(code: int)

  /** One resource package of a profile. The URLs have no initializer, so they
      are null until set. */
  datatype PackageConfig = PackageConfig(
    packageName: string,
    priority: int,
    hostServerURL: Option<string>,
    fallbackHostServerURL: Option<string>,
    autoDownloadTags: Option<seq<string>>)

  /** One configuration profile. */
  datatype ProfileConfig = ProfileConfig(
    profileName: string,
    playMode: EPlayMode,
    hostServerURL: Option<string>,
    fallbackHostServerURL: Option<string>,
    downloadingMaxNum: int,
    failedTryAgain: int,
    autoDownloadOnLoad: bool,
    autoInitOnStartup: bool,
    packages: Option<seq<PackageConfig>>)

  /** The framework-wide settings object the project id and game version come from. */
  datatype FrameworkSettings = FrameworkSettings(projectId: Option<string>, version: Option<string>)

  /** The settings asset. `framework` is `AzathrixFrameworkSettings.Instance`
      (possibly null); `platformName` is the compile-time platform string. */
  datatype YooAssetSettings = YooAssetSettings(
    profiles: Option<seq<ProfileConfig>>,
    activeProfileIndex: int,
    framework: Option<FrameworkSettings>,
    platformName: string)

  const DefaultHostServerURL: string := "http://127.0.0.1"
  const DefaultFallbackHostServerURL: string := ""
  const DefaultGameVersion: string := "1.0.0"
  const DefaultPackage: string := "DefaultPackage"
  const DefaultDownloadingMaxNum: int := 10
  const DefaultFailedTryAgain: int := 3

  /** A freshly constructed PackageConfig (its field initializers). */
  function NewPackageConfig(): (p: PackageConfig)
    ensures p.packageName == DefaultPackage && p.autoDownloadTags == Some([])
  {
    PackageConfig(DefaultPackage, 0, None, None, Some([]))
  }

  /** A freshly constructed ProfileConfig (its field initializers). */
  function NewProfileConfig(): (p: ProfileConfig)
    ensures p.playMode == EditorSimulateMode && p.packages == Some([NewPackageConfig()])
  {
    ProfileConfig("Default", EditorSimulateMode, Some(DefaultHostServerURL), Some(""),
      DefaultDownloadingMaxNum, DefaultFailedTryAgain, false, true, Some([NewPackageConfig()]))
  }

  /** The active profile: present exactly when the index is inside the array. */
  function ActiveProfile(s: YooAssetSettings): (r: Option<ProfileConfig>)
    ensures r.Some? <==> s.profiles.Some? && 0 <= s.activeProfileIndex < |s.profiles.value|
    ensures r.Some? ==> r.value == s.profiles.value[s.activeProfileIndex]
  {
    if s.profiles.Some? && 0 <= s.activeProfileIndex < |s.profiles.value|
    then Some(s.profiles.value[s.activeProfileIndex])
    else None
  }

  function PlayMode(s: YooAssetSettings): EPlayMode {
    match ActiveProfile(s)
    case Some(p) => p.playMode
    case None => EditorSimulateMode
  }

  /** `a ?? d` on a string reference. */
  function OrElse(a: Option<string>, d: string): string {
    if a.Some? then a.value else d
  }

  function HostServerURL(s: YooAssetSettings): string {
    match ActiveProfile(s)
    case Some(p) => OrElse(p.hostServerURL, DefaultHostServerURL)
    case None => DefaultHostServerURL
  }

  function FallbackHostServerURL(s: YooAssetSettings): string {
    match ActiveProfile(s)
    case Some(p) => OrElse(p.fallbackHostServerURL, DefaultFallbackHostServerURL)
    case None => DefaultFallbackHostServerURL
  }

  function ProjectId(s: YooAssetSettings): string {
    match s.framework
    case Some(f) => OrElse(f.projectId, "")
    case None => ""
  }

  function GameVersion(s: YooAssetSettings): string {
    match s.framework
    case Some(f) => OrElse(f.version, DefaultGameVersion)
    case None => DefaultGameVersion
  }

  function DownloadingMaxNum(s: YooAssetSettings): int {
    match ActiveProfile(s)
    case Some(p) => p.downloadingMaxNum
    case None => DefaultDownloadingMaxNum
  }

  function FailedTryAgain(s: YooAssetSettings): int {
    match ActiveProfile(s)
    case Some(p) => p.failedTryAgain
    case None => DefaultFailedTryAgain
  }

  function AutoInitOnStartup(s: YooAssetSettings): bool {
    match ActiveProfile(s)
    case Some(p) => p.autoInitOnStartup
    case None => true
  }

  function AutoDownloadOnLoad(s: YooAssetSettings): bool {
    match ActiveProfile(s)
    case Some(p) => p.autoDownloadOnLoad
    case None => false
  }

  /** The package list of the active profile, or the empty array. */
  function Packages(s: YooAssetSettings): (r: seq<PackageConfig>)
    ensures ActiveProfile(s).None? ==> r == []
    ensures ActiveProfile(s).Some? && ActiveProfile(s).value.packages.None? ==> r == []
    ensures ActiveProfile(s).Some? && ActiveProfile(s).value.packages.Some? ==>
              r == ActiveProfile(s).value.packages.value
  {
    match ActiveProfile(s)
    case Some(p) => if p.packages.Some? then p.packages.value else []
    case None => []
  }

  /** The first configured package's name, or "DefaultPackage" when there is none. */
  function DefaultPackageName(s: YooAssetSettings): (r: string)
    ensures Packages(s) != [] ==> r == Packages(s)[0].packageName
    ensures Packages(s) == [] ==> r == DefaultPackage
  {
    if |Packages(s)| > 0 then Packages(s)[0].packageName else DefaultPackage
  }

  /** The package's own server URL, unless it is null or empty; then the global one. */
  function GetHostServerURL(s: YooAssetSettings, package: Option<PackageConfig>): (r: string)
    ensures package.Some? && !IsNullOrEmpty(package.value.hostServerURL) ==>
              r == package.value.hostServerURL.value
    ensures (package.None? || IsNullOrEmpty(package.value.hostServerURL)) ==> r == HostServerURL(s)
  {
    if package.None? || IsNullOrEmpty(package.value.hostServerURL) then HostServerURL(s)
    else package.value.hostServerURL.value
  }

  /** The package's own fallback URL, unless it is null or empty; then the global one. */
  function GetFallbackHostServerURL(s: YooAssetSettings, package: Option<PackageConfig>): (r: string)
    ensures package.Some? && !IsNullOrEmpty(package.value.fallbackHostServerURL) ==>
              r == package.value.fallbackHostServerURL.value
    ensures (package.None? || IsNullOrEmpty(package.value.fallbackHostServerURL)) ==>
              r == FallbackHostServerURL(s)
  {
    if package.None? || IsNullOrEmpty(package.value.fallbackHostServerURL) then FallbackHostServerURL(s)
    else package.value.fallbackHostServerURL.value
  }

  /** The obsolete `autoDownloadTags`: the first package's tags (possibly null),
      or the empty array when there are no packages. */
  function AutoDownloadTags(s: YooAssetSettings): (r: Option<seq<string>>)
    ensures Packages(s) == [] ==> r == Some([])
    ensures Packages(s) != [] ==> r == Packages(s)[0].autoDownloadTags
  {
    if |Packages(s)| > 0 then Packages(s)[0].autoDownloadTags else Some([])
  }

  /** Without an active profile every profile getter yields its fixed default. */
  lemma NoActiveProfileDefaults(s: YooAssetSettings)
    requires s.profiles.None? || s.activeProfileIndex < 0 || s.activeProfileIndex >= |s.profiles.value|
    ensures PlayMode(s) == EditorSimulateMode
    ensures HostServerURL(s) == "http://127.0.0.1"
    ensures FallbackHostServerURL(s) == ""
    ensures DownloadingMaxNum(s) == 10 && FailedTryAgain(s) == 3
    ensures AutoInitOnStartup(s) && !AutoDownloadOnLoad(s)
    ensures Packages(s) == [] && DefaultPackageName(s) == "DefaultPackage"
    ensures AutoDownloadTags(s) == Some([])
  {
  }

  /** With an active profile the getters report that profile's fields, falling
      back to the defaults only for null strings and a null package list. */
  lemma ActiveProfileFields(s: YooAssetSettings, k: nat)
    requires s.profiles.Some? && k == s.activeProfileIndex && k < |s.profiles.value|
    ensures var p := s.profiles.value[k];
      && PlayMode(s) == p.playMode
      && HostServerURL(s) == (if p.hostServerURL.Some? then p.hostServerURL.value else DefaultHostServerURL)
      && FallbackHostServerURL(s) == (if p.fallbackHostServerURL.Some? then p.fallbackHostServerURL.value else "")
      && DownloadingMaxNum(s) == p.downloadingMaxNum && FailedTryAgain(s) == p.failedTryAgain
      && AutoInitOnStartup(s) == p.autoInitOnStartup && AutoDownloadOnLoad(s) == p.autoDownloadOnLoad
      && Packages(s) == (if p.packages.Some? then p.packages.value else [])
  {
  }

  /** The settings asset as first created: one default profile holding one
      default package, in editor-simulate mode. */
  lemma FreshSettingsDefaults(framework: Option<FrameworkSettings>, platform: string)
    ensures var s := YooAssetSettings(Some([NewProfileConfig()]), 0, framework, platform);
      && PlayMode(s) == EditorSimulateMode
      && DefaultPackageName(s) == "DefaultPackage"
      && HostServerURL(s) == "http://127.0.0.1"
      && AutoDownloadTags(s) == Some([])
  {
  }

  /** A package-level URL override wins whatever the profiles say. */
  lemma PackageOverrideIgnoresProfiles(s1: YooAssetSettings, s2: YooAssetSettings, p: PackageConfig)
    requires !IsNullOrEmpty(p.hostServerURL) && !IsNullOrEmpty(p.fallbackHostServerURL)
    ensures GetHostServerURL(s1, Some(p)) == GetHostServerURL(s2, Some(p))
    ensures GetFallbackHostServerURL(s1, Some(p)) == GetFallbackHostServerURL(s2, Some(p))
  {
  }
}
