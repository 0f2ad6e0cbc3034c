/** The download section: the static catalog of release artifacts, the
    best-guess CPU architecture sniffer, the operating-system choice, the
    recommended download button, and the displayed release version. */
module Download {
  import opened Wrappers
  import opened Strings
  import Platform

  // ---------------------------------------------------------------------
  // The catalog

  datatype Artifact = Artifact(name: string, ext: string, url: string)

  /** Every variant has an installer; the portable archive is optional. */
  datatype Downloads = Downloads(installer: Artifact, portable: Option<Artifact>)

  datatype Variant = Variant(name: string, arch: string, downloads: Downloads)

  datatype OsEntry = OsEntry(icon: string, architectures: seq<Variant>)

  const ReleaseBase := "https://github.com/LSXPrime/ProseFlow/releases/latest/download/"

  const WindowsX64 := Variant("Windows (64-bit)", "x64", Downloads(
    Artifact("Installer", ".exe", ReleaseBase + "ProseFlow-win-x64-Setup.exe"),
    Some(Artifact("Portable", ".zip", ReleaseBase + "ProseFlow-win-x64-Portable.zip"))))

  const MacArm64 := Variant("Apple Silicon", "arm64", Downloads(
    Artifact("Installer", ".pkg", ReleaseBase + "ProseFlow-osx-arm64-Setup.pkg"),
    Some(Artifact("Portable", ".zip", ReleaseBase + "ProseFlow-osx-arm64-Portable.zip"))))

  const MacX64 := Variant("Intel", "x64", Downloads(
    Artifact("Installer", ".pkg", ReleaseBase + "ProseFlow-osx-x64-Setup.pkg"),
    Some(Artifact("Portable", ".zip", ReleaseBase + "ProseFlow-osx-x64-Portable.zip"))))

  const LinuxX64 := Variant("Standard (x64)", "x64", Downloads(
    Artifact("AppImage", ".AppImage", ReleaseBase + "ProseFlow-linux-x64.AppImage"), None))

  const LinuxArm64 := Variant("ARM (arm64)", "arm64", Downloads(
    Artifact("AppImage", ".AppImage", ReleaseBase + "ProseFlow-linux-arm64.AppImage"), None))

  /** `downloadData`, keyed by the operating-system name shown on the tabs */
  const Catalog: map<string, OsEntry> := map[
    "Windows" := OsEntry("ion:logo-windows", [WindowsX64]),
    "macOS" := OsEntry("wpf:mac-os", [MacArm64, MacX64]),
    "Linux" := OsEntry("fa:linux", [LinuxX64, LinuxArm64])
  ]

  /** Architecture tags within one entry are unique and every entry lists a variant. */
  ghost predicate WellFormed(catalog: map<string, OsEntry>) {
    forall os :: os in catalog ==>
      |catalog[os].architectures| > 0 &&
      forall i, j :: 0 <= i < j < |catalog[os].architectures| ==>
        catalog[os].architectures[i].arch != catalog[os].architectures[j].arch
  }

  lemma CatalogWellFormed()
    ensures WellFormed(Catalog)
    ensures Catalog.Keys == {"Windows", "macOS", "Linux"}
  {
  }

  // ---------------------------------------------------------------------
  // CPU architecture

  /** What the WebGL renderer probe can come back with. */
  datatype ProbeOutcome =
    | NoWebGlContext          // `getContext('webgl')` gave null
    | NoDebugRendererInfo     // `WEBGL_debug_renderer_info` is missing
    | Renderer(name: string)  // the unmasked renderer string, `''` when null
    | ProbeThrew              // an exception, caught and logged

  /** `isAppleSilicon()`: only a renderer string that names Apple, but not the
      generic `Apple GPU`, counts; every failure reads as "not Apple Silicon". */
  function IsAppleSilicon(probe: ProbeOutcome): (r: bool)
    ensures r ==> probe.Renderer?
    ensures probe.Renderer? ==>
      (r <==> Includes(probe.name, "Apple") && !Includes(probe.name, "Apple GPU"))
  {
    match probe
    case Renderer(name) => Includes(name, "Apple") && !Includes(name, "Apple GPU")
    case _ => false
  }

  lemma AppleM1IsAppleSilicon()
    ensures IsAppleSilicon(Renderer("Apple M1"))
  {
    OccursAtIncludes("Apple M1", "Apple", 0);
    if Includes("Apple M1", "Apple GPU") {
      IncludesLength("Apple M1", "Apple GPU");
    }
  }

  /** Any renderer string containing `Apple GPU` is rejected, although it names Apple. */
  lemma AppleGpuIsNotAppleSilicon(name: string)
    requires Includes(name, "Apple GPU")
    ensures Includes(name, "Apple")
    ensures !IsAppleSilicon(Renderer(name))
  {
    IncludesPrefix(name, "Apple GPU", "Apple");
  }

  /** One entry of a first-match rule list. */
  datatype ArchRule = ArchRule(arch: string, patterns: seq<string>)

  /** `uaChecks`, matched with `includes` */
  const UaChecks: seq<ArchRule> := [
    ArchRule("x64", ["x86_64", "x86-64", "Win64", "x64", "amd64", "WOW64"]),
    ArchRule("arm64", ["ARM64", "AArch64"])
  ]

  /** `platformChecks`, matched with `startsWith` */
  const PlatformChecks: seq<ArchRule> := [
    ArchRule("x64", ["Linux x86_64"]),
    ArchRule("arm64", ["Linux aarch64", "Linux armv8l"])
  ]

  /** `patterns.some(pattern => s.includes(pattern))` */
  predicate SomeIncludes(s: string, patterns: seq<string>) {
    exists k :: 0 <= k < |patterns| && Includes(s, patterns[k])
  }

  /** `patterns.some(pattern => s.startsWith(pattern))` */
  predicate SomeStartsWith(s: string, patterns: seq<string>) {
    exists k :: 0 <= k < |patterns| && StartsWith(s, patterns[k])
  }

  predicate HasX64Marker(userAgent: string) {
    Includes(userAgent, "x86_64") || Includes(userAgent, "x86-64") || Includes(userAgent, "Win64") ||
    Includes(userAgent, "x64") || Includes(userAgent, "amd64") || Includes(userAgent, "WOW64")
  }

  predicate HasArmMarker(userAgent: string) {
    Includes(userAgent, "ARM64") || Includes(userAgent, "AArch64")
  }

  /** The sniffer's decision list written out rule by rule, the reference
      that the loop over the rule tables is proved against. */
  function Architecture(userAgent: string, platform: string, appleSilicon: bool): string {
    if HasX64Marker(userAgent) then "x64"
    else if HasArmMarker(userAgent) then "arm64"
    else if StartsWith(platform, "Linux x86_64") then "x64"
    else if StartsWith(platform, "Linux aarch64") || StartsWith(platform, "Linux armv8l") then "arm64"
    else if platform == "MacIntel" then (if appleSilicon then "arm64" else "x64")
    else "x64"
  }

  lemma UaRules(userAgent: string)
    ensures SomeIncludes(userAgent, UaChecks[0].patterns) <==> HasX64Marker(userAgent)
    ensures SomeIncludes(userAgent, UaChecks[1].patterns) <==> HasArmMarker(userAgent)
  {
    var x64 := UaChecks[0].patterns;
    var arm := UaChecks[1].patterns;
    if HasX64Marker(userAgent) {
      if Includes(userAgent, "x86_64") { assert Includes(userAgent, x64[0]); }
      else if Includes(userAgent, "x86-64") { assert Includes(userAgent, x64[1]); }
      else if Includes(userAgent, "Win64") { assert Includes(userAgent, x64[2]); }
      else if Includes(userAgent, "x64") { assert Includes(userAgent, x64[3]); }
      else if Includes(userAgent, "amd64") { assert Includes(userAgent, x64[4]); }
      else { assert Includes(userAgent, x64[5]); }
    }
    if HasArmMarker(userAgent) {
      if Includes(userAgent, "ARM64") { assert Includes(userAgent, arm[0]); }
      else { assert Includes(userAgent, arm[1]); }
    }
  }

  lemma PlatformRules(platform: string)
    ensures SomeStartsWith(platform, PlatformChecks[0].patterns) <==> StartsWith(platform, "Linux x86_64")
    ensures SomeStartsWith(platform, PlatformChecks[1].patterns) <==>
      StartsWith(platform, "Linux aarch64") || StartsWith(platform, "Linux armv8l")
  {
    var arm := PlatformChecks[1].patterns;
    if StartsWith(platform, "Linux x86_64") {
      assert StartsWith(platform, PlatformChecks[0].patterns[0]);
    }
    if StartsWith(platform, "Linux aarch64") { assert StartsWith(platform, arm[0]); }
    if StartsWith(platform, "Linux armv8l") { assert StartsWith(platform, arm[1]); }
  }

  /** `getCpuArchitecture()`: the two first-match loops over the rule tables
      with early return, then the `MacIntel` case and the `x64` default. */
  method CpuArchitecture(userAgent: string, platform: string, appleSilicon: bool) returns (arch: string)
    ensures arch == Architecture(userAgent, platform, appleSilicon)
  {
    UaRules(userAgent);
    PlatformRules(platform);
    var i := 0;
    while i < |UaChecks|
      invariant 0 <= i <= |UaChecks|
      invariant forall k :: 0 <= k < i ==> !SomeIncludes(userAgent, UaChecks[k].patterns)
    {
      if SomeIncludes(userAgent, UaChecks[i].patterns) {
        return UaChecks[i].arch;
      }
      i := i + 1;
    }
    i := 0;
    while i < |PlatformChecks|
      invariant 0 <= i <= |PlatformChecks|
      invariant forall k :: 0 <= k < i ==> !SomeStartsWith(platform, PlatformChecks[k].patterns)
    {
      if SomeStartsWith(platform, PlatformChecks[i].patterns) {
        return PlatformChecks[i].arch;
      }
      i := i + 1;
    }
    if platform == "MacIntel" {
      return if appleSilicon then "arm64" else "x64";
    }
    return "x64";
  }

  /** The answer is always one of the two tags the catalog uses. */
  lemma ArchitectureRange(userAgent: string, platform: string, appleSilicon: bool)
    ensures Architecture(userAgent, platform, appleSilicon) in {"x64", "arm64"}
  {
  }

  /** An x64 marker in the user agent decides, whatever else the user agent or platform say. */
  lemma X64MarkerWins(userAgent: string, platform: string, appleSilicon: bool)
    requires HasX64Marker(userAgent)
    ensures Architecture(userAgent, platform, appleSilicon) == "x64"
  {
  }

  /** `Win64` is checked before `ARM64`: a user agent with both is x64. */
  lemma X64BeforeArm(userAgent: string, platform: string, appleSilicon: bool)
    requires Includes(userAgent, "Win64") && Includes(userAgent, "ARM64")
    ensures Architecture(userAgent, platform, appleSilicon) == "x64"
  {
  }

  lemma ArmMarker(userAgent: string, platform: string, appleSilicon: bool)
    requires !HasX64Marker(userAgent) && HasArmMarker(userAgent)
    ensures Architecture(userAgent, platform, appleSilicon) == "arm64"
  {
  }

  /** The platform string is looked at only when the user agent has no marker. */
  lemma PlatformOnlyWithoutUaMarker(userAgent: string, p1: string, p2: string, a1: bool, a2: bool)
    requires HasX64Marker(userAgent) || HasArmMarker(userAgent)
    ensures Architecture(userAgent, p1, a1) == Architecture(userAgent, p2, a2)
  {
  }

  /** With no marker in the user agent, the platform rules decide. */
  lemma PlatformRulesDecide(userAgent: string, platform: string, appleSilicon: bool)
    requires !HasX64Marker(userAgent) && !HasArmMarker(userAgent)
    ensures StartsWith(platform, "Linux x86_64") ==> Architecture(userAgent, platform, appleSilicon) == "x64"
    ensures StartsWith(platform, "Linux aarch64") ==> Architecture(userAgent, platform, appleSilicon) == "arm64"
    ensures StartsWith(platform, "Linux armv8l") ==> Architecture(userAgent, platform, appleSilicon) == "arm64"
    ensures platform == "MacIntel" ==>
      (Architecture(userAgent, platform, appleSilicon) == "arm64" <==> appleSilicon)
  {
    if StartsWith(platform, "Linux aarch64") {
      PrefixChar(platform, "Linux aarch64", 6);
      NotPrefixByChar(platform, "Linux x86_64", 6);
    }
    if StartsWith(platform, "Linux armv8l") {
      PrefixChar(platform, "Linux armv8l", 6);
      NotPrefixByChar(platform, "Linux x86_64", 6);
    }
  }

  /** The platform rules use `startsWith`: a platform that contains `Linux aarch64`
      after some other text is not arm64, where an `includes` test would have said so. */
  lemma PlatformRequiresPrefix()
    ensures Includes(X11Arm, "Linux aarch64")
    ensures Architecture("", X11Arm, false) == "x64"
  {
    X11ArmIncludesMarker();
    NotPrefixByChar(X11Arm, "Linux aarch64", 0);
    NotPrefixByChar(X11Arm, "Linux armv8l", 0);
    EmptyUaHasNoMarker();
  }

  /** An X11 platform string that names an arm64 Linux after its first word */
  const X11Arm: string := "X11; Linux aarch64"

  lemma X11ArmIncludesMarker()
    ensures Includes(X11Arm, "Linux aarch64")
  {
    assert X11Arm[5..18] == "Linux aarch64";
    OccursAtIncludes(X11Arm, "Linux aarch64", 5);
  }

  /** Every case the rules do not name ends at the `x64` default. */
  lemma DefaultIsX64(userAgent: string, platform: string, appleSilicon: bool)
    requires !HasX64Marker(userAgent) && !HasArmMarker(userAgent)
    requires !StartsWith(platform, "Linux x86_64") && !StartsWith(platform, "Linux aarch64")
    requires !StartsWith(platform, "Linux armv8l") && platform != "MacIntel"
    ensures Architecture(userAgent, platform, appleSilicon) == "x64"
  {
  }

  lemma EmptyUaHasNoMarker()
    ensures !HasX64Marker("") && !HasArmMarker("")
  {
    forall p: string | |p| > 0 ensures !Includes("", p) {
      if Includes("", p) {
        IncludesLength("", p);
      }
    }
  }

  /** An Intel-platform Mac with an empty user agent and a failed probe is x64. */
  lemma MacIntelProbeFailure(probe: ProbeOutcome)
    requires !probe.Renderer?
    ensures Architecture("", "MacIntel", IsAppleSilicon(probe)) == "x64"
  {
    EmptyUaHasNoMarker();
  }

  // ---------------------------------------------------------------------
  // Operating system and recommendation

  /** The tab the section opens on: the platform chain with `Windows` as default. */
  function DetectedOs(platform: string): (os: string)
    ensures os in Catalog
    ensures Platform.MatchOs(platform).Some? ==> os == Platform.MatchOs(platform).value
    ensures Platform.MatchOs(platform).None? ==> os == "Windows"
  {
    Platform.MatchOs(platform).GetOr("Windows")
  }

  lemma EmptyPlatformIsWindows()
    ensures DetectedOs("") == "Windows"
  {
    Platform.MatchNone("");
  }

  /** `architectures.find(a => a.arch === arch)`, as the index found */
  function FindByArch(variants: seq<Variant>, arch: string): Option<nat> {
    FindIndex(variants, (v: Variant) => v.arch == arch)
  }

  /** The variant recommended for `os`: the one built for `arch`, else the first listed. */
  function ChosenVariant(os: string, arch: string): (v: Variant)
    requires os in Catalog
    ensures v in Catalog[os].architectures
    ensures (exists i :: 0 <= i < |Catalog[os].architectures| && Catalog[os].architectures[i].arch == arch)
      <==> v.arch == arch
    ensures v.arch != arch ==> v == Catalog[os].architectures[0]
  {
    CatalogWellFormed();
    var variants := Catalog[os].architectures;
    match FindByArch(variants, arch)
    case Some(k) => variants[k]
    case None => variants[0]
  }

  /** Tags are unique in each entry, so a matching variant is the only one with that tag. */
  lemma ChosenVariantUnique(os: string, arch: string, i: nat)
    requires os in Catalog && i < |Catalog[os].architectures|
    requires Catalog[os].architectures[i].arch == arch
    ensures ChosenVariant(os, arch) == Catalog[os].architectures[i]
  {
    CatalogWellFormed();
    var variants := Catalog[os].architectures;
    var k := FindByArch(variants, arch).value;
  }

  datatype Recommendation = Recommendation(text: string, link: string)

  /** The main download button's label and the installer it links to. */
  function Recommend(os: string, arch: string): (r: Recommendation)
    requires os in Catalog
    ensures exists v :: (v in Catalog[os].architectures &&
      r.text == "Download for " + os + " (" + v.name + ")" &&
      r.link == v.downloads.installer.url &&
      ((exists i :: 0 <= i < |Catalog[os].architectures| && Catalog[os].architectures[i].arch == arch) <==> v.arch == arch) &&
      (v.arch != arch ==> v == Catalog[os].architectures[0]))
  {
    var v := ChosenVariant(os, arch);
    Recommendation("Download for " + os + " (" + v.name + ")", v.downloads.installer.url)
  }

  lemma RecommendLinuxX64()
    ensures Recommend("Linux", "x64").text == "Download for Linux (Standard (x64))"
    ensures Recommend("Linux", "x64").link == ReleaseBase + "ProseFlow-linux-x64.AppImage"
  {
    var v := ChosenVariant("Linux", "x64");
    assert v == LinuxX64 by {
      ChosenVariantUnique("Linux", "x64", 0);
    }
    assert Recommend("Linux", "x64") == Recommendation("Download for Linux (" + v.name + ")", v.downloads.installer.url);
  }

  /** Windows lists no arm64 build, so an arm64 machine is offered the x64 installer. */
  lemma RecommendWindowsArmFallsBack()
    ensures Recommend("Windows", "arm64").text == "Download for Windows (Windows (64-bit))"
    ensures Recommend("Windows", "arm64").link == ReleaseBase + "ProseFlow-win-x64-Setup.exe"
  {
    var v := ChosenVariant("Windows", "arm64");
    assert v == WindowsX64;
    assert Recommend("Windows", "arm64") == Recommendation("Download for Windows (" + v.name + ")", v.downloads.installer.url);
  }

  /** A tag no entry lists falls back to the first variant: Apple Silicon for macOS. */
  lemma RecommendMacUnknownArch()
    ensures Recommend("macOS", "unknown-arch").text == "Download for macOS (Apple Silicon)"
  {
    var v := ChosenVariant("macOS", "unknown-arch");
    assert v == MacArm64;
    assert Recommend("macOS", "unknown-arch").text == "Download for macOS (" + v.name + ")";
  }

  // ---------------------------------------------------------------------
  // The component's state

  /** How the release-metadata request ended. `tagName` is `None` when the
      body or its `tag_name` is missing. */
  datatype ReleaseResponse = NotOk(status: int) | Ok(tagName: Option<string>) | FetchFailed

  /** The version shown after a response ends the request. */
  function VersionAfter(current: string, response: ReleaseResponse): (v: string)
    ensures response.Ok? && response.tagName.Some? && response.tagName.value != "" ==>
      (StartsWith(response.tagName.value, "v") ==> "v" + v == response.tagName.value) &&
      (!StartsWith(response.tagName.value, "v") ==> v == response.tagName.value)
    ensures !(response.Ok? && response.tagName.Some? && response.tagName.value != "") ==> v == current
  {
    match response
    case Ok(Some(tag)) => if tag != "" then StripLeadingV(tag) else current
    case _ => current
  }

  lemma VersionDropsOneV()
    ensures VersionAfter("latest", Ok(Some("v1.2.0"))) == "1.2.0"
    ensures VersionAfter("latest", Ok(Some("1.2.0"))) == "1.2.0"
    ensures VersionAfter("latest", NotOk(403)) == "latest"
    ensures VersionAfter("latest", FetchFailed) == "latest"
  {
    StripLeadingVInverse("1.2.0");
  }

  /** `DownloadSection`'s `useState` fields. */
  class DownloadSection {
    var selectedOs: string
    var recommendedDownload: Option<Recommendation>
    var latestVersion: string

    constructor ()
      ensures selectedOs == "Windows" && recommendedDownload == None && latestVersion == "latest"
    {
      selectedOs := "Windows";
      recommendedDownload := None;
      latestVersion := "latest";
    }

    /** The detection half of the mount effect. */
    method DetectAndRecommend(platform: string, userAgent: string, probe: ProbeOutcome)
      modifies this
      ensures selectedOs == DetectedOs(platform)
      ensures recommendedDownload ==
        Some(Recommend(selectedOs, Architecture(userAgent, platform, IsAppleSilicon(probe))))
      ensures latestVersion == old(latestVersion)
    {
      var detectedOs := "Windows";
      if Includes(platform, "Win") {
        detectedOs := "Windows";
      } else if Includes(platform, "Mac") {
        detectedOs := "macOS";
      } else if Includes(platform, "Linux") {
        detectedOs := "Linux";
      }
      selectedOs := detectedOs;

      var detectedArch := CpuArchitecture(userAgent, platform, IsAppleSilicon(probe));

      CatalogWellFormed();
      var osData := Catalog[detectedOs];
      var recommendedArch: Variant;
      var found := FindByArch(osData.architectures, detectedArch);
      if found.Some? {
        recommendedArch := osData.architectures[found.value];
      } else {
        recommendedArch := osData.architectures[0];
      }
      recommendedDownload := Some(Recommendation(
        "Download for " + detectedOs + " (" + recommendedArch.name + ")",
        recommendedArch.downloads.installer.url));
    }

    /** The version half of the mount effect, once the request has ended. */
    method ApplyReleaseResponse(response: ReleaseResponse)
      modifies this`latestVersion
      ensures latestVersion == VersionAfter(old(latestVersion), response)
    {
      if response.Ok? && response.tagName.Some? && response.tagName.value != "" {
        latestVersion := StripLeadingV(response.tagName.value);
      }
    }

    /** A click on an OS tab. */
    method SelectOs(os: string)
      requires os in Catalog
      modifies this`selectedOs
      ensures selectedOs == os
    {
      selectedOs := os;
    }
  }
}
