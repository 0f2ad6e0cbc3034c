/** The if/else chain on `navigator.platform` that both the hero section and
    the download section run. The two components differ only in what they
    do when no branch fires, so the chain itself answers `None` then. */
module Platform {
  import opened Wrappers
  import opened Strings

  function MatchOs(platform: string): (r: Option<string>)
    ensures r.Some? ==> r.value in {"Windows", "macOS", "Linux"}
    ensures r == Some("Windows") <==> Includes(platform, "Win")
    ensures r == Some("macOS") <==> !Includes(platform, "Win") && Includes(platform, "Mac")
    ensures r == Some("Linux") <==>
      !Includes(platform, "Win") && !Includes(platform, "Mac") && Includes(platform, "Linux")
    ensures r == None <==>
      !Includes(platform, "Win") && !Includes(platform, "Mac") && !Includes(platform, "Linux")
  {
    if Includes(platform, "Win") then Some("Windows")
    else if Includes(platform, "Mac") then Some("macOS")
    else if Includes(platform, "Linux") then Some("Linux")
    else None
  }

  /** `Win` takes precedence: a platform string naming several systems is Windows. */
  lemma WinPrecedes(platform: string)
    requires Includes(platform, "Win")
    ensures MatchOs(platform) == Some("Windows")
  {
  }

  // The values browsers report as `navigator.platform`.

  lemma MatchWin32()
    ensures MatchOs("Win32") == Some("Windows")
  {
    OccursAtIncludes("Win32", "Win", 0);
  }

  lemma MatchMacIntel()
    ensures MatchOs("MacIntel") == Some("macOS")
  {
    if Includes("MacIntel", "Win") {
      IncludesFirstChar("MacIntel", "Win");
    }
    OccursAtIncludes("MacIntel", "Mac", 0);
  }

  /** A platform naming neither `W` nor `M` that starts with `Linux` is Linux. */
  lemma MatchLinuxPrefix(platform: string)
    requires 'W' !in platform && 'M' !in platform && StartsWith(platform, "Linux")
    ensures MatchOs(platform) == Some("Linux")
  {
    if Includes(platform, "Win") {
      IncludesFirstChar(platform, "Win");
    }
    if Includes(platform, "Mac") {
      IncludesFirstChar(platform, "Mac");
    }
    StartsWithIncludes(platform, "Linux");
  }

  lemma MatchLinux(platform: string)
    requires platform in {"Linux x86_64", "Linux aarch64", "Linux armv8l"}
    ensures MatchOs(platform) == Some("Linux")
  {
    MatchLinuxPrefix(platform);
  }

  /** An empty or unrecognised platform string matches no branch. */
  lemma MatchNone(platform: string)
    requires platform in {"", "iPhone"}
    ensures MatchOs(platform) == None
  {
    if Includes(platform, "Win") {
      IncludesFirstChar(platform, "Win");
    }
    if Includes(platform, "Mac") {
      IncludesFirstChar(platform, "Mac");
    }
    if Includes(platform, "Linux") {
      IncludesFirstChar(platform, "Linux");
    }
  }
}
