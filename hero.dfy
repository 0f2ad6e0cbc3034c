/** The hero section's state: the operating-system label on the primary
    button and the flag that swaps the video for a placeholder. */
module Hero {
  import opened Strings
  import Platform
  import Download

  /** The label once the mount effect has run: the platform chain, with the
      initial `macOS` left in place when no branch fires. */
  function HeroLabel(platform: string): (shown: string)
    ensures shown in {"Windows", "macOS", "Linux"}
    ensures Platform.MatchOs(platform).Some? ==> shown == Platform.MatchOs(platform).value
    ensures Platform.MatchOs(platform).None? ==> shown == "macOS"
  {
    Platform.MatchOs(platform).GetOr("macOS")
  }

  /** The hero label and the download tab agree exactly when the platform
      string names a system; otherwise the hero says macOS and the download
      section says Windows. */
  lemma LabelsDivergeOnlyOnDefault(platform: string)
    ensures HeroLabel(platform) != Download.DetectedOs(platform) <==> Platform.MatchOs(platform).None?
    ensures Platform.MatchOs(platform).None? ==>
      HeroLabel(platform) == "macOS" && Download.DetectedOs(platform) == "Windows"
  {
  }

  lemma EmptyPlatformLabels()
    ensures HeroLabel("") == "macOS" && Download.DetectedOs("") == "Windows"
  {
    Platform.MatchNone("");
  }

  class HeroSection {
    var os: string
    var videoError: bool

    constructor ()
      ensures os == "macOS" && !videoError
    {
      os := "macOS";
      videoError := false;
    }

    /** The mount effect: an if/else chain with no final `else`. */
    method DetectOs(platform: string)
      modifies this`os
      ensures os == Platform.MatchOs(platform).GetOr(old(os))
    {
      if Includes(platform, "Win") {
        os := "Windows";
      } else if Includes(platform, "Mac") {
        os := "macOS";
      } else if Includes(platform, "Linux") {
        os := "Linux";
      }
    }

    /** The video's `onError` handler; nothing sets the flag back. */
    method OnVideoError()
      modifies this`videoError
      ensures videoError
    {
      videoError := true;
    }
  }

  /** Mounting the section: the initial state followed by the effect. */
  method Mount(platform: string) returns (hero: HeroSection)
    ensures fresh(hero)
    ensures hero.os == HeroLabel(platform) && !hero.videoError
  {
    hero := new HeroSection();
    hero.DetectOs(platform);
  }
}
