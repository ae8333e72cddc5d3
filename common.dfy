/**
 * Artifact naming shared by the downloader and the installer: where the
 * final executables live and how each one is named after the operating
 * system and CPU architecture it was built for.
 */
module Common {
  import opened Wrappers
  import opened Paths

  /** The running process's `process.platform` and `process.arch`. */
  datatype Host = Host(platform: string, arch: string)

  /** What `getFfmpegPaths` returns. */
  datatype FfmpegPaths = FfmpegPaths(filename: string, ffmpegPath: string)

  /** Where the final executables are placed, relative to the package root. */
  function ArtifactDirectory(root: string): string {
    Join(root, "artifacts")
  }

  /** Where raw downloaded archives are cached, relative to the package root. */
  function DownloadDirectory(root: string): string {
    Join(root, "downloads")
  }

  /** The executable suffix used when the caller gives none: ".exe" on Windows only. */
  function DefaultSuffix(platform: string): (s: string)
    ensures s == ".exe" <==> platform == "win32"
    ensures s == "" <==> platform != "win32"
  {
    if platform == "win32" then ".exe" else ""
  }

  /**
   * `getFfmpegPaths(platform, arch, suffix)`. The platform and architecture
   * are passed through uninterpreted; an absent suffix falls back to the
   * platform's default, a given one (even "") overrides it.
   */
  function GetFfmpegPaths(root: string, platform: string, arch: string, suffix: Option<string>): (r: FfmpegPaths)
    ensures r.filename == "ffmpeg-" + platform + "-" + arch + suffix.GetOr(DefaultSuffix(platform))
    ensures IsUnder(ArtifactDirectory(root), r.ffmpegPath)
    ensures r.ffmpegPath[|ArtifactDirectory(root)| + 1..] == r.filename
  {
    var filename := "ffmpeg-" + platform + "-" + arch + suffix.GetOr(DefaultSuffix(platform));
    JoinIsUnder(ArtifactDirectory(root), filename);
    FfmpegPaths(filename, Join(ArtifactDirectory(root), filename))
  }

  /** The last component of the artifact path is the artifact's file name. */
  lemma ArtifactPathEndsWithFilename(root: string, platform: string, arch: string, suffix: Option<string>)
    requires Sep !in platform + arch + suffix.GetOr(DefaultSuffix(platform))
    ensures var r := GetFfmpegPaths(root, platform, arch, suffix);
      BaseName(r.ffmpegPath) == r.filename
  {
    var r := GetFfmpegPaths(root, platform, arch, suffix);
    var s := suffix.GetOr(DefaultSuffix(platform));
    forall c | c in r.filename
      ensures c != Sep
    {
      assert c in "ffmpeg-" || c in platform || c in "-" || c in arch || c in s;
    }
    BaseNameOfJoin(ArtifactDirectory(root), r.filename);
  }

  /**
   * The artifact name determines the platform, provided platform names
   * contain no '-', and then the architecture with its suffix.
   */
  lemma FilenameDeterminesPlatform(
    root: string, p1: string, a1: string, s1: string, p2: string, a2: string, s2: string)
    requires '-' !in p1 && '-' !in p2
    requires GetFfmpegPaths(root, p1, a1, Some(s1)).filename == GetFfmpegPaths(root, p2, a2, Some(s2)).filename
    ensures p1 == p2 && a1 + s1 == a2 + s2
  {
    FilenameAfterPrefix(root, p1, a1, s1);
    FilenameAfterPrefix(root, p2, a2, s2);
    SplitAtFirstDash(p1, a1 + s1, p2, a2 + s2);
  }

  /** What follows "ffmpeg-" in an artifact name. */
  lemma FilenameAfterPrefix(root: string, platform: string, arch: string, suffix: string)
    ensures GetFfmpegPaths(root, platform, arch, Some(suffix)).filename[7..] == platform + "-" + (arch + suffix)
  {
    var y := platform + "-" + (arch + suffix);
    assert "ffmpeg-" + y == GetFfmpegPaths(root, platform, arch, Some(suffix)).filename;
    assert y == ("ffmpeg-" + y)[7..];
  }

  /** A dash-free head followed by a dash can be read back unambiguously. */
  lemma SplitAtFirstDash(h1: string, t1: string, h2: string, t2: string)
    requires '-' !in h1 && '-' !in h2
    requires h1 + "-" + t1 == h2 + "-" + t2
    ensures h1 == h2 && t1 == t2
  {
    var x := h1 + "-" + t1;
    assert forall i :: 0 <= i < |h1| ==> x[i] == h1[i];
    assert forall i :: 0 <= i < |h2| ==> x[i] == h2[i];
    assert x[|h1|] == '-' && x[|h2|] == '-';
    assert |h1| == |h2|;
    assert h1 == x[..|h1|];
    assert h2 == x[..|h2|];
    assert t1 == x[|h1| + 1..];
    assert t2 == x[|h2| + 1..];
  }
}
