/**
 * The multi-platform downloader: a fixed table of five (platform, arch)
 * builds, each with a version, a source URL and an extraction strategy,
 * filtered by two optional command-line selectors and processed in order.
 * The filesystem is the set of files that exist; fetching and extracting
 * are recorded as actions in a log.
 */
module Download {
  import opened Wrappers
  import opened Paths
  import opened Common

  datatype Platform = Darwin | Linux | Win32 {
    /** The `process.platform` string. */
    function Name(): string {
      match this
      case Darwin => "darwin"
      case Linux => "linux"
      case Win32 => "win32"
    }
  }

  datatype Arch = X64 | Arm64 {
    /** The `process.arch` string. */
    function Name(): string {
      match this
      case X64 => "x64"
      case Arm64 => "arm64"
    }
  }

  /** How the executable is taken out of the downloaded archive. */
  datatype Strategy =
    | Zip(entryName: string)  // extract one named zip entry
    | Tar                     // unpack with `tar --strip-components=1`, then move `ffmpeg` into place

  /** Where a build is downloaded from. */
  datatype Origin =
    | OsxExperts(tail: string)     // macOS builds; the URL ends "intel.zip" or "arm.zip"
    | JohnVanSickle(tail: string)  // Linux static builds; the URL ends "-amd64-static.tar.xz" or "-arm64-static.tar.xz"
    | Gyan                         // the Windows "essentials" build

  /** One build in the download table. */
  datatype Entry = Entry(
    platform: Platform,
    arch: Arch,
    version: string,
    origin: Origin,
    downloadSuffix: string,   // suffix of the cached download's file name
    strategy: Strategy,
    artifactSuffix: string)   // suffix passed to the extractor for the artifact's name
  {
    /** The URL the build's download function fetches. */
    function Url(): string {
      match origin
      case OsxExperts(tail) => "https://www.osxexperts.net/ffmpeg" + StripDots(version) + tail
      case JohnVanSickle(tail) => "https://johnvansickle.com/ffmpeg/releases/ffmpeg-" + version + tail
      case Gyan => "https://www.gyan.dev/ffmpeg/builds/packages/ffmpeg-" + version + "-essentials_build.zip"
    }
  }

  /** What a run does to the outside world. */
  datatype Action =
    | Fetch(url: string, dest: string)
    | Unzip(zipPath: string, entryName: string, dest: string)
    | Untar(archive: string, extractDir: string, dest: string)

  // ---------------------------------------------------------------------
  // Version strings in URLs

  /** `replaceAll(s, '\\.', '')`: every '.' removed. */
  function StripDots(s: string): string {
    if s == [] then ""
    else
      assert s == [s[0]] + s[1..];
      (if s[0] == '.' then "" else [s[0]]) + StripDots(s[1..])
  }

  /** No '.' is left, and the result is never longer. */
  lemma {:induction false} StripDotsRemovesDots(s: string)
    ensures '.' !in StripDots(s)
    ensures |StripDots(s)| <= |s|
  {
    if s != [] {
      StripDotsRemovesDots(s[1..]);
    }
  }

  /** Every character other than '.' is kept, as often as it occurs. */
  lemma {:induction false} StripDotsKeepsOthers(s: string)
    ensures forall c :: c != '.' ==> multiset(StripDots(s))[c] == multiset(s)[c]
  {
    if s != [] {
      StripDotsKeepsOthers(s[1..]);
      assert s == [s[0]] + s[1..];
    }
  }

  /** Dot removal works piece by piece, so the kept characters stay in their order. */
  lemma {:induction false} StripDotsAppend(a: string, b: string)
    ensures StripDots(a + b) == StripDots(a) + StripDots(b)
    decreases |a|
  {
    if a == [] {
      assert a + b == b;
    } else {
      var head := if a[0] == '.' then "" else [a[0]];
      assert (a + b)[1..] == a[1..] + b;
      StripDotsAppend(a[1..], b);
      AppendAssoc(head, StripDots(a[1..]), StripDots(b));
    }
  }

  /** A version without dots is used in the URL as it is. */
  lemma {:induction false} StripDotsKeepsDotFree(s: string)
    requires '.' !in s
    ensures StripDots(s) == s
  {
    if s != [] {
      StripDotsKeepsDotFree(s[1..]);
    }
  }

  /** The versions the table uses. */
  lemma StripDotsOfTableVersions()
    ensures StripDots("6.1") == "61"
    ensures StripDots("6.1.1") == "611"
  {
    assert "6.1"[1..] == ".1" && ".1"[1..] == "1" && "1"[1..] == "";
    assert "6.1.1"[1..] == ".1.1" && ".1.1"[1..] == "1.1" && "1.1"[1..] == ".1";
  }

  // ---------------------------------------------------------------------
  // The download cache

  /** The cached download's file name. */
  function DownloadName(platform: string, arch: string, version: string, suffix: string): string {
    "ffmpeg-" + platform + "-" + arch + "-" + version + suffix
  }

  /** Where `downloadFile` puts (or finds) a download. */
  function DownloadPath(root: string, platform: string, arch: string, version: string, suffix: string): (p: string)
    ensures IsUnder(DownloadDirectory(root), p)
    ensures p[|DownloadDirectory(root)| + 1..] == "ffmpeg-" + platform + "-" + arch + "-" + version + suffix
  {
    JoinIsUnder(DownloadDirectory(root), DownloadName(platform, arch, version, suffix));
    Join(DownloadDirectory(root), DownloadName(platform, arch, version, suffix))
  }

  // ---------------------------------------------------------------------
  // The table

  function MacX64(version: string): Entry {
    Entry(Darwin, X64, version, OsxExperts("intel.zip"),
      ".zip", Zip("ffmpeg"), "")
  }

  function MacArm64(version: string): Entry {
    Entry(Darwin, Arm64, version, OsxExperts("arm.zip"),
      ".zip", Zip("ffmpeg"), "")
  }

  /** The default version is the "release" build. */
  function LinuxX64(version: Option<string>): Entry {
    var v := version.GetOr("release");
    Entry(Linux, X64, v, JohnVanSickle("-amd64-static.tar.xz"),
      ".tar.xz", Tar, "")
  }

  function LinuxArm64(version: Option<string>): Entry {
    var v := version.GetOr("release");
    Entry(Linux, Arm64, v, JohnVanSickle("-arm64-static.tar.xz"),
      ".tar.xz", Tar, "")
  }

  function WindowsX64(version: string): Entry {
    Entry(Win32, X64, version, Gyan,
      ".zip", Zip("ffmpeg-" + version + "-essentials_build/bin/ffmpeg.exe"), ".exe")
  }

  /** The builds `main` downloads, in the order it downloads them. */
  function Matrix(): seq<Entry> {
    [MacX64("6.1"), MacArm64("6.1.1"), LinuxX64(None), LinuxArm64(None), WindowsX64("6.1.1")]
  }

  /** What the table promises about each of its builds. */
  lemma MatrixRows()
    ensures |Matrix()| == 5
    ensures forall e <- Matrix() :: e.strategy.Zip? <==> e.platform != Linux
    ensures forall e <- Matrix() :: e.platform == Linux ==> e.downloadSuffix == ".tar.xz" && e.version == "release"
    ensures forall e <- Matrix() :: e.platform != Linux ==> e.downloadSuffix == ".zip"
    ensures forall e <- Matrix() :: e.artifactSuffix == (if e.platform == Win32 then ".exe" else "")
    ensures forall e <- Matrix() :: e.strategy.Zip? ==>
      e.strategy.entryName == (if e.platform == Win32 then "ffmpeg-" + e.version + "-essentials_build/bin/ffmpeg.exe" else "ffmpeg")
    ensures Matrix()[0].platform == Darwin && Matrix()[0].arch == X64 && Matrix()[0].version == "6.1"
    ensures Matrix()[1].platform == Darwin && Matrix()[1].arch == Arm64 && Matrix()[1].version == "6.1.1"
    ensures Matrix()[2].platform == Linux && Matrix()[2].arch == X64
    ensures Matrix()[3].platform == Linux && Matrix()[3].arch == Arm64
    ensures Matrix()[4].platform == Win32 && Matrix()[4].arch == X64 && Matrix()[4].version == "6.1.1"
  {
  }

  /** The URLs `main` downloads from: dot-free macOS versions, the Linux "release" build. */
  lemma TableUrls()
    ensures MacX64("6.1").Url() == "https://www.osxexperts.net/ffmpeg" + "61" + "intel.zip"
    ensures MacArm64("6.1.1").Url() == "https://www.osxexperts.net/ffmpeg" + "611" + "arm.zip"
    ensures LinuxX64(None).Url() == "https://johnvansickle.com/ffmpeg/releases/ffmpeg-" + "release" + "-amd64-static.tar.xz"
    ensures LinuxArm64(None).Url() == "https://johnvansickle.com/ffmpeg/releases/ffmpeg-" + "release" + "-arm64-static.tar.xz"
    ensures WindowsX64("6.1.1").Url() == "https://www.gyan.dev/ffmpeg/builds/packages/ffmpeg-" + "6.1.1" + "-essentials_build.zip"
  {
    StripDotsOfTableVersions();
  }

  /** Builds of one platform share their artifact suffix. */
  lemma MatrixArtifactSuffixes()
    ensures forall e <- Matrix() :: e.artifactSuffix == (if e.platform == Win32 then ".exe" else "")
  {
  }

  // ---------------------------------------------------------------------
  // Selection by the command-line arguments

  /** A selector that is absent or empty (falsy in JavaScript) admits every value. */
  predicate Selects(sel: Option<string>, name: string) {
    sel.None? || sel.value == "" || sel.value == name
  }

  predicate Matches(platform: Option<string>, arch: Option<string>, e: Entry) {
    Selects(platform, e.platform.Name()) && Selects(arch, e.arch.Name())
  }

  /** The entries of `es` matching both selectors, in their order. */
  function Filter(es: seq<Entry>, platform: Option<string>, arch: Option<string>): seq<Entry> {
    if es == [] then []
    else Guard(Matches(platform, arch, es[0]), es[0]) + Filter(es[1..], platform, arch)
  }

  /** The builds a run with these selectors processes. */
  function Selection(platform: Option<string>, arch: Option<string>): seq<Entry> {
    Filter(Matrix(), platform, arch)
  }

  lemma {:induction false} FilterMembers(es: seq<Entry>, platform: Option<string>, arch: Option<string>)
    ensures forall e :: e in Filter(es, platform, arch) <==> e in es && Matches(platform, arch, e)
    ensures |Filter(es, platform, arch)| <= |es|
  {
    if es != [] {
      FilterMembers(es[1..], platform, arch);
      assert es == [es[0]] + es[1..];
    }
  }

  lemma {:induction false} FilterKeepsAll(es: seq<Entry>, platform: Option<string>, arch: Option<string>)
    requires forall e <- es :: Matches(platform, arch, e)
    ensures Filter(es, platform, arch) == es
  {
    if es != [] {
      FilterKeepsAll(es[1..], platform, arch);
      assert es == [es[0]] + es[1..];
    }
  }

  /** Entries with pairwise different (platform, arch). */
  predicate DistinctPairs(es: seq<Entry>) {
    forall i, j :: 0 <= i < j < |es| ==> (es[i].platform, es[i].arch) != (es[j].platform, es[j].arch)
  }

  lemma {:induction false} FilterKeepsDistinct(es: seq<Entry>, platform: Option<string>, arch: Option<string>)
    requires DistinctPairs(es)
    ensures DistinctPairs(Filter(es, platform, arch))
  {
    if es != [] {
      var rest := Filter(es[1..], platform, arch);
      assert DistinctPairs(es[1..]) by {
        forall i, j | 0 <= i < j < |es[1..]|
          ensures (es[1..][i].platform, es[1..][i].arch) != (es[1..][j].platform, es[1..][j].arch)
        {
          assert es[1..][i] == es[i + 1] && es[1..][j] == es[j + 1];
        }
      }
      FilterKeepsDistinct(es[1..], platform, arch);
      if Matches(platform, arch, es[0]) {
        FilterMembers(es[1..], platform, arch);
        HeadPairFresh(es);
        DistinctCons(es[0], rest);
      }
    }
  }

  /** In a list with distinct pairs, the head's pair occurs nowhere in the tail. */
  lemma HeadPairFresh(es: seq<Entry>)
    requires es != [] && DistinctPairs(es)
    ensures forall e <- es[1..] :: (e.platform, e.arch) != (es[0].platform, es[0].arch)
  {
    forall e <- es[1..]
      ensures (e.platform, e.arch) != (es[0].platform, es[0].arch)
    {
      var k :| 0 <= k < |es[1..]| && es[1..][k] == e;
      assert es[k + 1] == e;
    }
  }

  /** A fresh pair in front of a list with distinct pairs keeps them distinct. */
  lemma DistinctCons(x: Entry, rest: seq<Entry>)
    requires DistinctPairs(rest)
    requires forall e <- rest :: (e.platform, e.arch) != (x.platform, x.arch)
    ensures DistinctPairs([x] + rest)
  {
    var f := [x] + rest;
    forall i, j | 0 <= i < j < |f|
      ensures (f[i].platform, f[i].arch) != (f[j].platform, f[j].arch)
    {
      assert f[j] == rest[j - 1];
      if i > 0 {
        assert f[i] == rest[i - 1];
      }
    }
  }

  /** A run processes exactly the builds matching every given selector, each once. */
  lemma SelectionIsFilter(platform: Option<string>, arch: Option<string>)
    ensures forall e :: e in Selection(platform, arch) <==> e in Matrix() && Matches(platform, arch, e)
    ensures DistinctPairs(Selection(platform, arch))
    ensures |Selection(platform, arch)| <= 5
  {
    FilterMembers(Matrix(), platform, arch);
    MatrixDistinct();
    FilterKeepsDistinct(Matrix(), platform, arch);
  }

  /** The table has one build per (platform, arch) pair. */
  lemma MatrixDistinct()
    ensures DistinctPairs(Matrix())
  {
    var m := Matrix();
    assert m[0].platform == Darwin && m[0].arch == X64;
    assert m[1].platform == Darwin && m[1].arch == Arm64;
    assert m[2].platform == Linux && m[2].arch == X64;
    assert m[3].platform == Linux && m[3].arch == Arm64;
    assert m[4].platform == Win32 && m[4].arch == X64;
  }

  /** Without selectors every build is processed, in table order. */
  lemma SelectionWithoutSelectors(platform: Option<string>, arch: Option<string>)
    requires platform == None || platform == Some("")
    requires arch == None || arch == Some("")
    ensures Selection(platform, arch) == Matrix()
  {
    FilterKeepsAll(Matrix(), platform, arch);
  }

  /** `linux x64` selects the one Linux x64 build; `win32 arm64` selects nothing. */
  lemma SelectionExamples()
    ensures Selection(Some("linux"), Some("x64")) == [LinuxX64(None)]
    ensures Selection(Some("win32"), Some("arm64")) == []
  {
    MainBuildsAreSelection(Some("linux"), Some("x64"));
    MainBuildsAreSelection(Some("win32"), Some("arm64"));
  }

  /**
   * Two builds for different (platform, arch) pairs never share an artifact,
   * provided builds of one platform use one artifact suffix.
   */
  lemma DistinctBuildsDistinctArtifacts(root: string, e1: Entry, e2: Entry)
    requires (e1.platform, e1.arch) != (e2.platform, e2.arch)
    ensures ArtifactOf(root, e1).ffmpegPath != ArtifactOf(root, e2).ffmpegPath
  {
    var p1, a1, p2, a2 := e1.platform.Name(), e1.arch.Name(), e2.platform.Name(), e2.arch.Name();
    var f1, f2 := ArtifactOf(root, e1), ArtifactOf(root, e2);
    if f1.ffmpegPath == f2.ffmpegPath {
      JoinInjective(ArtifactDirectory(root), f1.filename, f2.filename);
      FilenameDeterminesPlatform(root, p1, a1, e1.artifactSuffix, p2, a2, e2.artifactSuffix);
      PlatformNameInjective(e1.platform, e2.platform);
      assert a1[0] == (a1 + e1.artifactSuffix)[0] == (a2 + e2.artifactSuffix)[0] == a2[0];
      ArchInitialInjective(e1.arch, e2.arch);
    }
  }

  /** The two `process.arch` names already differ in their first character. */
  lemma ArchInitialInjective(a: Arch, b: Arch)
    requires a.Name()[0] == b.Name()[0]
    ensures a == b
  {
  }

  /** Two builds for different (platform, arch) pairs never share a download. */
  lemma DistinctBuildsDistinctDownloads(root: string, e1: Entry, e2: Entry)
    requires (e1.platform, e1.arch) != (e2.platform, e2.arch)
    ensures DownloadPathOf(root, e1) != DownloadPathOf(root, e2)
  {
    var p1, a1, p2, a2 := e1.platform.Name(), e1.arch.Name(), e2.platform.Name(), e2.arch.Name();
    if DownloadPathOf(root, e1) == DownloadPathOf(root, e2) {
      JoinInjective(DownloadDirectory(root),
        DownloadName(p1, a1, e1.version, e1.downloadSuffix), DownloadName(p2, a2, e2.version, e2.downloadSuffix));
      NamesDashFree(e1);
      NamesDashFree(e2);
      DownloadNameDeterminesPair(p1, a1, e1.version, e1.downloadSuffix, p2, a2, e2.version, e2.downloadSuffix);
      PlatformNameInjective(e1.platform, e2.platform);
      ArchNameInjective(e1.arch, e2.arch);
    }
  }

  /** A download name determines its platform and arch, when neither contains '-'. */
  lemma DownloadNameDeterminesPair(p1: string, a1: string, v1: string, s1: string,
    p2: string, a2: string, v2: string, s2: string)
    requires '-' !in p1 && '-' !in a1 && '-' !in p2 && '-' !in a2
    requires DownloadName(p1, a1, v1, s1) == DownloadName(p2, a2, v2, s2)
    ensures p1 == p2 && a1 == a2
  {
    var t1, t2 := a1 + "-" + (v1 + s1), a2 + "-" + (v2 + s2);
    var n1, n2 := DownloadName(p1, a1, v1, s1), DownloadName(p2, a2, v2, s2);
    assert n1 == "ffmpeg-" + (p1 + "-" + t1);
    assert n2 == "ffmpeg-" + (p2 + "-" + t2);
    assert n1[7..] == p1 + "-" + t1;
    assert n2[7..] == p2 + "-" + t2;
    SplitAtFirstDash(p1, t1, p2, t2);
    SplitAtFirstDash(a1, v1 + s1, a2, v2 + s2);
  }

  lemma NamesDashFree(e: Entry)
    ensures '-' !in e.platform.Name() && '-' !in e.arch.Name()
  {
  }

  lemma PlatformNameInjective(p: Platform, q: Platform)
    requires p.Name() == q.Name()
    ensures p == q
  {
    assert p.Name()[0] == q.Name()[0];
  }

  lemma ArchNameInjective(a: Arch, b: Arch)
    requires a.Name() == b.Name()
    ensures a == b
  {
    assert |a.Name()| == |b.Name()|;
  }

  /**
   * The builds of one run leave pairwise different artifacts and downloads:
   * one artifact per selected (platform, arch) pair.
   */
  lemma SelectionPathsDistinct(root: string, platform: Option<string>, arch: Option<string>)
    ensures forall i, j :: 0 <= i < j < |Selection(platform, arch)| ==>
      ArtifactOf(root, Selection(platform, arch)[i]).ffmpegPath != ArtifactOf(root, Selection(platform, arch)[j]).ffmpegPath &&
      DownloadPathOf(root, Selection(platform, arch)[i]) != DownloadPathOf(root, Selection(platform, arch)[j])
  {
    var sel := Selection(platform, arch);
    MatrixDistinct();
    FilterKeepsDistinct(Matrix(), platform, arch);
    forall i, j | 0 <= i < j < |sel|
      ensures ArtifactOf(root, sel[i]).ffmpegPath != ArtifactOf(root, sel[j]).ffmpegPath
      ensures DownloadPathOf(root, sel[i]) != DownloadPathOf(root, sel[j])
    {
      SelectedPathsDiffer(root, platform, arch, sel[i], sel[j]);
    }
  }

  /** Two selected builds for different pairs have different artifacts and downloads. */
  lemma SelectedPathsDiffer(root: string, platform: Option<string>, arch: Option<string>, e1: Entry, e2: Entry)
    requires e1 in Selection(platform, arch) && e2 in Selection(platform, arch)
    requires (e1.platform, e1.arch) != (e2.platform, e2.arch)
    ensures ArtifactOf(root, e1).ffmpegPath != ArtifactOf(root, e2).ffmpegPath
    ensures DownloadPathOf(root, e1) != DownloadPathOf(root, e2)
  {
    DistinctBuildsDistinctArtifacts(root, e1, e2);
    DistinctBuildsDistinctDownloads(root, e1, e2);
  }

  // ---------------------------------------------------------------------
  // What processing a build does

  function DownloadPathOf(root: string, e: Entry): string {
    DownloadPath(root, e.platform.Name(), e.arch.Name(), e.version, e.downloadSuffix)
  }

  /** The artifact the extractor produces for a build. */
  function ArtifactOf(root: string, e: Entry): FfmpegPaths {
    GetFfmpegPaths(root, e.platform.Name(), e.arch.Name(), Some(e.artifactSuffix))
  }

  function ExtractAction(root: string, e: Entry): Action {
    var a := ArtifactOf(root, e);
    match e.strategy
    case Zip(name) => Unzip(DownloadPathOf(root, e), name, a.ffmpegPath)
    case Tar => Untar(DownloadPathOf(root, e), Join(DownloadDirectory(root), a.filename + ".tmp"), a.ffmpegPath)
  }

  /** Download unless already cached, then extract. */
  function EntryActions(root: string, files: set<string>, e: Entry): seq<Action> {
    var d := DownloadPathOf(root, e);
    (if d in files then [] else [Fetch(e.Url(), d)]) + [ExtractAction(root, e)]
  }

  function EntryFiles(root: string, files: set<string>, e: Entry): set<string> {
    files + {DownloadPathOf(root, e), ArtifactOf(root, e).ffmpegPath}
  }

  /** The actions of processing `es` in order, starting from `files`. */
  function RunActions(root: string, files: set<string>, es: seq<Entry>): seq<Action>
    decreases |es|
  {
    if es == [] then []
    else EntryActions(root, files, es[0]) + RunActions(root, EntryFiles(root, files, es[0]), es[1..])
  }

  /** The files that exist after processing `es` in order, starting from `files`. */
  function RunFiles(root: string, files: set<string>, es: seq<Entry>): set<string>
    decreases |es|
  {
    if es == [] then files else RunFiles(root, EntryFiles(root, files, es[0]), es[1..])
  }

  /** The files left after the artifact directory is removed and recreated empty. */
  function ClearArtifacts(root: string, files: set<string>): set<string> {
    set p | p in files && !IsUnder(ArtifactDirectory(root), p)
  }

  lemma {:induction false} RunSnoc(root: string, files: set<string>, es: seq<Entry>, e: Entry)
    ensures RunActions(root, files, es + [e]) == RunActions(root, files, es) + EntryActions(root, RunFiles(root, files, es), e)
    ensures RunFiles(root, files, es + [e]) == EntryFiles(root, RunFiles(root, files, es), e)
    decreases |es|
  {
    if es == [] {
      assert es + [e] == [e];
    } else {
      assert (es + [e])[1..] == es[1..] + [e];
      RunSnoc(root, EntryFiles(root, files, es[0]), es[1..], e);
    }
  }

  /** After a run, exactly the start files, the builds' downloads and their artifacts exist. */
  lemma {:induction false} RunFilesContents(root: string, files: set<string>, es: seq<Entry>)
    ensures forall p :: p in RunFiles(root, files, es) <==>
      p in files || exists e <- es :: p == DownloadPathOf(root, e) || p == ArtifactOf(root, e).ffmpegPath
    decreases |es|
  {
    if es != [] {
      var e, rest := es[0], es[1..];
      RunFilesContents(root, EntryFiles(root, files, e), rest);
      assert es == [e] + rest;
    }
  }

  /** A download is fetched only when its path does not exist yet, and from its build's URL. */
  lemma {:induction false} RunFetchesOnlyMissing(root: string, files: set<string>, es: seq<Entry>)
    ensures forall a <- RunActions(root, files, es) :: a.Fetch? ==>
      a.dest !in files && exists e <- es :: a == Fetch(e.Url(), DownloadPathOf(root, e))
    decreases |es|
  {
    if es != [] {
      var files' := EntryFiles(root, files, es[0]);
      RunFetchesOnlyMissing(root, files', es[1..]);
      assert es == [es[0]] + es[1..];
      forall a <- RunActions(root, files, es) | a.Fetch?
        ensures a.dest !in files && exists e <- es :: a == Fetch(e.Url(), DownloadPathOf(root, e))
      {
        if a !in EntryActions(root, files, es[0]) {
          assert a in RunActions(root, files', es[1..]);
          var e :| e in es[1..] && a == Fetch(e.Url(), DownloadPathOf(root, e));
          assert e in es;
        } else {
          assert a == Fetch(es[0].Url(), DownloadPathOf(root, es[0]));
        }
      }
    }
  }

  /** Processing builds again fetches nothing: every download is found in the cache. */
  lemma {:induction false} RerunFetchesNothing(root: string, files: set<string>, es: seq<Entry>)
    ensures forall a <- RunActions(root, RunFiles(root, files, es), es) :: !a.Fetch?
  {
    var after := RunFiles(root, files, es);
    RunFilesContents(root, files, es);
    RunFetchesOnlyMissing(root, after, es);
  }

  /** The extractions of a run produce the builds' artifacts, one per build, in order. */
  function Extracted(log: seq<Action>): seq<string> {
    if log == [] then []
    else (if log[0].Fetch? then [] else [log[0].dest]) + Extracted(log[1..])
  }

  lemma {:induction false} ExtractedAppend(a: seq<Action>, b: seq<Action>)
    ensures Extracted(a + b) == Extracted(a) + Extracted(b)
    decreases |a|
  {
    if a == [] {
      assert a + b == b;
    } else {
      assert (a + b)[1..] == a[1..] + b;
      ExtractedAppend(a[1..], b);
    }
  }

  /** The artifact paths of `es`, in order. */
  function ArtifactPaths(root: string, es: seq<Entry>): (r: seq<string>)
    ensures |r| == |es|
    ensures forall i :: 0 <= i < |es| ==> r[i] == ArtifactOf(root, es[i]).ffmpegPath
  {
    if es == [] then []
    else [ArtifactOf(root, es[0]).ffmpegPath] + ArtifactPaths(root, es[1..])
  }

  /** A run extracts one artifact per build, namely that build's artifact, in build order. */
  lemma {:induction false} RunExtractsInOrder(root: string, files: set<string>, es: seq<Entry>)
    ensures Extracted(RunActions(root, files, es)) == ArtifactPaths(root, es)
    decreases |es|
  {
    if es != [] {
      var files' := EntryFiles(root, files, es[0]);
      RunExtractsInOrder(root, files', es[1..]);
      EntryExtracts(root, files, es[0]);
      ExtractedAppend(EntryActions(root, files, es[0]), RunActions(root, files', es[1..]));
    }
  }

  /** Processing one build extracts exactly its artifact. */
  lemma EntryExtracts(root: string, files: set<string>, e: Entry)
    ensures Extracted(EntryActions(root, files, e)) == [ArtifactOf(root, e).ffmpegPath]
  {
    var d := DownloadPathOf(root, e);
    var x := ExtractAction(root, e);
    assert !x.Fetch? && x.dest == ArtifactOf(root, e).ffmpegPath;
    assert Extracted([x]) == [x.dest] by {
      assert [x][1..] == [];
    }
    if d !in files {
      var h := [Fetch(e.Url(), d), x];
      assert h[1..] == [x];
    }
  }

  /**
   * After `main`, the artifact directory holds exactly one executable per
   * selected build: the clean-out removes every earlier artifact and the
   * downloads live in a different directory.
   */
  lemma RunArtifacts(root: string, files: set<string>, es: seq<Entry>)
    ensures (set p | p in RunFiles(root, ClearArtifacts(root, files), es) && IsUnder(ArtifactDirectory(root), p))
      == (set e | e in es :: ArtifactOf(root, e).ffmpegPath)
  {
    var start := ClearArtifacts(root, files);
    RunFilesContents(root, start, es);
    var lhs := set p | p in RunFiles(root, start, es) && IsUnder(ArtifactDirectory(root), p);
    var rhs := set e | e in es :: ArtifactOf(root, e).ffmpegPath;
    forall p | p in lhs
      ensures p in rhs
    {
      if p !in rhs {
        if p !in start {
          var e :| e in es && p == DownloadPathOf(root, e);
          SiblingsDisjoint(root, "downloads", "artifacts", p);
        }
      }
    }
  }

  // ---------------------------------------------------------------------
  // The filesystem and the steps of a run

  /** The files that exist, and everything fetched or extracted so far. */
  class FileSystem {
    var files: set<string>
    var log: seq<Action>

    constructor (existing: set<string>)
      ensures files == existing && log == []
    {
      files := existing;
      log := [];
    }
  }

  /** `downloadFile`: returns the cached path if it exists, otherwise fetches into it. */
  method DownloadFile(fs: FileSystem, root: string, url: string, platform: string, arch: string, version: string, suffix: string)
    returns (downloadPath: string)
    modifies fs
    ensures downloadPath == DownloadPath(root, platform, arch, version, suffix)
    ensures downloadPath in old(fs.files) ==> fs.files == old(fs.files) && fs.log == old(fs.log)
    ensures downloadPath !in old(fs.files) ==>
      fs.files == old(fs.files) + {downloadPath} && fs.log == old(fs.log) + [Fetch(url, downloadPath)]
  {
    downloadPath := DownloadPath(root, platform, arch, version, suffix);
    if downloadPath in fs.files {
      return;
    }
    fs.log := fs.log + [Fetch(url, downloadPath)];
    fs.files := fs.files + {downloadPath};
  }

  /** `unzipFfmpeg`: extracts one entry as the artifact; the suffix defaults to "". */
  method UnzipFfmpeg(fs: FileSystem, root: string, zipPath: string, entryName: string, platform: string, arch: string, suffix: Option<string>)
    returns (ffmpegPath: string)
    modifies fs
    ensures ffmpegPath == GetFfmpegPaths(root, platform, arch, Some(suffix.GetOr(""))).ffmpegPath
    ensures fs.files == old(fs.files) + {ffmpegPath}
    ensures fs.log == old(fs.log) + [Unzip(zipPath, entryName, ffmpegPath)]
  {
    var paths := GetFfmpegPaths(root, platform, arch, Some(suffix.GetOr("")));
    ffmpegPath := paths.ffmpegPath;
    fs.log := fs.log + [Unzip(zipPath, entryName, ffmpegPath)];
    fs.files := fs.files + {ffmpegPath};
  }

  /** `untarFfmpeg`: unpacks into `<filename>.tmp` in the download directory, then moves `ffmpeg` into place. */
  method UntarFfmpeg(fs: FileSystem, root: string, tarxzPath: string, platform: string, arch: string, suffix: Option<string>)
    returns (ffmpegPath: string)
    modifies fs
    ensures var paths := GetFfmpegPaths(root, platform, arch, Some(suffix.GetOr("")));
      ffmpegPath == paths.ffmpegPath &&
      fs.log == old(fs.log) + [Untar(tarxzPath, Join(DownloadDirectory(root), paths.filename + ".tmp"), ffmpegPath)]
    ensures fs.files == old(fs.files) + {ffmpegPath}
  {
    var paths := GetFfmpegPaths(root, platform, arch, Some(suffix.GetOr("")));
    var extractPath := Join(DownloadDirectory(root), paths.filename + ".tmp");
    ffmpegPath := paths.ffmpegPath;
    fs.log := fs.log + [Untar(tarxzPath, extractPath, ffmpegPath)];
    fs.files := fs.files + {ffmpegPath};
  }

  method DownloadMacX64(fs: FileSystem, root: string, version: string) returns (ffmpegPath: string)
    modifies fs
    ensures ffmpegPath == ArtifactOf(root, MacX64(version)).ffmpegPath
    ensures fs.log == old(fs.log) + EntryActions(root, old(fs.files), MacX64(version))
    ensures fs.files == EntryFiles(root, old(fs.files), MacX64(version))
  {
    var ffmpegzip := DownloadFile(fs, root, "https://www.osxexperts.net/ffmpeg" + StripDots(version) + "intel.zip", "darwin", "x64", version, ".zip");
    ffmpegPath := UnzipFfmpeg(fs, root, ffmpegzip, "ffmpeg", "darwin", "x64", None);
  }

  method DownloadMacAppleArm64(fs: FileSystem, root: string, version: string) returns (ffmpegPath: string)
    modifies fs
    ensures ffmpegPath == ArtifactOf(root, MacArm64(version)).ffmpegPath
    ensures fs.log == old(fs.log) + EntryActions(root, old(fs.files), MacArm64(version))
    ensures fs.files == EntryFiles(root, old(fs.files), MacArm64(version))
  {
    var ffmpegzip := DownloadFile(fs, root, "https://www.osxexperts.net/ffmpeg" + StripDots(version) + "arm.zip", "darwin", "arm64", version, ".zip");
    ffmpegPath := UnzipFfmpeg(fs, root, ffmpegzip, "ffmpeg", "darwin", "arm64", None);
  }

  method DownloadLinuxX64(fs: FileSystem, root: string, version: Option<string>) returns (ffmpegPath: string)
    modifies fs
    ensures ffmpegPath == ArtifactOf(root, LinuxX64(version)).ffmpegPath
    ensures fs.log == old(fs.log) + EntryActions(root, old(fs.files), LinuxX64(version))
    ensures fs.files == EntryFiles(root, old(fs.files), LinuxX64(version))
  {
    var v := version.GetOr("release");
    var ffmpegzip := DownloadFile(fs, root, "https://johnvansickle.com/ffmpeg/releases/ffmpeg-" + v + "-amd64-static.tar.xz", "linux", "x64", v, ".tar.xz");
    ffmpegPath := UntarFfmpeg(fs, root, ffmpegzip, "linux", "x64", None);
  }

  method DownloadLinuxArm64(fs: FileSystem, root: string, version: Option<string>) returns (ffmpegPath: string)
    modifies fs
    ensures ffmpegPath == ArtifactOf(root, LinuxArm64(version)).ffmpegPath
    ensures fs.log == old(fs.log) + EntryActions(root, old(fs.files), LinuxArm64(version))
    ensures fs.files == EntryFiles(root, old(fs.files), LinuxArm64(version))
  {
    var v := version.GetOr("release");
    var ffmpegzip := DownloadFile(fs, root, "https://johnvansickle.com/ffmpeg/releases/ffmpeg-" + v + "-arm64-static.tar.xz", "linux", "arm64", v, ".tar.xz");
    ffmpegPath := UntarFfmpeg(fs, root, ffmpegzip, "linux", "arm64", None);
  }

  method DownloadWindowsX64(fs: FileSystem, root: string, version: string) returns (ffmpegPath: string)
    modifies fs
    ensures ffmpegPath == ArtifactOf(root, WindowsX64(version)).ffmpegPath
    ensures fs.log == old(fs.log) + EntryActions(root, old(fs.files), WindowsX64(version))
    ensures fs.files == EntryFiles(root, old(fs.files), WindowsX64(version))
  {
    var ffmpegzip := DownloadFile(fs, root, "https://www.gyan.dev/ffmpeg/builds/packages/ffmpeg-" + version + "-essentials_build.zip", "win32", "x64", version, ".zip");
    ffmpegPath := UnzipFfmpeg(fs, root, ffmpegzip, "ffmpeg-" + version + "-essentials_build/bin/ffmpeg.exe", "win32", "x64", Some(".exe"));
  }

  /** The first block of `main`: the macOS builds the architecture selector admits. */
  method DownloadDarwinBuilds(fs: FileSystem, root: string, arch: Option<string>)
    modifies fs
    ensures fs.log == old(fs.log) + RunActions(root, old(fs.files), DarwinBuilds(arch))
    ensures fs.files == RunFiles(root, old(fs.files), DarwinBuilds(arch))
  {
    ghost var start, log0 := fs.files, fs.log;
    ghost var done: seq<Entry> := [];
    var ffmpegPath: string;
    if Selects(arch, "x64") {
      ghost var log1, files1 := fs.log, fs.files;
      ffmpegPath := DownloadMacX64(fs, root, "6.1");
      Advance(root, start, log0, done, MacX64("6.1"), log1, files1, fs.log, fs.files);
    }
    GuardStep(done, Selects(arch, "x64"), MacX64("6.1"));
    done := done + Guard(Selects(arch, "x64"), MacX64("6.1"));
    if Selects(arch, "arm64") {
      ghost var log1, files1 := fs.log, fs.files;
      ffmpegPath := DownloadMacAppleArm64(fs, root, "6.1.1");
      Advance(root, start, log0, done, MacArm64("6.1.1"), log1, files1, fs.log, fs.files);
    }
    GuardStep(done, Selects(arch, "arm64"), MacArm64("6.1.1"));
    done := done + Guard(Selects(arch, "arm64"), MacArm64("6.1.1"));
  }

  /** The second block of `main`: the Linux builds, at their default version. */
  method DownloadLinuxBuilds(fs: FileSystem, root: string, arch: Option<string>)
    modifies fs
    ensures fs.log == old(fs.log) + RunActions(root, old(fs.files), LinuxBuilds(arch))
    ensures fs.files == RunFiles(root, old(fs.files), LinuxBuilds(arch))
  {
    ghost var start, log0 := fs.files, fs.log;
    ghost var done: seq<Entry> := [];
    var ffmpegPath: string;
    if Selects(arch, "x64") {
      ghost var log1, files1 := fs.log, fs.files;
      ffmpegPath := DownloadLinuxX64(fs, root, None);
      Advance(root, start, log0, done, LinuxX64(None), log1, files1, fs.log, fs.files);
    }
    GuardStep(done, Selects(arch, "x64"), LinuxX64(None));
    done := done + Guard(Selects(arch, "x64"), LinuxX64(None));
    if Selects(arch, "arm64") {
      ghost var log1, files1 := fs.log, fs.files;
      ffmpegPath := DownloadLinuxArm64(fs, root, None);
      Advance(root, start, log0, done, LinuxArm64(None), log1, files1, fs.log, fs.files);
    }
    GuardStep(done, Selects(arch, "arm64"), LinuxArm64(None));
    done := done + Guard(Selects(arch, "arm64"), LinuxArm64(None));
  }

  /** The third block of `main`: the one Windows build. */
  method DownloadWindowsBuilds(fs: FileSystem, root: string, arch: Option<string>)
    modifies fs
    ensures fs.log == old(fs.log) + RunActions(root, old(fs.files), WindowsBuilds(arch))
    ensures fs.files == RunFiles(root, old(fs.files), WindowsBuilds(arch))
  {
    ghost var start, log0 := fs.files, fs.log;
    var ffmpegPath: string;
    if Selects(arch, "x64") {
      ghost var log1, files1 := fs.log, fs.files;
      ffmpegPath := DownloadWindowsX64(fs, root, "6.1.1");
      Advance(root, start, log0, [], WindowsX64("6.1.1"), log1, files1, fs.log, fs.files);
    }
    GuardStep([], Selects(arch, "x64"), WindowsX64("6.1.1"));
  }

  /**
   * `main(platform, arch)`: clears the artifact directory, then downloads and
   * extracts every selected build in table order.
   */
  method DownloadSelected(fs: FileSystem, root: string, platform: Option<string>, arch: Option<string>)
    modifies fs
    ensures fs.log == old(fs.log) + RunActions(root, ClearArtifacts(root, old(fs.files)), MainBuilds(platform, arch))
    ensures fs.files == RunFiles(root, ClearArtifacts(root, old(fs.files)), MainBuilds(platform, arch))
  {
    fs.files := ClearArtifacts(root, fs.files);
    ghost var start, log0 := fs.files, fs.log;
    ghost var darwin := Block(Selects(platform, "darwin"), DarwinBuilds(arch));
    ghost var linux := Block(Selects(platform, "linux"), LinuxBuilds(arch));
    ghost var windows := Block(Selects(platform, "win32"), WindowsBuilds(arch));

    if Selects(platform, "darwin") {
      DownloadDarwinBuilds(fs, root, arch);
    }
    assert fs.log == log0 + RunActions(root, start, darwin) && fs.files == RunFiles(root, start, darwin);

    ghost var log1, files1 := fs.log, fs.files;
    if Selects(platform, "linux") {
      DownloadLinuxBuilds(fs, root, arch);
    }
    Chain(root, start, log0, darwin, linux, log1, files1, fs.log, fs.files);

    ghost var log2, files2 := fs.log, fs.files;
    if Selects(platform, "win32") {
      DownloadWindowsBuilds(fs, root, arch);
    }
    Chain(root, start, log0, darwin + linux, windows, log2, files2, fs.log, fs.files);
  }

  /** The builds `main` visits, block by block, as its conditions say. */
  function MainBuilds(platform: Option<string>, arch: Option<string>): seq<Entry> {
    Block(Selects(platform, "darwin"), DarwinBuilds(arch))
    + Block(Selects(platform, "linux"), LinuxBuilds(arch))
    + Block(Selects(platform, "win32"), WindowsBuilds(arch))
  }

  /** The builds of a platform block when its condition holds, nothing otherwise. */
  function Block(b: bool, builds: seq<Entry>): seq<Entry> {
    if b then builds else []
  }

  /** The macOS builds `main` visits when the platform selector admits "darwin". */
  function DarwinBuilds(arch: Option<string>): seq<Entry> {
    Guard(Selects(arch, "x64"), MacX64("6.1")) + Guard(Selects(arch, "arm64"), MacArm64("6.1.1"))
  }

  function LinuxBuilds(arch: Option<string>): seq<Entry> {
    Guard(Selects(arch, "x64"), LinuxX64(None)) + Guard(Selects(arch, "arm64"), LinuxArm64(None))
  }

  function WindowsBuilds(arch: Option<string>): seq<Entry> {
    Guard(Selects(arch, "x64"), WindowsX64("6.1.1"))
  }

  /** A run of `a` followed by a run of `b` is a run of `a + b`. */
  lemma Chain(root: string, start: set<string>, log0: seq<Action>, a: seq<Entry>, b: seq<Entry>,
    logMid: seq<Action>, filesMid: set<string>, logEnd: seq<Action>, filesEnd: set<string>)
    requires logMid == log0 + RunActions(root, start, a) && filesMid == RunFiles(root, start, a)
    requires logEnd == logMid + RunActions(root, filesMid, b) && filesEnd == RunFiles(root, filesMid, b)
    ensures logEnd == log0 + RunActions(root, start, a + b)
    ensures filesEnd == RunFiles(root, start, a + b)
  {
    RunAppend(root, start, a, b);
    AppendAssoc(log0, RunActions(root, start, a), RunActions(root, filesMid, b));
  }

  lemma AppendAssoc<T>(x: seq<T>, y: seq<T>, z: seq<T>)
    ensures (x + y) + z == x + (y + z)
  {
  }

  /** Processing two lists one after the other is processing their concatenation. */
  lemma {:induction false} RunAppend(root: string, files: set<string>, a: seq<Entry>, b: seq<Entry>)
    ensures RunActions(root, files, a + b) == RunActions(root, files, a) + RunActions(root, RunFiles(root, files, a), b)
    ensures RunFiles(root, files, a + b) == RunFiles(root, RunFiles(root, files, a), b)
    decreases |a|
  {
    if a == [] {
      assert a + b == b;
    } else {
      assert (a + b)[1..] == a[1..] + b;
      RunAppend(root, EntryFiles(root, files, a[0]), a[1..], b);
    }
  }

  lemma GuardStep(done: seq<Entry>, b: bool, e: Entry)
    ensures done + Guard(b, e) == if b then done + [e] else done
  {
  }

  /** One more processed build extends the run's log and files by that build's step. */
  lemma Advance(root: string, start: set<string>, log0: seq<Action>, done: seq<Entry>, e: Entry,
    logBefore: seq<Action>, filesBefore: set<string>, logAfter: seq<Action>, filesAfter: set<string>)
    requires logBefore == log0 + RunActions(root, start, done) && filesBefore == RunFiles(root, start, done)
    requires logAfter == logBefore + EntryActions(root, filesBefore, e)
    requires filesAfter == EntryFiles(root, filesBefore, e)
    ensures logAfter == log0 + RunActions(root, start, done + [e])
    ensures filesAfter == RunFiles(root, start, done + [e])
  {
    RunSnoc(root, start, done, e);
    AppendAssoc(log0, RunActions(root, start, done), EntryActions(root, filesBefore, e));
  }

  /** `main`'s nested conditions select exactly the table rows matching both selectors. */
  lemma MainBuildsAreSelection(platform: Option<string>, arch: Option<string>)
    ensures MainBuilds(platform, arch) == Selection(platform, arch)
  {
    var darwin := [MacX64("6.1"), MacArm64("6.1.1")];
    var linux := [LinuxX64(None), LinuxArm64(None)];
    var windows := [WindowsX64("6.1.1")];
    assert Matrix() == darwin + linux + windows;
    FilterAppend(darwin + linux, windows, platform, arch);
    FilterAppend(darwin, linux, platform, arch);
    DarwinBlockIsFilter(platform, arch);
    LinuxBlockIsFilter(platform, arch);
    WindowsBlockIsFilter(platform, arch);
  }

  lemma DarwinBlockIsFilter(platform: Option<string>, arch: Option<string>)
    ensures Filter([MacX64("6.1"), MacArm64("6.1.1")], platform, arch) == Block(Selects(platform, "darwin"), DarwinBuilds(arch))
  {
    var e0, e1 := MacX64("6.1"), MacArm64("6.1.1");
    assert [e0, e1] == [e0] + [e1];
    FilterAppend([e0], [e1], platform, arch);
    FilterSingle(e0, platform, arch);
    FilterSingle(e1, platform, arch);
  }

  lemma LinuxBlockIsFilter(platform: Option<string>, arch: Option<string>)
    ensures Filter([LinuxX64(None), LinuxArm64(None)], platform, arch) == Block(Selects(platform, "linux"), LinuxBuilds(arch))
  {
    var e0, e1 := LinuxX64(None), LinuxArm64(None);
    assert [e0, e1] == [e0] + [e1];
    FilterAppend([e0], [e1], platform, arch);
    FilterSingle(e0, platform, arch);
    FilterSingle(e1, platform, arch);
  }

  lemma WindowsBlockIsFilter(platform: Option<string>, arch: Option<string>)
    ensures Filter([WindowsX64("6.1.1")], platform, arch) == Block(Selects(platform, "win32"), WindowsBuilds(arch))
  {
    FilterSingle(WindowsX64("6.1.1"), platform, arch);
  }

  /** `[e]` when the guard holds, nothing otherwise. */
  function Guard(b: bool, e: Entry): seq<Entry> {
    if b then [e] else []
  }

  lemma FilterSingle(e: Entry, platform: Option<string>, arch: Option<string>)
    ensures Filter([e], platform, arch) == Guard(Matches(platform, arch, e), e)
  {
    assert [e][1..] == [];
  }

  lemma {:induction false} FilterAppend(a: seq<Entry>, b: seq<Entry>, platform: Option<string>, arch: Option<string>)
    ensures Filter(a + b, platform, arch) == Filter(a, platform, arch) + Filter(b, platform, arch)
    decreases |a|
  {
    if a == [] {
      assert a + b == b;
    } else {
      var g := Guard(Matches(platform, arch, a[0]), a[0]);
      assert (a + b)[0] == a[0] && (a + b)[1..] == a[1..] + b;
      assert Filter(a + b, platform, arch) == g + Filter(a[1..] + b, platform, arch);
      FilterAppend(a[1..], b, platform, arch);
      AppendAssoc(g, Filter(a[1..], platform, arch), Filter(b, platform, arch));
    }
  }
}
