/**
 * The install-time entry point: it derives the release-asset URL from the
 * package's own version and repository URL and downloads that single
 * executable straight to the artifact path of the running host.
 */
module Postinstall {
  import opened Wrappers
  import opened Paths
  import opened JsStrings
  import opened Common
  import Download

  /** The two fields of the package's own metadata that are read. */
  datatype PackageJson = PackageJson(version: string, repositoryUrl: string)

  /** What the installer does: one fetch of `url` into `ffmpegPath`. */
  datatype Install = Install(url: string, ffmpegPath: string)

  /** `version.split('-')[0]`: the version without its pre-release part. */
  function ReleaseVersion(version: string): (v: string)
    ensures '-' !in v
    ensures v <= version
    ensures '-' !in version ==> v == version
    ensures |v| < |version| ==> version[|v|] == '-'
  {
    FirstField(version, '-')
  }

  /** The release asset's file name for a host. */
  function AssetName(platform: string, arch: string): string {
    "ffmpeg-" + platform + "-" + arch + (if platform == "win32" then ".exe" else "")
  }

  /** The repository URL with its first ".git" removed. */
  function RepositoryBase(repositoryUrl: string): string {
    ReplaceFirst(repositoryUrl, ".git", "")
  }

  /** The release's path below the repository URL. */
  function ReleaseTag(version: string): string {
    "/releases/download/v" + ReleaseVersion(version)
  }

  /** The path of the release asset below the repository URL. */
  function ReleasePath(version: string, host: Host): string {
    Join(ReleaseTag(version), AssetName(host.platform, host.arch))
  }

  /** The release-asset URL before it is trimmed to start at "https://". */
  function UntrimmedUrl(pkg: PackageJson, host: Host): string {
    RepositoryBase(pkg.repositoryUrl) + ReleasePath(pkg.version, host)
  }

  /** `url.substring(url.indexOf('https://'))`: drop everything before the first "https://". */
  function TrimToHttps(url: string): (r: string)
    ensures IndexOf(url, "https://") == -1 ==> r == url
    ensures IndexOf(url, "https://") != -1 ==>
      url == url[..IndexOf(url, "https://")] + r && r[..8] == "https://"
  {
    Substring(url, IndexOf(url, "https://"))
  }

  /** The URL the installer downloads from. */
  function ReleaseUrl(pkg: PackageJson, host: Host): string {
    TrimToHttps(UntrimmedUrl(pkg, host))
  }

  /** The whole of `install()`: fetch the release asset straight to the host's artifact path. */
  function InstallPlan(root: string, pkg: PackageJson, host: Host): (i: Install)
    ensures i.url == ReleaseUrl(pkg, host)
    ensures i.ffmpegPath == Join(ArtifactDirectory(root), AssetName(host.platform, host.arch))
    ensures IsUnder(ArtifactDirectory(root), i.ffmpegPath)
  {
    Install(ReleaseUrl(pkg, host), GetFfmpegPaths(root, host.platform, host.arch, None).ffmpegPath)
  }

  /** The installer and the downloader put a host's executable in the same place. */
  lemma InstallerMatchesDownloader(root: string, pkg: PackageJson, e: Download.Entry)
    requires e in Download.Matrix()
    ensures InstallPlan(root, pkg, Host(e.platform.Name(), e.arch.Name())).ffmpegPath
      == Download.ArtifactOf(root, e).ffmpegPath
  {
    Download.MatrixArtifactSuffixes();
  }

  /** The asset fetched is the artifact `getFfmpegPaths()` names for the same host. */
  lemma AssetIsArtifactName(root: string, host: Host)
    ensures AssetName(host.platform, host.arch) == GetFfmpegPaths(root, host.platform, host.arch, None).filename
    ensures AssetName(host.platform, host.arch) ==
      "ffmpeg-" + host.platform + "-" + host.arch + (if host.platform == "win32" then ".exe" else "")
  {
  }

  /**
   * When the repository URL (after the ".git" removal) contains "https://",
   * the download URL starts at its first "https://" and ends with the release
   * path and asset name, whatever prefix such as "git+" came before.
   */
  lemma ReleaseUrlShape(pkg: PackageJson, host: Host)
    requires IndexOf(RepositoryBase(pkg.repositoryUrl), "https://") != -1
    ensures var base := RepositoryBase(pkg.repositoryUrl);
      ReleaseUrl(pkg, host) == base[IndexOf(base, "https://")..] + ReleasePath(pkg.version, host)
    ensures ReleaseUrl(pkg, host)[..8] == "https://"
  {
    SubstringAtFirstExtend(RepositoryBase(pkg.repositoryUrl), ReleasePath(pkg.version, host), "https://");
  }

  /** Without any "https://" the URL is used as built: `substring(-1)` keeps the whole string. */
  lemma ReleaseUrlWithoutHttps(pkg: PackageJson, host: Host)
    requires IndexOf(UntrimmedUrl(pkg, host), "https://") == -1
    ensures ReleaseUrl(pkg, host) == UntrimmedUrl(pkg, host)
  {
  }

  /** A host whose platform and arch contain no '/' gets an asset name without one. */
  lemma AssetIsOneComponent(host: Host)
    requires Sep !in host.platform && Sep !in host.arch
    ensures Sep !in AssetName(host.platform, host.arch)
  {
    var sfx := if host.platform == "win32" then ".exe" else "";
    forall c | c in AssetName(host.platform, host.arch)
      ensures c != Sep
    {
      assert c in "ffmpeg-" || c in host.platform || c in "-" || c in host.arch || c in sfx;
    }
  }

  /** The last component of the untrimmed URL is the asset name. */
  lemma UntrimmedUrlEndsWithAsset(pkg: PackageJson, host: Host)
    requires Sep !in host.platform && Sep !in host.arch
    ensures BaseName(UntrimmedUrl(pkg, host)) == AssetName(host.platform, host.arch)
  {
    var asset := AssetName(host.platform, host.arch);
    var base := RepositoryBase(pkg.repositoryUrl);
    JoinAfterPrefix(base, ReleaseTag(pkg.version), asset);
    AssetIsOneComponent(host);
    BaseNameOfJoin(base + ReleaseTag(pkg.version), asset);
  }

  /** Trimming to the first "https://" never cuts into the last component, which follows its "//". */
  lemma TrimKeepsBaseName(u: string)
    ensures BaseName(TrimToHttps(u)) == BaseName(u)
  {
    var i := IndexOf(u, "https://");
    if i != -1 {
      assert i + 8 <= |u| && u[i..i + 8] == "https://";
      assert u[i + 6] == u[i..i + 8][6] == Sep;
      SepBeforeBaseName(u, i + 6);
      BaseNameOfSuffix(u, i);
    }
  }

  /** The URL's last component is the installed file's name (when platform and arch contain no '/'). */
  lemma UrlAndTargetShareName(root: string, pkg: PackageJson, host: Host)
    requires Sep !in host.platform && Sep !in host.arch
    ensures BaseName(ReleaseUrl(pkg, host)) == AssetName(host.platform, host.arch)
    ensures BaseName(ReleaseUrl(pkg, host)) == BaseName(InstallPlan(root, pkg, host).ffmpegPath)
  {
    UntrimmedUrlEndsWithAsset(pkg, host);
    TrimKeepsBaseName(UntrimmedUrl(pkg, host));
    AssetIsOneComponent(host);
    AssetIsArtifactName(root, host);
    ArtifactPathEndsWithFilename(root, host.platform, host.arch, None);
  }

  /** `String.replace` with a string pattern removes only the first ".git". */
  lemma OnlyFirstGitRemoved()
    ensures RepositoryBase("a.git.git") == "a.git"
  {
    var s := "a.git.git";
    assert OccursAt(s, ".git", 1);
    assert s[0..4][0] == 'a';
    assert s[..1] == "a" && s[5..] == ".git";
  }

  /** The first ".git" is removed even when it is inside a host or owner name rather than the suffix. */
  lemma GitInsideNameRemoved()
    ensures RepositoryBase("a.github.git") == "ahub.git"
  {
    var t := "a.github.git";
    assert OccursAt(t, ".git", 1);
    assert t[0..4][0] == 'a' && !OccursAt(t, ".git", 0);
    assert IndexOf(t, ".git") == 1;
    assert t[..1] == "a" && t[5..] == "hub.git";
  }
}
