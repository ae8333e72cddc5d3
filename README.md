# ffmpeg-static, modelled in Dafny

This project models the core of `@scrypted/ffmpeg-static`, a package that
puts one static `ffmpeg` executable per platform and architecture into an
`artifacts` directory. Two paths lead there:

* **The multi-platform downloader** (`src/download.ts`) uses a fixed table of
  five builds: darwin/x64 6.1, darwin/arm64 6.1.1, linux/x64 and linux/arm64
  "release", and win32/x64 6.1.1. Two optional command-line selectors filter
  the table. For each selected build the downloader fetches the archive into
  the `downloads` cache unless it is already there. It then extracts the
  executable: one zip entry for darwin and win32, a `tar` unpack plus a move
  for linux. The result is `artifacts/ffmpeg-<platform>-<arch><suffix>`.
  Before the builds run, the artifact directory is emptied.
* **The install hook** (`scripts/postinstall.js`, `src/postinstall.ts`)
  first checks `SKIP_INSTALL` and `SCRYPTED_FFMPEG_PATH` and may stop there.
  Otherwise it builds the GitHub release URL of the host's asset from the
  package's version and repository URL. It then downloads that single file
  straight to the artifact path for the host.

Modules, one per concern:

| file | module | models |
|---|---|---|
| `wrappers.dfy` | `Wrappers` | `Option`, for JavaScript `undefined` and default parameters |
| `paths.dfy` | `Paths` | `/`-joined paths, "is inside directory", the last path component |
| `js_strings.dfy` | `JsStrings` | `indexOf`, one-argument `substring`, `replace` with a string pattern, `split(sep)[0]` |
| `common.dfy` | `Common` | `src/common.ts`: the two directories and `getFfmpegPaths` |
| `download.dfy` | `Download` | `src/download.ts`: the build table, selection, the cache, extraction and `main` |
| `postinstall.dfy` | `Postinstall` | `src/postinstall.ts`: the release version, the URL and the install target |
| `install_guard.dfy` | `InstallGuard` | `scripts/postinstall.js`: the two environment guards |

The filesystem is the class `Download.FileSystem`. It has the set of files
that exist and a log of the `Fetch`, `Unzip` and `Untar` actions performed
so far. Each step of the downloader is a method that changes that object.
Each method is proved equal to a specification function over the selected
builds: `EntryActions`/`EntryFiles` for one build, `RunActions`/`RunFiles`
for a sequence of builds. Lemmas prove what those functions promise:
* only missing downloads are fetched;
* a second run fetches nothing;
* one artifact is produced per build, in table order;
* after a run the artifact directory holds exactly the selected builds' executables.

The package directory (`__dirname/..`) is the parameter `root`. The
artifact directory is `root/artifacts` and the download directory is
`root/downloads`.

## Model

| member | source | states |
|---|---|---|
| Download.StripDots | src/download.ts:9-11 | `replaceAll(version, '\\.', '')`: the version with every '.' dropped; its properties are the four lemmas below |
| Download.StripDotsRemovesDots | src/download.ts:9-11 | the result contains no '.' and is no longer than the input |
| Download.StripDotsKeepsOthers | src/download.ts:9-11 | every character other than '.' occurs as often in the result as in the input |
| Download.StripDotsAppend | src/download.ts:9-11 | dot removal distributes over concatenation, so the kept characters stay in order |
| Download.StripDotsKeepsDotFree | src/download.ts:9-11 | a version without dots is unchanged |
| Download.StripDotsOfTableVersions | src/download.ts:53 | "6.1" becomes "61" and "6.1.1" becomes "611" in the macOS URLs |
| Download.DownloadName | src/download.ts:39 | the cached archive's name `ffmpeg-<platform>-<arch>-<version><suffix>` |
| Download.DownloadPath | src/download.ts:38-40 | the download path lies in the download directory, and its name is `ffmpeg-<platform>-<arch>-<version><suffix>` |
| Download.MacX64 | src/download.ts:52-55 | the darwin/x64 build: osxexperts "intel.zip" URL, ".zip" download, zip entry "ffmpeg", no artifact suffix |
| Download.MacArm64 | src/download.ts:57-60 | the darwin/arm64 build: osxexperts "arm.zip" URL, ".zip" download, zip entry "ffmpeg", no artifact suffix |
| Download.LinuxX64 | src/download.ts:62-65 | the linux/x64 build: version defaulting to "release", amd64 static tarball, ".tar.xz" download, tar extraction |
| Download.LinuxArm64 | src/download.ts:67-70 | the linux/arm64 build: version defaulting to "release", arm64 static tarball, ".tar.xz" download, tar extraction |
| Download.WindowsX64 | src/download.ts:72-75 | the win32/x64 build: gyan.dev essentials zip, entry `ffmpeg-<version>-essentials_build/bin/ffmpeg.exe`, artifact suffix ".exe" |
| Download.Entry.Url | src/download.ts:53-73 | the archive URL of a build: osxexperts with the dot-free version, johnvansickle with the version, or gyan.dev with the version |
| Download.Matrix | src/download.ts:82-99 | the five builds `main` can run, with the versions it passes, in the order it runs them |
| Download.MatrixRows | src/download.ts:52-75 | five builds in the order darwin/x64, darwin/arm64, linux/x64, linux/arm64, win32/x64, with versions 6.1, 6.1.1, release, release, 6.1.1; zip unless linux; linux downloads end in ".tar.xz"; the entry name is `ffmpeg-<version>-essentials_build/bin/ffmpeg.exe` for win32 and "ffmpeg" otherwise; the artifact suffix is ".exe" only for win32 |
| Download.TableUrls | src/download.ts:53-98 | the macOS URLs carry the dot-free versions "61" (intel) and "611" (arm), the Linux URLs the default "release" build, and the Windows URL version "6.1.1" |
| Download.MatrixDistinct | src/download.ts:52-75 | the table has one build per (platform, arch) pair |
| Download.MatrixArtifactSuffixes | src/download.ts:52-75 | every build's artifact suffix is ".exe" for win32 and "" otherwise |
| Download.Selects | src/download.ts:82-97 | `!sel` or `sel === name`: an absent or empty selector admits every name, otherwise only an equal one |
| Download.Matches | src/download.ts:82-97 | a build runs when the platform selector admits its platform and the arch selector its arch |
| Download.Filter | src/download.ts:82-99 | the builds of a list matching both selectors, in list order; the lemmas below state its properties |
| Download.Selection | src/download.ts:82-99 | the table filtered by the two selectors |
| Download.FilterMembers | src/download.ts:82-99 | an entry is kept iff it is in the list and matches both selectors, and filtering never adds entries |
| Download.FilterKeepsAll | src/download.ts:82-99 | a list whose entries all match is kept whole, in order |
| Download.FilterKeepsDistinct | src/download.ts:82-99 | filtering keeps (platform, arch) pairs pairwise distinct |
| Download.HeadPairFresh | src/download.ts:82-99 | proof step: in a list with distinct pairs, the head's pair does not occur in the tail |
| Download.DistinctCons | src/download.ts:82-99 | proof step: a fresh pair in front of a list with distinct pairs keeps the pairs distinct |
| Download.FilterAppend | src/download.ts:82-99 | filtering distributes over concatenation |
| Download.FilterSingle | src/download.ts:83-98 | proof step: one guarded call runs iff its build matches both selectors |
| Download.SelectionIsFilter | src/download.ts:82-99 | a run processes exactly the table builds matching every given selector, each (platform, arch) once, at most five |
| Download.SelectionWithoutSelectors | src/download.ts:82-99 | with absent or empty selectors every build is processed, in table order |
| Download.SelectionExamples | src/download.ts:89-99 | ("linux","x64") selects only linux/x64, and ("win32","arm64") selects nothing |
| Download.MainBuilds | src/download.ts:82-99 | the builds `main`'s nested platform and arch conditions call, in call order |
| Download.MainBuildsAreSelection | src/download.ts:82-99 | the nested platform and arch conditions of `main` visit exactly the filtered table, in table order |
| Download.DarwinBlockIsFilter | src/download.ts:82-87 | the darwin block visits the darwin rows that match the selectors |
| Download.LinuxBlockIsFilter | src/download.ts:89-94 | the linux block visits the linux rows that match the selectors |
| Download.WindowsBlockIsFilter | src/download.ts:96-99 | the win32 block visits the win32 row iff it matches the selectors |
| Download.DistinctBuildsDistinctArtifacts | src/common.ts:9-10 | any two builds of the table for different (platform, arch) pairs get different artifact paths |
| Download.ArchInitialInjective | src/download.ts:52-75 | proof step: the table's architectures differ in their first letter |
| Download.DistinctBuildsDistinctDownloads | src/download.ts:39-40 | builds for different (platform, arch) pairs get different download paths |
| Download.DownloadNameDeterminesPair | src/download.ts:39 | a download name determines its platform and arch when neither contains '-' |
| Download.NamesDashFree | src/download.ts:52-75 | no platform or arch name of the table contains '-' |
| Download.PlatformNameInjective | src/download.ts:82-99 | different platforms have different `process.platform` names |
| Download.ArchNameInjective | src/download.ts:82-99 | different architectures have different `process.arch` names |
| Download.SelectionPathsDistinct | src/download.ts:82-99 | the builds of one run write pairwise-distinct artifacts and pairwise-distinct downloads, so there is one artifact per pair |
| Download.SelectedPathsDiffer | src/download.ts:82-99 | two selected builds for different pairs have different artifact paths and different download paths |
| Download.DownloadPathOf | src/download.ts:38-40 | the download path of a table build |
| Download.ArtifactOf | src/download.ts:14 | the artifact `getFfmpegPaths` names for a table build and its suffix |
| Download.ExtractAction | src/download.ts:13-36 | the extraction of a build: an unzip of its entry, or an untar into `<filename>.tmp` moved to the artifact path |
| Download.EntryActions | src/download.ts:38-75 | one build's actions: a fetch only when the download is missing, then its extraction |
| Download.EntryFiles | src/download.ts:38-75 | after one build, its download and its artifact exist as well |
| Download.RunActions | src/download.ts:82-99 | the actions of processing builds in order, each seeing the files left by the ones before |
| Download.RunFiles | src/download.ts:82-99 | the files that exist after processing builds in order |
| Download.ClearArtifacts | src/download.ts:79-80 | removing and re-creating the artifact directory drops exactly the files inside it |
| Download.RunSnoc | src/download.ts:82-99 | processing one more build appends that build's actions and files |
| Download.RunAppend | src/download.ts:82-99 | processing two lists one after the other is processing their concatenation |
| Download.Chain | src/download.ts:82-99 | proof step: two consecutive runs, as logged, make one run of the concatenated builds |
| Download.Advance | src/download.ts:83-98 | proof step: one more awaited per-build call extends the run by exactly that build |
| Download.GuardStep | src/download.ts:83-98 | proof step: a guarded call adds its build to the processed builds iff its condition holds |
| Download.RunFilesContents | src/download.ts:41-49 | a path exists after a run iff it existed at the start or is a processed build's download or artifact |
| Download.RunFetchesOnlyMissing | src/download.ts:41-49 | each fetch is from a processed build's URL to a download path that did not exist at the start |
| Download.RerunFetchesNothing | src/download.ts:41-42 | repeating a run fetches nothing, because every download is cached |
| Download.ExtractedAppend | src/download.ts:13-36 | the extracted files of two logs are those of each log, in order |
| Download.EntryExtracts | src/download.ts:13-36 | processing one build extracts exactly that build's artifact |
| Download.ArtifactPaths | src/download.ts:13-36 | one artifact path per build, in build order |
| Download.RunExtractsInOrder | src/download.ts:13-36 | the extractions of a run produce exactly the builds' artifact paths, one per build, in build order |
| Download.RunArtifacts | src/download.ts:79-99 | after the clean-out and the run, the artifact directory holds exactly the artifacts of the processed builds |
| Download.FileSystem.constructor | src/download.ts:41 | a filesystem with the given existing files and an empty log |
| Download.DownloadFile | src/download.ts:38-50 | returns the download path; if it exists nothing changes, otherwise one fetch from the URL into it is logged and the path exists |
| Download.UnzipFfmpeg | src/download.ts:13-22 | returns `getFfmpegPaths(platform, arch, suffix)`'s path (suffix default ""), logs one extraction of the entry to it, and the path exists |
| Download.UntarFfmpeg | src/download.ts:24-36 | returns `getFfmpegPaths(platform, arch, suffix)`'s path, logs one unpack into `<filename>.tmp` in the download directory moved to it, and the path exists |
| Download.DownloadMacX64 | src/download.ts:52-55 | performs exactly the darwin/x64 build's actions and returns its artifact path |
| Download.DownloadMacAppleArm64 | src/download.ts:57-60 | performs exactly the darwin/arm64 build's actions and returns its artifact path |
| Download.DownloadLinuxX64 | src/download.ts:62-65 | performs exactly the linux/x64 build's actions (version defaulting to "release") and returns its artifact path |
| Download.DownloadLinuxArm64 | src/download.ts:67-70 | performs exactly the linux/arm64 build's actions (version defaulting to "release") and returns its artifact path |
| Download.DownloadWindowsX64 | src/download.ts:72-75 | performs exactly the win32/x64 build's actions and returns its artifact path |
| Download.DownloadDarwinBuilds | src/download.ts:82-87 | runs the darwin builds that the arch selector admits, in order |
| Download.DownloadLinuxBuilds | src/download.ts:89-94 | runs the linux builds that the arch selector admits, in order |
| Download.DownloadWindowsBuilds | src/download.ts:96-99 | runs the win32 build if the arch selector admits it |
| Download.DownloadSelected | src/download.ts:77-100 | `main`: removes the artifact directory's files, then its log and files are those of running the selected builds in table order |
| Common.ArtifactDirectory | src/common.ts:5 | `artifacts` under the package root |
| Common.DownloadDirectory | src/common.ts:6 | `downloads` under the package root |
| Common.DefaultSuffix | src/common.ts:8 | the default suffix is ".exe" iff the platform is "win32", and "" iff it is not |
| Common.GetFfmpegPaths | src/common.ts:8-16 | the filename is `ffmpeg-<platform>-<arch><suffix>`, with an explicit suffix overriding the default, and the path is that filename directly inside the artifact directory |
| Common.ArtifactPathEndsWithFilename | src/common.ts:9-10 | the artifact path's last component is the filename |
| Common.FilenameDeterminesPlatform | src/common.ts:9 | two filenames are equal only for the same platform, and the same arch followed by the same suffix |
| Common.FilenameAfterPrefix | src/common.ts:9 | what follows "ffmpeg-" in an artifact name is `<platform>-<arch><suffix>` |
| Common.SplitAtFirstDash | src/download.ts:39 | a name built as `<dash-free part>-<rest>` determines both parts |
| Paths.Join | src/common.ts:10 | `path.join(dir, name)` for a plain name: the two joined by one '/' |
| Paths.BaseName | src/common.ts:10 | the last path component has no separator, is a suffix of the path, and is preceded by a separator unless it is the whole path |
| Paths.JoinIsUnder | src/common.ts:10 | `path.join(dir, name)` lies inside `dir`, and `name` follows it |
| Paths.BaseNameOfJoin | src/common.ts:10 | joining a separator-free name makes it the last component |
| Paths.JoinInjective | src/common.ts:10 | joining under one directory is injective |
| Paths.JoinAfterPrefix | src/postinstall.ts:10 | text put in front of a joined path joins under the longer directory |
| Paths.SepBeforeBaseName | src/postinstall.ts:12 | every separator of a path comes before its last component |
| Paths.BaseNameOfSuffix | src/postinstall.ts:12 | dropping a prefix that ends before the last component keeps that component |
| Paths.SiblingsDisjoint | src/common.ts:5-6 | nothing lies inside both the `downloads` and the `artifacts` directory |
| JsStrings.IndexFrom | src/postinstall.ts:12 | the result is -1 or an occurrence at or after the start, with no earlier occurrence from the start |
| JsStrings.IndexOf | src/postinstall.ts:12 | -1 iff the pattern does not occur; otherwise the first occurrence |
| JsStrings.Substring | src/postinstall.ts:12 | a negative start keeps the whole string, an in-range start drops that many characters, and a start past the end gives "" |
| JsStrings.ReplaceFirst | src/postinstall.ts:10 | without an occurrence the string is unchanged; otherwise only the first occurrence is replaced and everything else is kept |
| JsStrings.FirstField | src/postinstall.ts:7 | the first field is a dash-free prefix followed by the separator, or the whole string |
| JsStrings.IndexOfExtend | src/postinstall.ts:10-12 | text appended after the first occurrence does not move it |
| JsStrings.SubstringAtFirstExtend | src/postinstall.ts:10-12 | cutting at the first occurrence commutes with appending text after it |
| Postinstall.ReleaseVersion | src/postinstall.ts:7 | the version before the first '-': contains no '-', is a prefix, equals the version when there is no '-', and is followed by '-' otherwise |
| Postinstall.AssetName | src/postinstall.ts:10 | the release asset `ffmpeg-<platform>-<arch>`, plus ".exe" on win32 |
| Postinstall.RepositoryBase | src/postinstall.ts:10 | the repository URL with its first ".git" removed |
| Postinstall.ReleaseTag | src/postinstall.ts:10 | `/releases/download/v<version>` with the version cut at its first '-' |
| Postinstall.ReleasePath | src/postinstall.ts:10 | the release tag and the asset name joined by '/' |
| Postinstall.UntrimmedUrl | src/postinstall.ts:10 | the repository base followed by the release path, before trimming |
| Postinstall.TrimToHttps | src/postinstall.ts:12 | without "https://" the URL is unchanged; otherwise the result is the URL from its first "https://" on |
| Postinstall.ReleaseUrl | src/postinstall.ts:10-12 | the untrimmed URL cut at its first "https://" |
| Postinstall.InstallPlan | src/postinstall.ts:15-21 | the download is from the release URL, straight to the asset name joined under the artifact directory, a path inside that directory |
| Postinstall.InstallerMatchesDownloader | src/postinstall.ts:15-20 | for every table build's host, the installer writes the same artifact path as the downloader |
| Postinstall.AssetIsArtifactName | src/postinstall.ts:10-15 | the asset name is `ffmpeg-<platform>-<arch>`, plus ".exe" iff win32, and equals the default `getFfmpegPaths()` filename |
| Postinstall.ReleaseUrlShape | src/postinstall.ts:10-12 | when the repository URL contains "https://", the URL starts there and ends with `/releases/download/v<version>/<asset>` |
| Postinstall.ReleaseUrlWithoutHttps | src/postinstall.ts:12 | without "https://" the URL is used as built, because `substring(-1)` keeps it whole |
| Postinstall.AssetIsOneComponent | src/postinstall.ts:10 | for separator-free platform and arch names, the asset name contains no '/' |
| Postinstall.UntrimmedUrlEndsWithAsset | src/postinstall.ts:10 | the built URL's last component is the asset name |
| Postinstall.TrimKeepsBaseName | src/postinstall.ts:12 | trimming to "https://" never cuts into the last component |
| Postinstall.UrlAndTargetShareName | src/postinstall.ts:10-15 | the URL's last component is the asset name, which is also the install target's last component |
| Postinstall.OnlyFirstGitRemoved | src/postinstall.ts:10 | only the first ".git" is removed: "a.git.git" becomes "a.git" |
| Postinstall.GitInsideNameRemoved | src/postinstall.ts:10 | the first ".git" is removed even inside a name: "a.github.git" becomes "ahub.git" |
| InstallGuard.Truthy | scripts/postinstall.js:1-7 | a variable is truthy when it is set to a non-empty string |
| InstallGuard.Decide | scripts/postinstall.js:1-12 | proceeds iff SKIP_INSTALL is not truthy and SCRYPTED_FFMPEG_PATH is not a truthy name of an existing file; a truthy SKIP_INSTALL always gives the SKIP_INSTALL reason |
| InstallGuard.Outcome | scripts/postinstall.js:12 | the installer's single download happens iff the hook proceeds |
| InstallGuard.MissingExternalFfmpegInstalls | scripts/postinstall.js:7-12 | SCRYPTED_FFMPEG_PATH naming a missing file does not stop the install |
| InstallGuard.EmptyMeansUnset | scripts/postinstall.js:1-10 | an empty value behaves as an unset variable, for both variables |
| InstallGuard.OtherVariablesIgnored | scripts/postinstall.js:1-12 | no variable other than the two exact names affects the decision |
| InstallGuard.CleanEnvironmentInstalls | scripts/postinstall.js:12 | with neither variable set, the install always happens |

## Left out

- The HTTPS transfer of `downloadFileCommon` (src/common.ts:18-33) is a `Fetch` action after which the path exists. Streaming, close events, transport errors and the `unlink` on error are not modelled.
- Zip extraction by the adm-zip library is an `Unzip` action naming the entry and the target. The archive's contents are not modelled.
- Tar extraction is an `Untar` action naming the archive, the `.tmp` directory and the target. The spawned process, its ignored exit code, the unawaited `mkdir` and the `rename` are not modelled. The temporary directory's contents are not tracked as files.
- Directory creation (`mkdir` in `main` and `install`) is not modelled. Removing the artifact directory is modelled as dropping every file inside it.
- `path.join` normalisation is not modelled; a join is `dir + "/" + name`. `__dirname` resolution is the `root` parameter.
- Download.DownloadFile: the suffix is always passed explicitly. The default `path.extname(url)` is not computed; the table stores the ".zip" it yields for the three zip URLs.
- Download.StripDotsRemovesDots: models `replaceAll(s, '\\.', '')` only for this pattern. General regular expressions are not modelled.
- Reading `package.json`, `process.argv`, `process.platform`, `process.arch` and the environment: their values are parameters (`PackageJson`, the selectors, `Host`, `env`).
- `console.log` output and the exit code 0 of `process.exit` are not modelled. `require('../dist/postinstall')` is `InstallGuard.Outcome` returning the installer's plan.
- `async`/`await` is modelled as sequential execution, since every call is awaited in order. The floating `install()` promise and the unhandled rejections are not modelled.
- The installer's single download is a plan (URL and target), not a state change on a filesystem. The downloader's `Fetch` action models the same transfer.
- InstallGuard.Decide: environment names are matched exactly. On Windows `process.env` looks names up case-insensitively, so `skip_install` also skips there; that lookup is not modelled, and InstallGuard.OtherVariablesIgnored holds only for exact-name lookup.
