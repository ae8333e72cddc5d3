/**
 * The package's install hook: it skips the binary download when the
 * environment asks for that, and otherwise hands over to the installer.
 */
module InstallGuard {
  import opened Wrappers
  import opened Common
  import opened Postinstall

  /** Why the hook stopped before installing. */
  datatype SkipReason = SkipInstallSet | ExternalFfmpegPresent

  /** The hook's verdict: stop with exit code 0, or go on to the installer. */
  datatype Decision = Skip(reason: SkipReason) | Proceed

  const SkipInstall: string := "SKIP_INSTALL"
  const ScryptedFfmpegPath: string := "SCRYPTED_FFMPEG_PATH"

  /** A JavaScript environment variable is truthy when it is set to a non-empty string. */
  predicate Truthy(env: map<string, string>, name: string) {
    name in env && env[name] != ""
  }

  /**
   * The hook's decision for an environment and the set of files that exist:
   * SKIP_INSTALL wins, then an existing file named by SCRYPTED_FFMPEG_PATH.
   */
  function Decide(env: map<string, string>, existing: set<string>): (d: Decision)
    ensures d == Proceed <==>
      !Truthy(env, SkipInstall) && !(Truthy(env, ScryptedFfmpegPath) && env[ScryptedFfmpegPath] in existing)
    ensures Truthy(env, SkipInstall) ==> d == Skip(SkipInstallSet)
    ensures d == Skip(ExternalFfmpegPresent) ==> env[ScryptedFfmpegPath] in existing
  {
    if Truthy(env, SkipInstall) then Skip(SkipInstallSet)
    else if Truthy(env, ScryptedFfmpegPath) && env[ScryptedFfmpegPath] in existing then Skip(ExternalFfmpegPresent)
    else Proceed
  }

  /** What running the hook does: nothing, or the installer's single download. */
  function Outcome(env: map<string, string>, existing: set<string>, root: string, pkg: PackageJson, host: Host)
    : (o: Option<Install>)
    ensures o.Some? <==> Decide(env, existing) == Proceed
    ensures o.Some? ==> o.value == InstallPlan(root, pkg, host)
  {
    if Decide(env, existing) == Proceed then Some(InstallPlan(root, pkg, host)) else None
  }

  /** SCRYPTED_FFMPEG_PATH naming a file that does not exist does not stop the install. */
  lemma MissingExternalFfmpegInstalls(env: map<string, string>, existing: set<string>)
    requires !Truthy(env, SkipInstall)
    requires ScryptedFfmpegPath in env && env[ScryptedFfmpegPath] !in existing
    ensures Decide(env, existing) == Proceed
  {
  }

  /** An empty variable behaves exactly as an unset one, for both variables the hook reads. */
  lemma EmptyMeansUnset(env: map<string, string>, existing: set<string>, name: string)
    requires name == SkipInstall || name == ScryptedFfmpegPath
    ensures Decide(env[name := ""], existing) == Decide(env - {name}, existing)
  {
  }

  /** Variables other than the two the hook reads do not affect its decision. */
  lemma OtherVariablesIgnored(env: map<string, string>, existing: set<string>, name: string, value: string)
    requires name != SkipInstall && name != ScryptedFfmpegPath
    ensures Decide(env[name := value], existing) == Decide(env, existing)
  {
  }

  /** An empty environment always installs, whatever files exist. */
  lemma CleanEnvironmentInstalls(existing: set<string>, root: string, pkg: PackageJson, host: Host)
    ensures Outcome(map[], existing, root, pkg, host) == Some(InstallPlan(root, pkg, host))
  {
  }
}
