/** What `open_browser` prepares before it starts the Node script: the Chrome
    binary, the data directory, the key to pass on, the script itself (first
    among the bundled resource locations, then among development locations),
    and the configuration file written with the current settings.

    Whether a file exists outside the app's own files is the `Present`
    oracle; `current_exe()` and `current_dir()` arrive as parameters, `None`
    when they fail (the code then uses "."). */
module Launch {
  import opened Wrappers
  import opened Paths
  import opened Chrome
  import opened Typing
  import opened Settings
  import Grok

  const ScriptName := "puppeteer-node.cjs"
  /** The script's place in the source tree, `src/main/utils`. */
  const ScriptDir: Path := ["src", "main", "utils"]

  /** A root component: "/" or a Windows drive such as "C:\". */
  predicate IsRoot(c: string)
  {
    c == "/" || (|c| == 3 && c[1] == ':' && c[2] == '\\')
  }

  /** `Path::parent`: `None` for the empty path and for a root alone; a
      one-component relative path has the empty path as parent. */
  function Parent(p: Path): (r: Option<Path>)
    ensures r.Some? ==> |r.value| == |p| - 1 && r.value == p[..|p| - 1]
    ensures r.None? <==> p == [] || (|p| == 1 && IsRoot(p[0]))
  {
    if p == [] || (|p| == 1 && IsRoot(p[0])) then None else Some(p[..|p| - 1])
  }

  /** `current_exe()` or `current_dir()`, falling back to ".". */
  function OrDot(p: Option<Path>): Path
  {
    if p.Some? then p.value else ["."]
  }

  /** The resource candidates for an executable directory, given where the
      macOS bundle's `Resources` directory is taken to be. */
  function ResourceCandidatesWith(os: Os, exeDir: Path, resources: Option<Path>): (c: seq<Path>)
    ensures |c| >= 2 && c[0] == exeDir + [ScriptName] && c[1] == exeDir + ["resources", ScriptName]
    ensures os != MacOs ==> c == [c[0], c[1], exeDir + ["resources", "_up_"] + ScriptDir + [ScriptName]]
    ensures os == MacOs && resources.None? ==> |c| == 2
    ensures os == MacOs && resources.Some? ==>
      c == [c[0], c[1], resources.value + [ScriptName], resources.value + ["_up_"] + ScriptDir + [ScriptName]]
  {
    var both := [exeDir + [ScriptName], exeDir + ["resources", ScriptName]];
    if os == MacOs then
      if resources.None? then both
      else both + [resources.value + [ScriptName], resources.value + ["_up_"] + ScriptDir + [ScriptName]]
    else both + [exeDir + ["resources", "_up_"] + ScriptDir + [ScriptName]]
  }

  /** As written: `exe_dir.parent().parent().parent()` joined with
      `Resources`. */
  function ThreeUpResources(exeDir: Path): Option<Path>
  {
    match Parent(exeDir)
    case None => None
    case Some(p1) =>
      match Parent(p1)
      case None => None
      case Some(p2) =>
        match Parent(p2)
        case None => None
        case Some(p3) => Some(p3 + ["Resources"])
  }

  /** The bundle's `Contents/Resources`, the sibling of the executable's
      directory `Contents/MacOS`. */
  function BundleResources(exeDir: Path): Option<Path>
  {
    match Parent(exeDir)
    case None => None
    case Some(contents) => Some(contents + ["Resources"])
  }

  /** For an executable in `<bundle>.app/Contents/MacOS`, the corrected
      candidates look in `<bundle>.app/Contents/Resources`. */
  lemma BundleResourcesInsideBundle(bundle: Path)
    requires bundle != []
    ensures BundleResources(bundle + ["Contents", "MacOS"]) == Some(bundle + ["Contents", "Resources"])
  {
    var exeDir := bundle + ["Contents", "MacOS"];
    assert exeDir[..|exeDir| - 1] == bundle + ["Contents"];
    assert Parent(exeDir) == Some(bundle + ["Contents"]);
    assert bundle + ["Contents"] + ["Resources"] == bundle + ["Contents", "Resources"];
  }

  /** As written, the macOS candidates look in a `Resources` directory next
      to the bundle, outside it: for `/Applications/TypeWinner.app` that is
      `/Applications/Resources`. */
  lemma ThreeUpLeavesBundle(bundle: Path)
    requires |bundle| >= 2 && bundle[|bundle| - 1] != "Resources"
    ensures var exeDir := bundle + ["Contents", "MacOS"];
      ThreeUpResources(exeDir) == Some(bundle[..|bundle| - 1] + ["Resources"]) &&
      !(bundle <= ThreeUpResources(exeDir).value)
  {
    var exeDir := bundle + ["Contents", "MacOS"];
    assert exeDir[..|exeDir| - 1] == bundle + ["Contents"];
    assert Parent(exeDir) == Some(bundle + ["Contents"]);
    assert (bundle + ["Contents"])[..|bundle|] == bundle;
    assert Parent(bundle + ["Contents"]) == Some(bundle);
    assert Parent(bundle) == Some(bundle[..|bundle| - 1]);
    var r := bundle[..|bundle| - 1] + ["Resources"];
    assert r[|bundle| - 1] != bundle[|bundle| - 1];
  }

  /** The bundle installed as `/Applications/TypeWinner.app`. */
  lemma ThreeUpExample()
    ensures ThreeUpResources(["/", "Applications", "TypeWinner.app", "Contents", "MacOS"]) == Some(["/", "Applications", "Resources"])
    ensures BundleResources(["/", "Applications", "TypeWinner.app", "Contents", "MacOS"]) ==
      Some(["/", "Applications", "TypeWinner.app", "Contents", "Resources"])
  {
    var bundle: Path := ["/", "Applications", "TypeWinner.app"];
    assert bundle + ["Contents", "MacOS"] == ["/", "Applications", "TypeWinner.app", "Contents", "MacOS"];
    ThreeUpLeavesBundle(bundle);
    assert bundle[..2] + ["Resources"] == ["/", "Applications", "Resources"];
    BundleResourcesInsideBundle(bundle);
    assert bundle + ["Contents", "Resources"] == ["/", "Applications", "TypeWinner.app", "Contents", "Resources"];
  }

  /** The resource candidates as the code lists them. */
  function ResourceCandidatesAsWritten(os: Os, exeDir: Path): seq<Path>
  {
    ResourceCandidatesWith(os, exeDir, ThreeUpResources(exeDir))
  }

  /** The resource candidates with the bundle's own `Resources` directory. */
  function ResourceCandidates(os: Os, exeDir: Path): seq<Path>
  {
    ResourceCandidatesWith(os, exeDir, BundleResources(exeDir))
  }

  /** Off macOS the correction changes nothing; on macOS only the two
      bundle candidates move. */
  lemma CorrectionOnlyMovesBundleCandidates(os: Os, exeDir: Path)
    ensures os != MacOs ==> ResourceCandidates(os, exeDir) == ResourceCandidatesAsWritten(os, exeDir)
    ensures ResourceCandidates(os, exeDir)[..2] == ResourceCandidatesAsWritten(os, exeDir)[..2]
  {
  }

  /** The development candidates for a working directory. */
  function DevCandidates(cwd: Path): (c: seq<Path>)
    ensures |c| == 4 && |c[0]| == |cwd| + 4 && |c[1]| == |cwd| + 5 && |c[2]| == 4 && |c[3]| == 5
    ensures c[1][|cwd|] == ".." && c[2][0] == "src" && c[3][0] == ".."
  {
    [cwd + ScriptDir + [ScriptName],
     cwd + [".."] + ScriptDir + [ScriptName],
     ScriptDir + [ScriptName],
     [".."] + ScriptDir + [ScriptName]]
  }

  /** Why `open_browser` gave up.  The not-found message lists the two
      directories it searched. */
  datatype LaunchError = Failed(message: string) | ScriptNotFound(exeDir: Option<Path>, cwd: Path)

  /** Which macOS `Resources` directory the search takes: `ThreeUp`, the one
      the code builds, or `InBundle`, the bundle's own. */
  datatype MacResources = ThreeUp | InBundle

  /** The resource candidates under the chosen macOS directory. */
  function CandidatesFor(mac: MacResources, os: Os, exeDir: Path): seq<Path>
  {
    if mac == ThreeUp then ResourceCandidatesAsWritten(os, exeDir) else ResourceCandidates(os, exeDir)
  }

  /** The script search: the first existing resource candidate, else the
      first existing development candidate. */
  function FindScript(mac: MacResources, os: Os, exe: Option<Path>, cwd: Option<Path>, present: Present)
    : (r: Result<Path, LaunchError>)
    ensures r.Ok? ==> present(r.value)
    ensures Parent(OrDot(exe)).Some? && FirstExisting(CandidatesFor(mac, os, Parent(OrDot(exe)).value), present).Some? ==>
      r == Ok(FirstExisting(CandidatesFor(mac, os, Parent(OrDot(exe)).value), present).value)
    ensures (Parent(OrDot(exe)).None? || FirstExisting(CandidatesFor(mac, os, Parent(OrDot(exe)).value), present).None?) ==>
      r == match FirstExisting(DevCandidates(OrDot(cwd)), present)
           case Some(p) => Ok(p)
           case None => Err(ScriptNotFound(Parent(OrDot(exe)), OrDot(cwd)))
  {
    var exeDir := Parent(OrDot(exe));
    var resource := if exeDir.Some? then FirstExisting(CandidatesFor(mac, os, exeDir.value), present) else None;
    if resource.Some? then Ok(resource.value)
    else
      match FirstExisting(DevCandidates(OrDot(cwd)), present)
      case Some(p) => Ok(p)
      case None => Err(ScriptNotFound(exeDir, OrDot(cwd)))
  }

  /** The search fails exactly when no candidate of either list exists, and
      a found script is one of the candidates. */
  lemma FindScriptFailsOnlyWhenNothingExists(mac: MacResources, os: Os, exe: Option<Path>, cwd: Option<Path>, present: Present)
    ensures var res := if Parent(OrDot(exe)).Some? then CandidatesFor(mac, os, Parent(OrDot(exe)).value) else [];
      FindScript(mac, os, exe, cwd, present).Err? <==>
        (forall i :: 0 <= i < |res| ==> !present(res[i])) &&
        (forall i :: 0 <= i < |DevCandidates(OrDot(cwd))| ==> !present(DevCandidates(OrDot(cwd))[i]))
    ensures var res := if Parent(OrDot(exe)).Some? then CandidatesFor(mac, os, Parent(OrDot(exe)).value) else [];
      FindScript(mac, os, exe, cwd, present).Ok? ==> FindScript(mac, os, exe, cwd, present).value in res + DevCandidates(OrDot(cwd))
  {
    var exeDir := Parent(OrDot(exe));
    var res := if exeDir.Some? then CandidatesFor(mac, os, exeDir.value) else [];
    var dev := DevCandidates(OrDot(cwd));
    var r := FindScript(mac, os, exe, cwd, present);
    if r.Ok? {
      if exeDir.Some? && FirstExisting(res, present).Some? {
        assert r.value in res;
      } else {
        assert r.value in dev;
      }
    }
  }

  /** The installed app's executable, `/Applications/TypeWinner.app`. */
  const InstalledExe: Path := ["/", "Applications", "TypeWinner.app", "Contents", "MacOS", "TypeWinner"]
  /** The script beside the bundle, where the code as written looks. */
  const BesideBundle: Path := ["/", "Applications", "Resources", ScriptName]
  /** The script in the bundle's own `Contents/Resources`. */
  const InsideBundle: Path := ["/", "Applications", "TypeWinner.app", "Contents", "Resources", ScriptName]

  /** The installed executable's directory is `Contents/MacOS`. */
  lemma InstalledExeDir()
    ensures Parent(OrDot(Some(InstalledExe))) == Some(["/", "Applications", "TypeWinner.app", "Contents", "MacOS"])
  {
    assert InstalledExe[..|InstalledExe| - 1] == ["/", "Applications", "TypeWinner.app", "Contents", "MacOS"];
  }

  /** Started from "/", no development candidate is either script. */
  lemma DevMissesBoth(present: Present)
    requires forall p :: present(p) ==> p == BesideBundle || p == InsideBundle
    ensures FirstExisting(DevCandidates(OrDot(Some(["/"]))), present).None?
  {
    var dev := DevCandidates(OrDot(Some(["/"])));
    assert dev[1] != InsideBundle by { assert dev[1][1] == ".."; }
    assert dev[2] != BesideBundle by { assert dev[2][0] == "src"; }
    assert !present(dev[0]) && !present(dev[1]) && !present(dev[2]) && !present(dev[3]);
  }

  /** As written, a script beside the bundle is found. */
  lemma AsWrittenFindsBeside(present: Present)
    requires forall p :: present(p) <==> p == BesideBundle
    ensures FindScript(ThreeUp, MacOs, Some(InstalledExe), Some(["/"]), present) == Ok(BesideBundle)
  {
    InstalledExeDir();
    ThreeUpExample();
    var asWritten := ResourceCandidatesAsWritten(MacOs, ["/", "Applications", "TypeWinner.app", "Contents", "MacOS"]);
    assert asWritten[2] == BesideBundle;
    assert |asWritten[0]| == 6 && |asWritten[1]| == 7;
  }

  /** Corrected, a script beside the bundle is not found. */
  lemma CorrectedMissesBeside(present: Present)
    requires forall p :: present(p) <==> p == BesideBundle
    ensures FindScript(InBundle, MacOs, Some(InstalledExe), Some(["/"]), present).Err?
  {
    InstalledExeDir();
    var corrected := ResourceCandidates(MacOs, ["/", "Applications", "TypeWinner.app", "Contents", "MacOS"]);
    assert |corrected| == 4 && |corrected[0]| == 6 && |corrected[1]| == 7 && |corrected[2]| == 6 && |corrected[3]| == 10;
    assert FirstExisting(corrected, present).None?;
    DevMissesBoth(present);
  }

  /** Corrected, a script inside the bundle is found. */
  lemma CorrectedFindsInside(present: Present)
    requires forall p :: present(p) <==> p == InsideBundle
    ensures FindScript(InBundle, MacOs, Some(InstalledExe), Some(["/"]), present) == Ok(InsideBundle)
  {
    InstalledExeDir();
    BundleResourcesInsideBundle(["/", "Applications", "TypeWinner.app"]);
    var corrected := ResourceCandidates(MacOs, ["/", "Applications", "TypeWinner.app", "Contents", "MacOS"]);
    assert corrected[2] == InsideBundle;
    assert corrected[0] != InsideBundle by { assert corrected[0][4] == "MacOS"; }
    assert |corrected[1]| == 7;
  }

  /** As written, a script inside the bundle is not found. */
  lemma AsWrittenMissesInside(present: Present)
    requires forall p :: present(p) <==> p == InsideBundle
    ensures FindScript(ThreeUp, MacOs, Some(InstalledExe), Some(["/"]), present).Err?
  {
    InstalledExeDir();
    ThreeUpExample();
    var asWritten := ResourceCandidatesAsWritten(MacOs, ["/", "Applications", "TypeWinner.app", "Contents", "MacOS"]);
    assert |asWritten| == 4 && asWritten[2] == BesideBundle;
    assert asWritten[0] != InsideBundle by { assert asWritten[0][4] == "MacOS"; }
    assert |asWritten[1]| == 7 && |asWritten[3]| == 8;
    assert FirstExisting(asWritten, present).None?;
    DevMissesBoth(present);
  }

  /** The installed app started from "/", with only a script beside the
      bundle in `/Applications/Resources`: the search as written finds it,
      the corrected search fails. */
  lemma FindScriptInstalledExample(present: Present)
    requires forall p :: present(p) <==> p == BesideBundle
    ensures FindScript(ThreeUp, MacOs, Some(InstalledExe), Some(["/"]), present) == Ok(BesideBundle)
    ensures FindScript(InBundle, MacOs, Some(InstalledExe), Some(["/"]), present).Err?
  {
    AsWrittenFindsBeside(present);
    CorrectedMissesBeside(present);
  }

  /** The installed app started from "/", with only a script in the bundle's
      own `Contents/Resources`: the corrected search finds it, the search as
      written fails. */
  lemma FindScriptInBundleExample(present: Present)
    requires forall p :: present(p) <==> p == InsideBundle
    ensures FindScript(InBundle, MacOs, Some(InstalledExe), Some(["/"]), present) == Ok(InsideBundle)
    ensures FindScript(ThreeUp, MacOs, Some(InstalledExe), Some(["/"]), present).Err?
  {
    CorrectedFindsInside(present);
    AsWrittenMissesInside(present);
  }

  /** What `open_browser` has gathered before writing the configuration. */
  datatype Prepared = Prepared(chrome: Path, dataDir: Path, keyPath: Path, apiKey: Option<string>, script: Path)

  /** The steps of `open_browser` up to the script search, in the order the
      code takes them; the first failure is the answer.  `mac` chooses the
      macOS resources directory (`ThreeUp` as written).  `readKeyError` is
      the outcome of reading an existing key file, whose failure only drops
      the key. */
  function Prepare(mac: MacResources, os: Os, env: Env, present: Present, dirs: Dirs, makeDirs: MakeDirs, files: map<Path, string>,
                   readKeyError: Option<string>, exe: Option<Path>, cwd: Option<Path>): (r: Result<Prepared, LaunchError>)
    ensures GetChromePath(os, env, present).None? ==> r == Err(Failed("Chrome not found"))
    ensures GetChromePath(os, env, present).Some? && GetDataDir(dirs).Err? ==> r == Err(Failed(GetDataDir(dirs).error))
    ensures GetChromePath(os, env, present).Some? && GetDataDir(dirs).Ok? && GetApiKeyPath(dirs, makeDirs).Err? ==>
      r == Err(Failed(GetApiKeyPath(dirs, makeDirs).error))
    ensures GetChromePath(os, env, present).Some? && GetDataDir(dirs).Ok? && GetApiKeyPath(dirs, makeDirs).Ok? ==>
      (r.Ok? <==> FindScript(mac, os, exe, cwd, present).Ok?)
    ensures r.Ok? ==>
      r.value.chrome == GetChromePath(os, env, present).value && present(r.value.chrome) &&
      r.value.dataDir == GetDataDir(dirs).value &&
      r.value.keyPath == GetApiKeyPath(dirs, makeDirs).value &&
      r.value.script == FindScript(mac, os, exe, cwd, present).value && present(r.value.script)
    ensures r.Ok? ==> (r.value.apiKey.Some? <==> r.value.keyPath in files && readKeyError.None?)
    ensures r.Ok? && r.value.apiKey.Some? ==> r.value.apiKey.value == files[r.value.keyPath]
  {
    match GetChromePath(os, env, present)
    case None => Err(Failed("Chrome not found"))
    case Some(chrome) =>
      match GetDataDir(dirs)
      case Err(e) => Err(Failed(e))
      case Ok(dataDir) =>
        match GetApiKeyPath(dirs, makeDirs)
        case Err(e) => Err(Failed(e))
        case Ok(keyPath) =>
          var apiKey := if keyPath in files && readKeyError.None? then Some(files[keyPath]) else None;
          match FindScript(mac, os, exe, cwd, present)
          case Err(e) => Err(e)
          case Ok(script) => Ok(Prepared(chrome, dataDir, keyPath, apiKey, script))
  }

  /** The Node process `open_browser` starts: the script and its four
      arguments (Chrome, data directory, configuration file, key). */
  datatype Spawn = Spawn(script: Path, chrome: Path, dataDir: Path, configPath: Path, apiKey: string)

  /** `api_key.unwrap_or_default()` */
  function KeyArgument(apiKey: Option<string>): (arg: string)
    ensures apiKey.None? ==> arg == ""
    ensures apiKey.Some? ==> arg == apiKey.value
  {
    if apiKey.Some? then apiKey.value else ""
  }

  /** Without a readable key file the script is started with an empty key
      and so builds no Groq client; with one, the script's client uses the
      file's content when it is not empty. */
  lemma KeyReachesScript(p: Prepared)
    ensures p.apiKey.None? ==> Grok.ScriptClient(Some(KeyArgument(p.apiKey))).None?
    ensures p.apiKey.Some? && p.apiKey.value != "" ==> Grok.ScriptClient(Some(KeyArgument(p.apiKey))) == p.apiKey
  {
  }

  /** `open_browser` up to spawning Node: prepare, write the current
      settings to the configuration file, and answer the process to start. */
  method OpenBrowser(app: TauriState, mac: MacResources, os: Os, env: Env, present: Present, readKeyError: Option<string>,
                     exe: Option<Path>, cwd: Option<Path>, writeError: Option<string>)
    returns (r: Result<Spawn, LaunchError>)
    modifies app
    ensures app.Config() == old(app.Config())
    ensures var prep := Prepare(mac, os, env, present, app.dirs, app.makeDirs, old(app.files), readKeyError, exe, cwd);
      var path := GetTypeConfigPath(app.dirs, app.makeDirs);
      && (prep.Err? ==> r == Err(prep.error) && app.files == old(app.files))
      && (prep.Ok? ==> app.files == AfterWrite(old(app.files), path, writeError, app.render(ConfigJson(app.Config()))))
      && (prep.Ok? && WriteOutcome(path, writeError, "Failed to write config: ").Err? ==>
            r == Err(Failed(WriteOutcome(path, writeError, "Failed to write config: ").error)))
      && (prep.Ok? && WriteOutcome(path, writeError, "Failed to write config: ").Ok? ==>
            r == Ok(Spawn(prep.value.script, prep.value.chrome, prep.value.dataDir, path.value, KeyArgument(prep.value.apiKey))))
  {
    var prep := Prepare(mac, os, env, present, app.dirs, app.makeDirs, app.files, readKeyError, exe, cwd);
    if prep.Err? {
      return Err(prep.error);
    }
    var written := app.WriteConfig(writeError);
    if written.Err? {
      return Err(Failed(written.error));
    }
    var path := GetTypeConfigPath(app.dirs, app.makeDirs);
    r := Ok(Spawn(prep.value.script, prep.value.chrome, prep.value.dataDir, path.value, KeyArgument(prep.value.apiKey)));
  }
}
