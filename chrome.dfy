/** Finding the Chrome binary: `getChromePath` (both Electron copies of
    commons.ts, identical apart from layout) and `get_chrome_path` /
    `check_chrome_exists` (chrome.rs).  Each is a first-match search over a
    fixed list of candidates per operating system; whether a path exists is an
    oracle. */
module Chrome {
  import opened Wrappers
  import opened Paths

  datatype Os = Windows | MacOs | Linux | OtherOs

  /** The process environment: the variables that are set, with their values. */
  type Env = map<string, string>

  /** `fs.existsSync` / `Path::exists` */
  type Present = Path -> bool

  /** `candidates.find(exists)`: the first candidate that exists. */
  function FirstExisting(candidates: seq<Path>, present: Present): (r: Option<Path>)
    ensures r.None? <==> forall i :: 0 <= i < |candidates| ==> !present(candidates[i])
    ensures r.Some? ==> exists i :: 0 <= i < |candidates| && candidates[i] == r.value && present(r.value) &&
                          forall j :: 0 <= j < i ==> !present(candidates[j])
    decreases |candidates|
  {
    if candidates == [] then None
    else if present(candidates[0]) then Some(candidates[0])
    else
      var r := FirstExisting(candidates[1..], present);
      assert forall i :: 1 <= i < |candidates| ==> candidates[i] == candidates[1..][i - 1];
      r
  }

  const ProgramFilesDefault := "C:\\Program Files"
  const ProgramFilesX86Default := "C:\\Program Files (x86)"

  /** The Chrome binary under a Program Files root. */
  function UnderRoot(root: string): Path
  {
    [root, "Google", "Chrome", "Application", "chrome.exe"]
  }

  const MacChrome: Path := ["/", "Applications", "Google Chrome.app", "Contents", "MacOS", "Google Chrome"]

  const LinuxChromes: seq<Path> := [
    ["/", "usr", "bin", "google-chrome"],
    ["/", "usr", "bin", "google-chrome-stable"],
    ["/", "snap", "bin", "chromium"]
  ]

  /** `process.env[name] || fallback`: an empty value counts as unset. */
  function JsEnvOr(env: Env, name: string, fallback: string): string
  {
    if name in env && env[name] != "" then env[name] else fallback
  }

  /** `std::env::var(name).unwrap_or_else(|_| fallback)`: an empty value is
      kept. */
  function RustEnvOr(env: Env, name: string, fallback: string): string
  {
    if name in env then env[name] else fallback
  }

  /** The candidates in the order the Electron `getChromePath` tries them. */
  function JsCandidates(os: Os, env: Env): seq<Path>
  {
    match os
    case Windows => [UnderRoot(JsEnvOr(env, "PROGRAMFILES", ProgramFilesDefault)),
                     UnderRoot(JsEnvOr(env, "PROGRAMFILES(X86)", ProgramFilesX86Default))]
    case MacOs => [MacChrome]
    case Linux => LinuxChromes
    case OtherOs => []
  }

  /** The candidates in the order `get_chrome_path` tries them. */
  function RustCandidates(os: Os, env: Env): seq<Path>
  {
    match os
    case Windows => [UnderRoot(RustEnvOr(env, "PROGRAMFILES", ProgramFilesDefault)),
                     UnderRoot(RustEnvOr(env, "PROGRAMFILES(X86)", ProgramFilesX86Default))]
    case MacOs => [MacChrome]
    case Linux => LinuxChromes
    case OtherOs => []
  }

  /** `getChromePath()`; `None` is its `null`. */
  function GetChromePathJs(os: Os, env: Env, present: Present): Option<Path>
  {
    FirstExisting(JsCandidates(os, env), present)
  }

  /** `get_chrome_path()` */
  function GetChromePath(os: Os, env: Env, present: Present): Option<Path>
  {
    FirstExisting(RustCandidates(os, env), present)
  }

  /** `check_chrome_exists()`: true exactly when one of the platform's
      candidates exists. */
  function CheckChromeExists(os: Os, env: Env, present: Present): (found: bool)
    ensures found <==> exists i :: 0 <= i < |RustCandidates(os, env)| && present(RustCandidates(os, env)[i])
  {
    GetChromePath(os, env, present).Some?
  }

  /** macOS: the fixed app path exactly when it exists; other systems:
      nothing. */
  lemma MacAndOtherLookup(env: Env, present: Present)
    ensures GetChromePath(MacOs, env, present) == if present(MacChrome) then Some(MacChrome) else None
    ensures GetChromePath(OtherOs, env, present) == None
  {
    assert [MacChrome][1..] == [];
  }

  /** Linux: the first of the three paths that exists, in the listed order. */
  lemma LinuxLookup(env: Env, present: Present)
    ensures GetChromePath(Linux, env, present) ==
      if present(LinuxChromes[0]) then Some(LinuxChromes[0])
      else if present(LinuxChromes[1]) then Some(LinuxChromes[1])
      else if present(LinuxChromes[2]) then Some(LinuxChromes[2])
      else None
  {
    var l := LinuxChromes;
    assert l[1..][0] == l[1] && l[1..][1..][0] == l[2] && l[1..][1..][1..] == [];
  }

  /** Windows with neither variable set: Program Files first, then
      Program Files (x86). */
  lemma WindowsDefaultLookup(env: Env, present: Present)
    requires "PROGRAMFILES" !in env && "PROGRAMFILES(X86)" !in env
    ensures GetChromePath(Windows, env, present) ==
      if present(UnderRoot(ProgramFilesDefault)) then Some(UnderRoot(ProgramFilesDefault))
      else if present(UnderRoot(ProgramFilesX86Default)) then Some(UnderRoot(ProgramFilesX86Default))
      else None
  {
    var w := RustCandidates(Windows, env);
    assert w == [UnderRoot(ProgramFilesDefault), UnderRoot(ProgramFilesX86Default)];
    assert w[1..][0] == w[1] && w[1..][1..] == [];
  }

  /** The Electron and Tauri lookups agree unless a Program Files variable is
      set to the empty string. */
  lemma JsAndRustAgree(os: Os, env: Env, present: Present)
    requires "PROGRAMFILES" in env ==> env["PROGRAMFILES"] != ""
    requires "PROGRAMFILES(X86)" in env ==> env["PROGRAMFILES(X86)"] != ""
    ensures GetChromePathJs(os, env, present) == GetChromePath(os, env, present)
  {
  }

  /** With `PROGRAMFILES` set but empty, Electron looks under the default
      root while Tauri looks under the relative path `Google\Chrome\...`. */
  lemma EmptyProgramFilesDiffers(present: Present)
    requires forall p :: present(p) <==> p == UnderRoot(ProgramFilesDefault)
    ensures GetChromePathJs(Windows, map["PROGRAMFILES" := ""], present) == Some(UnderRoot(ProgramFilesDefault))
    ensures GetChromePath(Windows, map["PROGRAMFILES" := ""], present) == None
  {
    var env := map["PROGRAMFILES" := ""];
    assert !present(UnderRoot(""));
    assert UnderRoot(ProgramFilesX86Default) != UnderRoot(ProgramFilesDefault) by {
      assert UnderRoot(ProgramFilesX86Default)[0] != UnderRoot(ProgramFilesDefault)[0];
    }
  }
}
