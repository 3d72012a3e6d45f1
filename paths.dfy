/** Where TypeWinner keeps its files, and the URL the Electron window loads.

    A path is a sequence of components; a root such as "/" or
    "C:\\Program Files" is kept whole as the first component, so joining a
    name is appending it.  The platform's directories (`dirs::config_dir()`,
    `dirs::data_dir()`) and `create_dir_all` are oracles: they arrive as
    parameters, and `create_dir_all` may fail with an error text. */
module Paths {
  import opened Wrappers
  import opened Json

  type Path = seq<string>

  /** `dirs::config_dir()` and `dirs::data_dir()`; `None` when the platform
      has no such directory. */
  datatype Dirs = Dirs(config: Option<Path>, data: Option<Path>)

  /** `std::fs::create_dir_all`: `None` on success, else the error's text. */
  type MakeDirs = Path -> Option<string>

  const AppName := "TypeWinner"
  const KeyFileName := "grokKey"
  const ConfigFileName := "typeConfig.json"

  /** `get_config_dir()` */
  function GetConfigDir(dirs: Dirs): (r: Result<Path, string>)
    ensures r.Ok? <==> dirs.config.Some?
    ensures r.Ok? ==> |r.value| == |dirs.config.value| + 1 && r.value[..|r.value| - 1] == dirs.config.value && r.value[|r.value| - 1] == AppName
    ensures r.Err? ==> r.error == "Config directory not found"
  {
    match dirs.config
    case None => Err("Config directory not found")
    case Some(dir) => Ok(dir + [AppName])
  }

  /** `get_data_dir()` */
  function GetDataDir(dirs: Dirs): (r: Result<Path, string>)
    ensures r.Ok? <==> dirs.data.Some?
    ensures r.Ok? ==> |r.value| == |dirs.data.value| + 1 && r.value[..|r.value| - 1] == dirs.data.value && r.value[|r.value| - 1] == AppName
    ensures r.Err? ==> r.error == "Data directory not found"
  {
    match dirs.data
    case None => Err("Data directory not found")
    case Some(dir) => Ok(dir + [AppName])
  }

  /** A file directly in the configuration directory, which is created first:
      the shared body of `get_api_key_path` and `get_type_config_path`. */
  function ConfigFile(dirs: Dirs, makeDirs: MakeDirs, name: string): Result<Path, string>
  {
    match GetConfigDir(dirs)
    case Err(e) => Err(e)
    case Ok(dir) =>
      match makeDirs(dir)
      case Some(e) => Err("Failed to create config directory: " + e)
      case None => Ok(dir + [name])
  }

  /** `get_api_key_path()` */
  function GetApiKeyPath(dirs: Dirs, makeDirs: MakeDirs): (r: Result<Path, string>)
    ensures r.Ok? <==> dirs.config.Some? && makeDirs(dirs.config.value + [AppName]).None?
    ensures r.Ok? ==> r.value == dirs.config.value + [AppName, KeyFileName]
    ensures r.Err? && dirs.config.Some? ==>
      r.error == "Failed to create config directory: " + makeDirs(dirs.config.value + [AppName]).value
  {
    ConfigFile(dirs, makeDirs, KeyFileName)
  }

  /** `get_type_config_path()` */
  function GetTypeConfigPath(dirs: Dirs, makeDirs: MakeDirs): (r: Result<Path, string>)
    ensures r.Ok? <==> dirs.config.Some? && makeDirs(dirs.config.value + [AppName]).None?
    ensures r.Ok? ==> r.value == dirs.config.value + [AppName, ConfigFileName]
    ensures r.Err? && dirs.config.Some? ==>
      r.error == "Failed to create config directory: " + makeDirs(dirs.config.value + [AppName]).value
  {
    ConfigFile(dirs, makeDirs, ConfigFileName)
  }

  /** The key file and the configuration file are found or missed together,
      lie in the same directory and differ only in their last component. */
  lemma KeyAndConfigSideBySide(dirs: Dirs, makeDirs: MakeDirs)
    ensures GetApiKeyPath(dirs, makeDirs).Ok? <==> GetTypeConfigPath(dirs, makeDirs).Ok?
    ensures GetApiKeyPath(dirs, makeDirs).Err? ==> GetApiKeyPath(dirs, makeDirs) == GetTypeConfigPath(dirs, makeDirs)
    ensures GetApiKeyPath(dirs, makeDirs).Ok? ==>
      var key, config := GetApiKeyPath(dirs, makeDirs).value, GetTypeConfigPath(dirs, makeDirs).value;
      |key| == |config| && key[..|key| - 1] == config[..|config| - 1] && key[|key| - 1] != config[|config| - 1]
  {
  }

  /** Electron's `apiKeyPath`: the `grokKey` file in env-paths' configuration
      directory for the app. */
  function ApiKeyPath(configDir: Path): Path
  {
    configDir + [KeyFileName]
  }

  /** The text after `http://localhost` for a port string, as the URL parser
      normalises it: `None` when it is not a valid port, nothing at all for
      the scheme's default port 80. */
  function PortPart(port: string): Option<string>
  {
    if !IsDigits(port) || DigitsValue(port) > 65535 then None
    else if DigitsValue(port) == 80 then Some("")
    else Some(":" + Digits(DigitsValue(port)))
  }

  /** `resolveHtmlPath(file)`.  In development the page comes from the dev
      server on `PORT` (1212 when unset or empty); otherwise it is a file URL
      for `resolved`, the result of `path.resolve(__dirname, '../renderer/',
      file)`.  `None` stands for the exception `new URL` throws on a bad port. */
  function ResolveHtmlPath(development: bool, port: Option<string>, file: string, resolved: string): Option<string>
  {
    if development then
      var p := if port.None? || port.value == "" then "1212" else port.value;
      var pathname := if |file| > 0 && file[0] == '/' then file else "/" + file;
      match PortPart(p)
      case None => None
      case Some(part) => Some("http://localhost" + part + pathname)
    else Some("file://" + resolved)
  }

  /** In development, with `PORT` set to a plain port number other than 80,
      the window loads `http://localhost:<port>/<file>`. */
  lemma DevelopmentUrl(port: nat, file: string, resolved: string)
    requires 0 < port <= 65535 && port != 80
    requires file == "" || file[0] != '/'
    ensures ResolveHtmlPath(true, Some(Digits(port)), file, resolved) == Some("http://localhost:" + Digits(port) + "/" + file)
  {
    var p := Digits(port);
    PortOfDigits(port);
    assert "http://localhost" + (":" + p) + ("/" + file) == "http://localhost:" + p + "/" + file;
  }

  lemma PortOfDigits(port: nat)
    requires 0 < port <= 65535 && port != 80
    ensures Digits(port) != "" && PortPart(Digits(port)) == Some(":" + Digits(port))
  {
    DigitsRoundTrip(port);
  }

  /** With `PORT` unset or empty, the dev server port is 1212. */
  lemma DefaultDevelopmentUrl(file: string, resolved: string)
    requires file == "" || file[0] != '/'
    ensures ResolveHtmlPath(true, None, file, resolved) == Some("http://localhost:1212/" + file)
    ensures ResolveHtmlPath(true, Some(""), file, resolved) == Some("http://localhost:1212/" + file)
  {
    DefaultPortDigits();
    PortOfDigits(1212);
    var p := Digits(1212);
    assert p == "1212";
    assert ":" + p == ":1212";
    assert "http://localhost" + ":1212" + ("/" + file) == "http://localhost:1212/" + file;
  }

  lemma DefaultPortDigits()
    ensures Digits(1212) == "1212"
  {
    assert Digits(1) == "1";
    assert Digits(12) == "12";
    assert Digits(121) == "121";
  }
}
