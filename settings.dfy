/** The typing settings and the key file as the two hosts keep them.

    The window's speed slider picks a range of speeds in [0, MAX_DELAY]; a
    speed becomes a delay by reflection at MAX_DELAY, so the fastest speed
    gets the shortest delay.  Electron keeps the settings in the shared
    `typeConfig` record (`TypeSettings`); Tauri keeps three `u32` cells, and
    after every update writes them as JSON to the configuration file the Node
    script reads (`TauriState`, `ConfigJson`, `ReadConfig`).

    File writes, file reads and the JSON text form are oracles: a write or
    read either succeeds or fails with an error text (`Option<string>`,
    `None` meaning success), and `render` stands for
    `serde_json::to_string_pretty`. */
module Settings {
  import opened Wrappers
  import opened Json
  import opened Paths
  import opened Typing

  /** `MAX_DELAY`, the top of the speed slider. */
  const MaxDelay := 400

  /** `UpdateSpeedArgs`: the slider's lower and upper speed. */
  datatype SpeedArgs = SpeedArgs(min: int, max: int)

  /** The `updateTypeSpeed` handler on a configuration: the upper speed sets
      the shortest delay and the lower speed the longest. */
  function SpeedUpdate(c: TypeConfig, speed: SpeedArgs): TypeConfig
  {
    TypeConfig(MaxDelay - speed.max, MaxDelay - speed.min, c.errorRate)
  }

  /** The `updateErrRate` handler on a configuration. */
  function RateUpdate(c: TypeConfig, rate: int): TypeConfig
  {
    c.(errorRate := rate)
  }

  /** The slider position that a pair of delays comes from. */
  function SpeedOf(c: TypeConfig): SpeedArgs
  {
    SpeedArgs(MaxDelay - c.maxDelay, MaxDelay - c.minDelay)
  }

  /** A speed update keeps the error rate, loses no information about the
      slider position, and keeps the delay range as wide as the speed range;
      a well-ordered speed range on the slider gives a well-ordered delay
      range inside [0, MAX_DELAY]. */
  lemma SpeedUpdateMeaning(c: TypeConfig, speed: SpeedArgs)
    ensures SpeedUpdate(c, speed).errorRate == c.errorRate
    ensures SpeedOf(SpeedUpdate(c, speed)) == speed
    ensures SpeedUpdate(c, speed).maxDelay - SpeedUpdate(c, speed).minDelay == speed.max - speed.min
    ensures 0 <= speed.min <= speed.max <= MaxDelay <==>
      0 <= SpeedUpdate(c, speed).minDelay <= SpeedUpdate(c, speed).maxDelay <= MaxDelay
  {
  }

  /** A faster slider setting never gives longer delays. */
  lemma FasterIsShorter(c: TypeConfig, slow: SpeedArgs, fast: SpeedArgs)
    requires slow.min <= fast.min && slow.max <= fast.max
    ensures SpeedUpdate(c, fast).minDelay <= SpeedUpdate(c, slow).minDelay
    ensures SpeedUpdate(c, fast).maxDelay <= SpeedUpdate(c, slow).maxDelay
  {
  }

  /** The two handlers touch disjoint fields: applying them in either order
      gives the same configuration, and of two updates of the same kind the
      later one wins. */
  lemma UpdatesCommute(c: TypeConfig, speed: SpeedArgs, speed2: SpeedArgs, rate: int, rate2: int)
    ensures SpeedUpdate(RateUpdate(c, rate), speed) == RateUpdate(SpeedUpdate(c, speed), rate)
    ensures SpeedUpdate(SpeedUpdate(c, speed), speed2) == SpeedUpdate(c, speed2)
    ensures RateUpdate(RateUpdate(c, rate), rate2) == RateUpdate(c, rate2)
  {
  }

  /** The window's initial slider range 375..380 gives the initial delays
      20..25, so the first update the window sends leaves the starting
      configuration's delays as they were. */
  lemma InitialSliderKeepsDelays()
    ensures SpeedUpdate(InitialConfig, SpeedArgs(375, 380)) == InitialConfig
    ensures SpeedOf(InitialConfig) == SpeedArgs(375, 380)
  {
  }

  // ------------------------------------------------------------- Electron

  /** The Electron main process's `typeConfig` record and the handlers in
      main.ts that update it. */
  class TypeSettings {
    var config: TypeConfig

    constructor ()
      ensures config == InitialConfig
    {
      config := InitialConfig;
    }

    /** The `updateTypeSpeed` handler. */
    method UpdateTypeSpeed(speed: SpeedArgs)
      modifies this
      ensures config == SpeedUpdate(old(config), speed)
      ensures config.errorRate == old(config.errorRate)
    {
      config := config.(minDelay := MaxDelay - speed.max, maxDelay := MaxDelay - speed.min);
    }

    /** The `updateErrRate` handler. */
    method UpdateErrRate(rate: int)
      modifies this
      ensures config == RateUpdate(old(config), rate)
      ensures config.minDelay == old(config.minDelay) && config.maxDelay == old(config.maxDelay)
    {
      config := config.(errorRate := rate);
    }
  }

  // ---------------------------------------------------------------- Tauri

  const TwoTo32 := 0x1_0000_0000
  type U32 = x: int | 0 <= x < 0x1_0000_0000

  /** `a - b` on `u32` in a release build, which wraps around. */
  function WrappingSub(a: U32, b: U32): (d: U32)
    ensures b <= a ==> d == a - b
    ensures a < b ==> d == TwoTo32 + a - b
  {
    (a - b) % TwoTo32
  }

  /** The Tauri speed update on a configuration, with `u32` arithmetic. */
  function SpeedUpdate32(c: TypeConfig, speed: SpeedArgs): TypeConfig
    requires 0 <= speed.min < TwoTo32 && 0 <= speed.max < TwoTo32
  {
    TypeConfig(WrappingSub(MaxDelay, speed.max), WrappingSub(MaxDelay, speed.min), c.errorRate)
  }

  /** For slider positions up to MAX_DELAY the Tauri arithmetic agrees with
      Electron's; a position above it wraps to a delay near 2^32. */
  lemma SpeedUpdate32Agrees(c: TypeConfig, speed: SpeedArgs)
    requires 0 <= speed.min < TwoTo32 && 0 <= speed.max < TwoTo32
    ensures speed.min <= MaxDelay && speed.max <= MaxDelay ==> SpeedUpdate32(c, speed) == SpeedUpdate(c, speed)
    ensures speed.max > MaxDelay ==> SpeedUpdate32(c, speed).minDelay == TwoTo32 + MaxDelay - speed.max
    ensures speed.max > MaxDelay ==> SpeedUpdate32(c, speed).minDelay > MaxDelay
  {
  }

  /** The JSON object written to the configuration file. */
  function ConfigJson(c: TypeConfig): Json
  {
    Obj(map["minDelay" := Num(c.minDelay), "maxDelay" := Num(c.maxDelay), "errorRate" := Num(c.errorRate)])
  }

  /** The result of writing a file at a path that may not have been found:
      the path's error, the write's error behind `prefix`, or success. */
  function WriteOutcome(path: Result<Path, string>, writeError: Option<string>, prefix: string)
    : (r: Result<(), string>)
    ensures r.Ok? <==> path.Ok? && writeError.None?
    ensures path.Err? ==> r == Err(path.error)
    ensures path.Ok? && writeError.Some? ==> r == Err(prefix + writeError.value)
  {
    match path
    case Err(e) => Err(e)
    case Ok(_) => if writeError.Some? then Err(prefix + writeError.value) else Ok(())
  }

  /** The files after that write: only a successful write changes them. */
  function AfterWrite(files: map<Path, string>, path: Result<Path, string>, writeError: Option<string>, content: string)
    : (after: map<Path, string>)
    ensures WriteOutcome(path, writeError, "").Ok? ==> after == files[path.value := content]
    ensures WriteOutcome(path, writeError, "").Err? ==> after == files
  {
    if path.Ok? && writeError.None? then files[path.value := content] else files
  }

  /** Tauri's managed `TypeConfig` (three `u32` cells) together with the files
      the commands read and write. */
  class TauriState {
    var minDelay: U32
    var maxDelay: U32
    var errorRate: U32
    var files: map<Path, string>
    const dirs: Dirs
    const makeDirs: MakeDirs
    /** `serde_json::to_string_pretty` */
    const render: Json -> string

    /** `TypeConfig::default()`: 20, 25 and 0. */
    constructor (dirs: Dirs, makeDirs: MakeDirs, render: Json -> string, files: map<Path, string>)
      ensures Config() == InitialConfig
      ensures this.dirs == dirs && this.makeDirs == makeDirs && this.render == render && this.files == files
    {
      minDelay, maxDelay, errorRate := 20, 25, 0;
      this.dirs, this.makeDirs, this.render, this.files := dirs, makeDirs, render, files;
    }

    function Config(): TypeConfig
      reads this
    {
      TypeConfig(minDelay, maxDelay, errorRate)
    }

    /** `update_type_speed(args)`: the cells change even when the file cannot
        be written; the file then holds the new configuration. */
    method UpdateTypeSpeed(speed: SpeedArgs, writeError: Option<string>) returns (r: Result<(), string>)
      requires 0 <= speed.min < TwoTo32 && 0 <= speed.max < TwoTo32
      modifies this
      ensures Config() == SpeedUpdate32(old(Config()), speed)
      ensures r == WriteOutcome(GetTypeConfigPath(dirs, makeDirs), writeError, "Failed to write config: ")
      ensures files == AfterWrite(old(files), GetTypeConfigPath(dirs, makeDirs), writeError, render(ConfigJson(Config())))
    {
      minDelay := WrappingSub(MaxDelay, speed.max);
      maxDelay := WrappingSub(MaxDelay, speed.min);
      r := WriteConfig(writeError);
    }

    /** `update_err_rate(err_rate)` */
    method UpdateErrRate(rate: U32, writeError: Option<string>) returns (r: Result<(), string>)
      modifies this
      ensures Config() == RateUpdate(old(Config()), rate)
      ensures r == WriteOutcome(GetTypeConfigPath(dirs, makeDirs), writeError, "Failed to write config: ")
      ensures files == AfterWrite(old(files), GetTypeConfigPath(dirs, makeDirs), writeError, render(ConfigJson(Config())))
    {
      errorRate := rate;
      r := WriteConfig(writeError);
    }

    /** The second half of both update commands: find the configuration
        file and write the cells to it. */
    method WriteConfig(writeError: Option<string>) returns (r: Result<(), string>)
      modifies this
      ensures Config() == old(Config())
      ensures r == WriteOutcome(GetTypeConfigPath(dirs, makeDirs), writeError, "Failed to write config: ")
      ensures files == AfterWrite(old(files), GetTypeConfigPath(dirs, makeDirs), writeError, render(ConfigJson(Config())))
    {
      var path := GetTypeConfigPath(dirs, makeDirs);
      match path {
        case Err(e) =>
          r := Err(e);
        case Ok(p) =>
          if writeError.Some? {
            r := Err("Failed to write config: " + writeError.value);
          } else {
            files := files[p := render(ConfigJson(Config()))];
            r := Ok(());
          }
      }
    }

    /** `get_api_key()`; `readError` is the outcome of reading an existing
        key file. */
    function GetApiKey(readError: Option<string>): (r: Result<Option<string>, string>)
      reads this
      ensures GetApiKeyPath(dirs, makeDirs).Err? ==> r == Err(GetApiKeyPath(dirs, makeDirs).error)
      ensures r == Ok(None) <==> GetApiKeyPath(dirs, makeDirs).Ok? && GetApiKeyPath(dirs, makeDirs).value !in files
      ensures r.Ok? && r.value.Some? ==> readError.None? && r.value.value == files[GetApiKeyPath(dirs, makeDirs).value]
      ensures GetApiKeyPath(dirs, makeDirs).Ok? && GetApiKeyPath(dirs, makeDirs).value in files && readError.Some? ==>
        r == Err("Failed to read API key: " + readError.value)
    {
      match GetApiKeyPath(dirs, makeDirs)
      case Err(e) => Err(e)
      case Ok(p) =>
        if p !in files then Ok(None)
        else if readError.Some? then Err("Failed to read API key: " + readError.value)
        else Ok(Some(files[p]))
    }

    /** `save_api_key(api_key)`: once it succeeds, reading the key gives it
        back; the typing settings are untouched. */
    method SaveApiKey(apiKey: string, writeError: Option<string>) returns (r: Result<(), string>)
      modifies this
      ensures Config() == old(Config())
      ensures r == WriteOutcome(GetApiKeyPath(dirs, makeDirs), writeError, "Failed to write API key: ")
      ensures files == AfterWrite(old(files), GetApiKeyPath(dirs, makeDirs), writeError, apiKey)
      ensures r.Ok? ==> GetApiKey(None) == Ok(Some(apiKey))
    {
      var path := GetApiKeyPath(dirs, makeDirs);
      match path {
        case Err(e) =>
          r := Err(e);
        case Ok(p) =>
          if writeError.Some? {
            r := Err("Failed to write API key: " + writeError.value);
          } else {
            files := files[p := apiKey];
            r := Ok(());
          }
      }
    }
  }

  // ------------------------------------------------------ the Node script

  /** What `readConfig` returns: the three fields as read, `None` for
      `undefined`. */
  datatype ConfigRead = ConfigRead(minDelay: Option<Json>, maxDelay: Option<Json>, errorRate: Option<Json>)

  /** A configuration as `readConfig` returns it. */
  function AsRead(c: TypeConfig): ConfigRead
  {
    ConfigRead(Some(Num(c.minDelay)), Some(Num(c.maxDelay)), Some(Num(c.errorRate)))
  }

  /** The configuration the typing code can use: present only when all three
      fields were read as numbers, and then `AsRead` gives the read back. */
  function ConfigOfRead(r: ConfigRead): (c: Option<TypeConfig>)
    ensures c.Some? <==> r.minDelay.Some? && r.minDelay.value.Num? && r.maxDelay.Some? && r.maxDelay.value.Num? &&
                         r.errorRate.Some? && r.errorRate.value.Num?
    ensures c.Some? ==> AsRead(c.value) == r
  {
    match r
    case ConfigRead(Some(Num(lo)), Some(Num(hi)), Some(Num(rate))) => Some(TypeConfig(lo, hi, rate))
    case _ => None
  }

  /** `readConfig()`: `content` is the file's text, `None` when it cannot be
      read.  Any exception (no file, text that is not JSON, `null`) gives the
      defaults; otherwise each field is read with property access. */
  function ReadConfig(content: Option<string>, parse: Parser): (r: ConfigRead)
    ensures content.None? ==> r == AsRead(InitialConfig)
    ensures content.Some? && (parse(content.value).None? || parse(content.value) == Some(Null)) ==> r == AsRead(InitialConfig)
    ensures content.Some? && parse(content.value).Some? && parse(content.value) != Some(Null) ==>
      r == ConfigRead(Prop(parse(content.value), "minDelay"), Prop(parse(content.value), "maxDelay"), Prop(parse(content.value), "errorRate"))
  {
    if content.None? then AsRead(InitialConfig)
    else
      match parse(content.value)
      case None => AsRead(InitialConfig)
      case Some(Null) => AsRead(InitialConfig)
      case Some(v) => ConfigRead(Prop(Some(v), "minDelay"), Prop(Some(v), "maxDelay"), Prop(Some(v), "errorRate"))
  }

  /** When the text form parses back to the object written, the Node script
      reads exactly the configuration Tauri wrote, and the typing code gets
      that configuration. */
  lemma ReadsWhatTauriWrote(c: TypeConfig, render: Json -> string, parse: Parser)
    requires parse(render(ConfigJson(c))) == Some(ConfigJson(c))
    ensures ReadConfig(Some(render(ConfigJson(c))), parse) == AsRead(c)
    ensures ConfigOfRead(ReadConfig(Some(render(ConfigJson(c))), parse)) == Some(c)
  {
  }

  /** A JSON object lacking a field yields `undefined` for that field, and a
      JSON value that is not an object yields `undefined` for all three;
      either way the typing code gets no numeric configuration. */
  lemma ReadConfigMissingFields(content: string, parse: Parser)
    requires parse(content).Some? && parse(content) != Some(Null)
    ensures !parse(content).value.Obj? ==> ReadConfig(Some(content), parse) == ConfigRead(None, None, None)
    ensures parse(content).value.Obj? && "errorRate" !in parse(content).value.fields ==>
      ReadConfig(Some(content), parse).errorRate == None
    ensures (!parse(content).value.Obj? || "minDelay" !in parse(content).value.fields ||
             "maxDelay" !in parse(content).value.fields || "errorRate" !in parse(content).value.fields) ==>
      ConfigOfRead(ReadConfig(Some(content), parse)).None?
  {
  }
}
