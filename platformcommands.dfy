/** The platform commands of src-tauri/src/commands/platform_commands.rs that decide
    what to report about Antigravity's installation and what to store as the user's
    own paths. The stored configuration and its validators (`antigravity_path_config`)
    are not part of this model: the configured paths are inputs, the validators
    uninterpreted predicates, and a save is recorded, with its failure as an input. */
module PlatformCommands {
  import opened Wrappers
  import opened FileSystem
  import opened Paths
  import Starter
  import MainCommands

  /** The JSON object the detection commands answer. */
  datatype Detection = Detection(found: bool, path: Option<string>, isCustomPath: bool)

  /** A configured path as these commands read it: a configuration that cannot be read
      counts as no path (`unwrap_or(None)`). */
  function Configured(stored: Result<Option<string>, string>): (r: Option<string>)
    ensures r.Some? <==> stored.Ok? && stored.value.Some?
    ensures r.Some? ==> r.value == stored.value.value
  {
    if stored.Ok? then stored.value else None
  }

  /** The configured path, when there is one and the validator accepts it. */
  predicate CustomAccepted(stored: Result<Option<string>, string>, valid: string -> bool) {
    Configured(stored).Some? && valid(Configured(stored).value)
  }

  /** The text of a path's parent directory (`parent()`, then `to_string_lossy`, or the
      empty text when there is no parent). */
  function ParentText(display: Path -> string, p: Path): string {
    if |p| > 0 then display(p[..|p| - 1]) else ""
  }

  /** `detect_antigravity_installation`: an accepted custom data directory, else the
      directory of the detected database when that exists, else nothing. `dbPath` is
      what the crate's `get_antigravity_db_path` gives. */
  function DetectInstallation(customData: Result<Option<string>, string>, validData: string -> bool,
                              dbPath: Option<Path>, fs: Fs, display: Path -> string): (d: Detection)
    ensures d.isCustomPath <==> CustomAccepted(customData, validData)
    ensures d.isCustomPath ==> d == Detection(true, Configured(customData), true)
    ensures !d.isCustomPath && dbPath.Some? && Exists(fs, dbPath.value) ==>
      d == Detection(true, Some(ParentText(display, dbPath.value)), false)
    ensures d.found <==> CustomAccepted(customData, validData) || (dbPath.Some? && Exists(fs, dbPath.value))
    ensures !d.found ==> d == Detection(false, None, false)
  {
    if CustomAccepted(customData, validData) then Detection(true, Configured(customData), true)
    else if dbPath.Some? && Exists(fs, dbPath.value) then Detection(true, Some(ParentText(display, dbPath.value)), false)
    else Detection(false, None, false)
  }

  /** With main.rs's database path, the directory reported for a detected database is
      Antigravity's data directory. */
  lemma DetectedDirIsDataDir(customData: Result<Option<string>, string>, validData: string -> bool,
                             env: Env, fs: Fs, display: Path -> string)
    requires !CustomAccepted(customData, validData)
    requires MainCommands.InlineDbPath(env).Some? && Exists(fs, MainCommands.InlineDbPath(env).value)
    ensures DetectInstallation(customData, validData, MainCommands.InlineDbPath(env), fs, display)
      == Detection(true, Some(display(AntigravityDataDir(env).value)), false)
  {
    var db := MainCommands.InlineDbPath(env).value;
    assert db[..|db| - 1] == AntigravityDataDir(env).value;
  }

  /** `detect_antigravity_executable`: an accepted custom executable, else the first
      existing executable of the platform's list, else nothing. */
  function DetectExecutable(customExec: Result<Option<string>, string>, validExec: string -> bool,
                            env: Env, fs: Fs, display: Path -> string): (d: Detection)
    ensures d.isCustomPath <==> CustomAccepted(customExec, validExec)
    ensures d.isCustomPath ==> d == Detection(true, Configured(customExec), true)
    ensures !d.isCustomPath && Starter.DetectExecutable(env, fs).Some? ==>
      d == Detection(true, Some(display(Starter.DetectExecutable(env, fs).value)), false)
    ensures d.found <==> CustomAccepted(customExec, validExec) || Starter.DetectExecutable(env, fs).Some?
    ensures !d.found ==> d == Detection(false, None, false)
  {
    if CustomAccepted(customExec, validExec) then Detection(true, Configured(customExec), true)
    else match Starter.DetectExecutable(env, fs)
      case Some(p) => Detection(true, Some(display(p)), false)
      case None => Detection(false, None, false)
  }

  /** Without an accepted custom executable, nothing is found exactly when no listed
      executable exists, in particular on a system without a list. */
  lemma ExecutableNotFoundIff(customExec: Result<Option<string>, string>, validExec: string -> bool,
                              env: Env, fs: Fs, display: Path -> string)
    requires !CustomAccepted(customExec, validExec)
    ensures !DetectExecutable(customExec, validExec, env, fs, display).found <==>
      forall i :: 0 <= i < |Starter.StartPaths(env)| ==> !Exists(fs, Starter.StartPaths(env)[i])
    ensures env.os.OtherOs? ==> DetectExecutable(customExec, validExec, env, fs, display) == Detection(false, None, false)
  {
  }

  /** What a save command returns, and the path it handed to the configuration store
      (None when it did not call the store). */
  datatype SaveOutcome = SaveOutcome(result: Result<string, string>, saved: Option<string>)

  /** `save_antigravity_path`: a path the validator rejects is refused without
      calling the store; an accepted one is stored, and the store's failure, if any,
      is the answer. */
  function SaveAntigravityPath(path: string, validData: string -> bool, storeFailure: Option<string>): (o: SaveOutcome)
    ensures !validData(path) ==>
      o == SaveOutcome(Err("路径无效：未在目录 '" + path + "' 中找到 state.vscdb 文件"), None)
    ensures validData(path) ==> o.saved == Some(path)
    ensures o.result.Ok? <==> validData(path) && storeFailure.None?
    ensures o.result.Ok? ==> o.result.value == "已保存 Antigravity 数据目录路径: " + path
    ensures validData(path) && storeFailure.Some? ==> o.result == Err(storeFailure.value)
  {
    if !validData(path) then SaveOutcome(Err("路径无效：未在目录 '" + path + "' 中找到 state.vscdb 文件"), None)
    else if storeFailure.Some? then SaveOutcome(Err(storeFailure.value), Some(path))
    else SaveOutcome(Ok("已保存 Antigravity 数据目录路径: " + path), Some(path))
  }

  /** `save_antigravity_executable`, the same decision for the executable. */
  function SaveAntigravityExecutable(path: string, validExec: string -> bool, storeFailure: Option<string>): (o: SaveOutcome)
    ensures !validExec(path) ==>
      o == SaveOutcome(Err("路径无效：文件 '" + path + "' 不存在或不是可执行文件"), None)
    ensures validExec(path) ==> o.saved == Some(path)
    ensures o.result.Ok? <==> validExec(path) && storeFailure.None?
    ensures o.result.Ok? ==> o.result.value == "已保存 Antigravity 可执行文件路径: " + path
    ensures validExec(path) && storeFailure.Some? ==> o.result == Err(storeFailure.value)
  {
    if !validExec(path) then SaveOutcome(Err("路径无效：文件 '" + path + "' 不存在或不是可执行文件"), None)
    else if storeFailure.Some? then SaveOutcome(Err(storeFailure.value), Some(path))
    else SaveOutcome(Ok("已保存 Antigravity 可执行文件路径: " + path), Some(path))
  }

  /** A path saved successfully is, while it stays valid, what detection reports as the
      user's own, whatever was detected automatically. */
  lemma SavedPathsAreDetected(path: string, validData: string -> bool, validExec: string -> bool,
                              dbPath: Option<Path>, env: Env, fs: Fs, display: Path -> string)
    ensures SaveAntigravityPath(path, validData, None).saved == Some(path) ==>
      DetectInstallation(Ok(Some(path)), validData, dbPath, fs, display) == Detection(true, Some(path), true)
    ensures SaveAntigravityExecutable(path, validExec, None).saved == Some(path) ==>
      DetectExecutable(Ok(Some(path)), validExec, env, fs, display) == Detection(true, Some(path), true)
  {
  }

  /** The JSON object `get_current_paths` answers. */
  datatype CurrentPaths = CurrentPaths(dataPath: Option<string>, executablePath: Option<string>)

  /** `get_current_paths`: the configured paths, a configuration read error counting
      as no path. */
  function GetCurrentPaths(customData: Result<Option<string>, string>, customExec: Result<Option<string>, string>): (c: CurrentPaths)
    ensures customData.Err? ==> c.dataPath.None?
    ensures customExec.Err? ==> c.executablePath.None?
    ensures customData.Ok? ==> c.dataPath == customData.value
    ensures customExec.Ok? ==> c.executablePath == customExec.value
  {
    CurrentPaths(Configured(customData), Configured(customExec))
  }
}
