/** Launching Antigravity (src-tauri/src/antigravity_starter.rs). Spawning a program is
    an input: `SpawnFailures` maps each program whose spawn fails to the error text, and
    a program not in the map starts. `display` is how a path is shown in messages. */
module Starter {
  import opened Wrappers
  import Text
  import opened Seqs
  import opened FileSystem
  import opened Paths

  /** What `Command::new` is given: a file path or a bare command looked up in PATH. */
  datatype Program = AtPath(path: Path) | Command(name: string)

  type SpawnFailures = map<Program, string>

  function FailureText(refused: SpawnFailures, p: Program): string {
    if p in refused then refused[p] else ""
  }

  const SpawnFailedPrefix := "启动失败: "

  /** `try_start_from_path`: one spawn of the file. */
  function TryStartFromPath(p: Path, refused: SpawnFailures): (r: Result<string, string>)
    ensures r.Ok? <==> AtPath(p) !in refused
    ensures r.Ok? ==> r.value == "成功启动应用程序"
    ensures r.Err? ==> r.error == SpawnFailedPrefix + refused[AtPath(p)]
  {
    if AtPath(p) in refused then Err(SpawnFailedPrefix + refused[AtPath(p)]) else Ok("成功启动应用程序")
  }

  // ---------------------------------------------------------------- commands

  predicate CommandStarts(refused: SpawnFailures, c: string) {
    Command(c) !in refused
  }

  function StartsIn(refused: SpawnFailures): string -> bool {
    c => CommandStarts(refused, c)
  }

  function CommandError(refused: SpawnFailures, c: string): string {
    c + "命令: " + FailureText(refused, Command(c))
  }

  /** The error entries for the first commands, in order. */
  function CommandErrors(refused: SpawnFailures, cs: seq<string>): seq<string>
    decreases |cs|
  {
    if |cs| == 0 then [] else CommandErrors(refused, cs[..|cs| - 1]) + [CommandError(refused, cs[|cs| - 1])]
  }

  /** Each failed command adds exactly one entry, in order. */
  lemma {:induction false} CommandErrorsOnePerCommand(refused: SpawnFailures, cs: seq<string>)
    ensures |CommandErrors(refused, cs)| == |cs|
    ensures forall i :: 0 <= i < |cs| ==> CommandErrors(refused, cs)[i] == CommandError(refused, cs[i])
    decreases |cs|
  {
    if |cs| > 0 {
      CommandErrorsOnePerCommand(refused, cs[..|cs| - 1]);
    }
  }

  function Commands(cs: seq<string>): (r: seq<Program>)
    ensures |r| == |cs| && forall i :: 0 <= i < |cs| ==> r[i] == Command(cs[i])
  {
    seq(|cs|, i requires 0 <= i < |cs| => Command(cs[i]))
  }

  /** The outcome `try_start_from_commands` promises: the first command that starts,
      or an error listing every command's failure in order. */
  function CommandsOutcome(commands: seq<string>, refused: SpawnFailures): Result<string, string> {
    match FirstIndex(commands, StartsIn(refused))
    case Some(i) => Ok("Antigravity启动成功 (命令: " + commands[i] + ")")
    case None => Err("所有命令尝试失败: " + Text.Join(CommandErrors(refused, commands), ", "))
  }

  /** The commands `try_start_from_commands` spawns: up to and including the first one
      that starts. */
  function CommandsSpawned(commands: seq<string>, refused: SpawnFailures): seq<Program> {
    match FirstIndex(commands, StartsIn(refused))
    case Some(i) => Commands(commands[..i + 1])
    case None => Commands(commands)
  }

  /** `try_start_from_commands`. */
  method TryStartFromCommands(commands: seq<string>, refused: SpawnFailures)
    returns (r: Result<string, string>, spawned: seq<Program>)
    ensures r == CommandsOutcome(commands, refused)
    ensures spawned == CommandsSpawned(commands, refused)
  {
    var hit, errors;
    hit, errors, spawned := ScanCommands(commands, refused);
    if hit.Some? {
      return Ok("Antigravity启动成功 (命令: " + commands[hit.value] + ")"), spawned;
    }
    r := Err("所有命令尝试失败: " + Text.Join(errors, ", "));
  }

  /** The loop of `try_start_from_commands`: it stops at the first command that starts
      (`hit`), and otherwise has one error entry per command. */
  method ScanCommands(commands: seq<string>, refused: SpawnFailures)
    returns (hit: Option<nat>, errors: seq<string>, spawned: seq<Program>)
    ensures hit == FirstIndex(commands, StartsIn(refused))
    ensures hit.Some? ==> spawned == Commands(commands[..hit.value + 1])
    ensures hit.None? ==> spawned == Commands(commands) && errors == CommandErrors(refused, commands)
  {
    errors := [];
    spawned := [];
    for i := 0 to |commands|
      invariant errors == CommandErrors(refused, commands[..i])
      invariant spawned == Commands(commands[..i])
      invariant forall j :: 0 <= j < i ==> !StartsIn(refused)(commands[j])
    {
      var cmd := commands[i];
      assert commands[..i + 1] == commands[..i] + [cmd];
      CommandsSnoc(commands[..i], cmd);
      spawned := spawned + [Command(cmd)];
      if Command(cmd) !in refused {
        FirstIndexAt(commands, StartsIn(refused), i);
        return Some(i), errors, spawned;
      }
      errors := errors + [CommandError(refused, cmd)];
    }
    assert commands[..|commands|] == commands;
    hit := None;
  }

  lemma CommandsSnoc(cs: seq<string>, c: string)
    ensures Commands(cs + [c]) == Commands(cs) + [Command(c)]
  {
    assert |Commands(cs + [c])| == |Commands(cs) + [Command(c)]|;
    forall i | 0 <= i <= |cs| ensures Commands(cs + [c])[i] == (Commands(cs) + [Command(c)])[i] {
      if i < |cs| { assert (cs + [c])[i] == cs[i]; }
    }
  }

  // ---------------------------------------------------------------- per-system start

  /** A listed file that exists and spawns. */
  predicate Launchable(fs: Fs, refused: SpawnFailures, p: Path) {
    Exists(fs, p) && AtPath(p) !in refused
  }

  function LaunchableIn(fs: Fs, refused: SpawnFailures): Path -> bool {
    p => Launchable(fs, refused, p)
  }

  /** The `errors` entry for a listed path that did not start. */
  function PathError(fs: Fs, refused: SpawnFailures, display: Path -> string, p: Path): string {
    if Exists(fs, p) then display(p) + ": " + (SpawnFailedPrefix + FailureText(refused, AtPath(p)))
    else display(p) + ": 文件不存在"
  }

  function PathErrors(fs: Fs, refused: SpawnFailures, display: Path -> string, ps: seq<Path>): seq<string>
    decreases |ps|
  {
    if |ps| == 0 then [] else PathErrors(fs, refused, display, ps[..|ps| - 1]) + [PathError(fs, refused, display, ps[|ps| - 1])]
  }

  /** Each listed path that did not start adds exactly one entry, in list order. */
  lemma {:induction false} PathErrorsOnePerPath(fs: Fs, refused: SpawnFailures, display: Path -> string, ps: seq<Path>)
    ensures |PathErrors(fs, refused, display, ps)| == |ps|
    ensures forall i :: 0 <= i < |ps| ==> PathErrors(fs, refused, display, ps)[i] == PathError(fs, refused, display, ps[i])
    decreases |ps|
  {
    if |ps| > 0 {
      PathErrorsOnePerPath(fs, refused, display, ps[..|ps| - 1]);
    }
  }

  /** The files spawned while scanning the first listed paths: the existing ones. */
  function SpawnedPaths(fs: Fs, ps: seq<Path>): seq<Program>
    decreases |ps|
  {
    if |ps| == 0 then []
    else SpawnedPaths(fs, ps[..|ps| - 1]) + (if Exists(fs, ps[|ps| - 1]) then [AtPath(ps[|ps| - 1])] else [])
  }

  /** Scanning spawns exactly the listed files that exist, in list order. */
  lemma {:induction false} SpawnedPathsAreExisting(fs: Fs, ps: seq<Path>)
    ensures forall pr :: pr in SpawnedPaths(fs, ps) ==> pr.AtPath? && pr.path in ps && Exists(fs, pr.path)
    ensures forall i :: 0 <= i < |ps| && Exists(fs, ps[i]) ==> AtPath(ps[i]) in SpawnedPaths(fs, ps)
    decreases |ps|
  {
    if |ps| > 0 {
      SpawnedPathsAreExisting(fs, ps[..|ps| - 1]);
      forall i | 0 <= i < |ps| - 1 ensures ps[i] == ps[..|ps| - 1][i] {}
    }
  }

  const ManualStartHeader := "无法启动Antigravity。请手动启动Antigravity应用。\n尝试的方法：\n"

  /** What `start_antigravity_{windows,macos,linux}` promise for a path list and a
      command list: the first listed file that exists and spawns; otherwise the first
      command that starts; otherwise one message holding every path's error, in order,
      followed by the commands' error. */
  function FallbackOutcome(paths: seq<Path>, commands: seq<string>, fs: Fs, refused: SpawnFailures, display: Path -> string): Result<string, string> {
    match FirstIndex(paths, LaunchableIn(fs, refused))
    case Some(i) => Ok("Antigravity启动成功 (" + display(paths[i]) + ")")
    case None =>
      match CommandsOutcome(commands, refused)
      case Ok(m) => Ok(m)
      case Err(e) => Err(ManualStartHeader + Text.Join(PathErrors(fs, refused, display, paths) + [e], "\n"))
  }

  /** The programs the per-system start spawns, in order. */
  function FallbackSpawned(paths: seq<Path>, commands: seq<string>, fs: Fs, refused: SpawnFailures): seq<Program> {
    match FirstIndex(paths, LaunchableIn(fs, refused))
    case Some(i) => SpawnedPaths(fs, paths[..i + 1])
    case None => SpawnedPaths(fs, paths) + CommandsSpawned(commands, refused)
  }

  /** The loop over the listed files in `start_antigravity_{windows,macos,linux}`:
      it stops at the first file that exists and spawns (`hit`), and otherwise has one
      error entry per file. */
  method TryListedPaths(paths: seq<Path>, fs: Fs, refused: SpawnFailures, display: Path -> string)
    returns (hit: Option<nat>, errors: seq<string>, spawned: seq<Program>)
    ensures hit == FirstIndex(paths, LaunchableIn(fs, refused))
    ensures hit.Some? ==> spawned == SpawnedPaths(fs, paths[..hit.value + 1])
    ensures hit.None? ==> spawned == SpawnedPaths(fs, paths) && errors == PathErrors(fs, refused, display, paths)
  {
    errors := [];
    spawned := [];
    for i := 0 to |paths|
      invariant errors == PathErrors(fs, refused, display, paths[..i])
      invariant spawned == SpawnedPaths(fs, paths[..i])
      invariant forall j :: 0 <= j < i ==> !Launchable(fs, refused, paths[j])
    {
      var path := paths[i];
      assert paths[..i + 1][..i] == paths[..i];
      if Exists(fs, path) {
        spawned := spawned + [AtPath(path)];
        var started := TryStartFromPath(path, refused);
        if started.Ok? {
          assert LaunchableIn(fs, refused)(paths[i]);
          return Some(i), errors, spawned;
        }
        errors := errors + [display(path) + ": " + started.error];
      } else {
        errors := errors + [display(path) + ": 文件不存在"];
      }
    }
    assert paths[..|paths|] == paths;
    hit := None;
  }

  /** `start_antigravity_windows`, `start_antigravity_macos`, `start_antigravity_linux`:
      the three share one body and differ in their lists. */
  method StartWithFallbacks(paths: seq<Path>, commands: seq<string>, fs: Fs, refused: SpawnFailures, display: Path -> string)
    returns (r: Result<string, string>, spawned: seq<Program>)
    ensures r == FallbackOutcome(paths, commands, fs, refused, display)
    ensures spawned == FallbackSpawned(paths, commands, fs, refused)
  {
    var hit, errors;
    hit, errors, spawned := TryListedPaths(paths, fs, refused, display);
    if hit.Some? {
      return Ok("Antigravity启动成功 (" + display(paths[hit.value]) + ")"), spawned;
    }
    var fromCommands, tried := TryStartFromCommands(commands, refused);
    spawned := spawned + tried;
    match fromCommands
    case Ok(m) =>
      r := Ok(m);
    case Err(e) =>
      errors := errors + [e];
      r := Err(ManualStartHeader + Text.Join(errors, "\n"));
  }

  /** The spawn scan never runs a listed file that does not exist. */
  lemma FallbackSpawnsOnlyExistingFiles(paths: seq<Path>, commands: seq<string>, fs: Fs, refused: SpawnFailures)
    ensures forall pr :: pr in FallbackSpawned(paths, commands, fs, refused) && pr.AtPath? ==> Exists(fs, pr.path)
  {
    var k := FirstIndex(paths, LaunchableIn(fs, refused));
    if k.Some? {
      SpawnedPathsAreExisting(fs, paths[..k.value + 1]);
    } else {
      SpawnedPathsAreExisting(fs, paths);
      var cs := CommandsSpawned(commands, refused);
      assert forall pr :: pr in cs ==> pr.Command? by {
        var j := FirstIndex(commands, StartsIn(refused));
        if j.Some? {
          assert |commands[..j.value + 1]| == j.value + 1;
        }
      }
    }
  }

  /** PATH commands are spawned only when no listed file started. */
  lemma CommandsOnlyAfterEveryPath(paths: seq<Path>, commands: seq<string>, fs: Fs, refused: SpawnFailures)
    ensures (exists pr :: pr in FallbackSpawned(paths, commands, fs, refused) && pr.Command?) ==>
      forall i :: 0 <= i < |paths| ==> !Launchable(fs, refused, paths[i])
  {
    var k := FirstIndex(paths, LaunchableIn(fs, refused));
    if k.Some? {
      SpawnedPathsAreExisting(fs, paths[..k.value + 1]);
    }
  }

  /** When everything fails the message holds one line per listed path, in order, and
      the commands' error last. */
  lemma {:induction false} TotalFailureListsEveryAttempt(paths: seq<Path>, commands: seq<string>, fs: Fs, refused: SpawnFailures, display: Path -> string)
    requires forall i :: 0 <= i < |paths| ==> !Launchable(fs, refused, paths[i])
    requires forall i :: 0 <= i < |commands| ==> !CommandStarts(refused, commands[i])
    ensures FallbackOutcome(paths, commands, fs, refused, display) ==
      Err(ManualStartHeader + Text.Join(PathErrors(fs, refused, display, paths)
        + ["所有命令尝试失败: " + Text.Join(CommandErrors(refused, commands), ", ")], "\n"))
    ensures forall i :: 0 <= i < |paths| ==>
      Text.Contains(FallbackOutcome(paths, commands, fs, refused, display).error, PathError(fs, refused, display, paths[i]))
  {
    var lines := PathErrors(fs, refused, display, paths) + ["所有命令尝试失败: " + Text.Join(CommandErrors(refused, commands), ", ")];
    PathErrorsOnePerPath(fs, refused, display, paths);
    forall i | 0 <= i < |paths|
      ensures Text.Contains(ManualStartHeader + Text.Join(lines, "\n"), PathError(fs, refused, display, paths[i]))
    {
      JoinContainsPart(lines, "\n", i);
      Text.ContainedInConcat(ManualStartHeader, Text.Join(lines, "\n"), lines[i]);
    }
  }

  /** A joined list contains each of its parts. */
  lemma {:induction false} JoinContainsPart(parts: seq<string>, sep: string, i: nat)
    requires i < |parts|
    ensures Text.Contains(Text.Join(parts, sep), parts[i])
    decreases |parts|
  {
    if |parts| == 1 {
      Text.PrefixIsContained(parts[0], Text.Join(parts, sep));
    } else if i == 0 {
      Text.PrefixIsContained(parts[0], Text.Join(parts, sep));
    } else {
      JoinContainsPart(parts[1..], sep, i - 1);
      Text.ContainedInConcat(parts[0] + sep, Text.Join(parts[1..], sep), parts[i]);
      assert Text.Join(parts, sep) == parts[0] + sep + Text.Join(parts[1..], sep);
    }
  }

  // ---------------------------------------------------------------- lists per system

  /** `get_antigravity_windows_paths`. */
  function WindowsStartPaths(env: Env): seq<Path> {
    Under(env.homeDir, ["AppData\\Local\\Programs\\Antigravity\\Antigravity.exe"])
    + Under(env.homeDir, ["AppData\\Roaming\\Local\\Programs\\Antigravity\\Antigravity.exe"])
    + Under(env.dataLocalDir, ["Programs\\Antigravity\\Antigravity.exe"])
    + [["C:\\Program Files\\Antigravity\\Antigravity.exe"], ["C:\\Program Files (x86)\\Antigravity\\Antigravity.exe"]]
  }

  /** `get_antigravity_macos_paths`. */
  function MacStartPaths(env: Env): seq<Path> {
    [["/Applications/Antigravity.app/Contents/MacOS/Antigravity"]]
    + Under(env.homeDir, ["Applications/Antigravity.app/Contents/MacOS/Antigravity"])
  }

  /** `get_antigravity_linux_paths`. */
  function LinuxStartPaths(): seq<Path> {
    [["/usr/share/antigravity/antigravity"]]
  }

  /** The file list for each supported system; empty for any other. */
  function StartPaths(env: Env): seq<Path> {
    match env.os
    case Windows => WindowsStartPaths(env)
    case MacOs => MacStartPaths(env)
    case Linux => LinuxStartPaths()
    case OtherOs(_) => []
  }

  /** The PATH commands: Linux tries the lower-case name first. */
  function StartCommands(os: Os): seq<string> {
    if os == Linux then ["antigravity", "Antigravity"] else ["Antigravity", "antigravity"]
  }

  /** The Windows list: the two home entries come first and the two Program Files
      entries last, with the local data directory's entry between them. */
  lemma WindowsStartPathsLayout(env: Env)
    ensures var ps := WindowsStartPaths(env);
      |ps| == 2 + (if env.homeDir.Some? then 2 else 0) + (if env.dataLocalDir.Some? then 1 else 0)
      && ps[|ps| - 2..] == [["C:\\Program Files\\Antigravity\\Antigravity.exe"], ["C:\\Program Files (x86)\\Antigravity\\Antigravity.exe"]]
      && (env.homeDir.Some? ==> ps[0] == env.homeDir.value + ["AppData\\Local\\Programs\\Antigravity\\Antigravity.exe"])
  {
    var home := Under(env.homeDir, ["AppData\\Local\\Programs\\Antigravity\\Antigravity.exe"])
      + Under(env.homeDir, ["AppData\\Roaming\\Local\\Programs\\Antigravity\\Antigravity.exe"]);
    var local := Under(env.dataLocalDir, ["Programs\\Antigravity\\Antigravity.exe"]);
    var fixed := [["C:\\Program Files\\Antigravity\\Antigravity.exe"], ["C:\\Program Files (x86)\\Antigravity\\Antigravity.exe"]];
    var ps := WindowsStartPaths(env);
    assert ps == (home + local) + fixed;
    assert ps[|ps| - 2..] == fixed;
  }

  /** The macOS list: `/Applications` comes before the home variant. */
  lemma MacStartPathsLayout(env: Env)
    ensures var ps := MacStartPaths(env);
      ps[0] == ["/Applications/Antigravity.app/Contents/MacOS/Antigravity"]
      && |ps| == (if env.homeDir.Some? then 2 else 1)
      && (env.homeDir.Some? ==> ps[1] == env.homeDir.value + ["Applications/Antigravity.app/Contents/MacOS/Antigravity"])
  {
  }

  /** `ps[d]` is the first file of `ps` that exists. */
  predicate FirstExistingAt(fs: Fs, ps: seq<Path>, d: nat) {
    d < |ps| && Exists(fs, ps[d]) && forall j :: 0 <= j < d ==> !Exists(fs, ps[j])
  }

  /** The first file of `ps` that exists (`iter().find(|p| p.exists())`). */
  function FirstExisting(ps: seq<Path>, fs: Fs): (r: Option<Path>)
    ensures r.Some? ==> exists d: nat :: FirstExistingAt(fs, ps, d) && ps[d] == r.value
    ensures r.None? <==> forall i :: 0 <= i < |ps| ==> !Exists(fs, ps[i])
  {
    Find(ps, p => Exists(fs, p))
  }

  /** `detect_antigravity_executable`: the first file of the system's list that exists;
      nothing on a system without a list. */
  function DetectExecutable(env: Env, fs: Fs): (r: Option<Path>)
    ensures env.os.OtherOs? ==> r.None?
  {
    FirstExisting(StartPaths(env), fs)
  }

  // ---------------------------------------------------------------- entry point

  /** The configured executable can be used: it was read, is set, exists and is a file. */
  predicate CustomExecutableUsable(customExec: Result<Option<string>, string>, fs: Fs) {
    customExec.Ok? && customExec.value.Some? && Exists(fs, [customExec.value.value]) && IsFile(fs, [customExec.value.value])
  }

  /** `start_antigravity`. A usable custom executable is the only program spawned, and
      its failure is final; otherwise the system's own list is used, and an
      unsupported system is an error with nothing spawned. */
  method StartAntigravity(customExec: Result<Option<string>, string>, env: Env, fs: Fs, refused: SpawnFailures, display: Path -> string)
    returns (r: Result<string, string>, spawned: seq<Program>)
    ensures CustomExecutableUsable(customExec, fs) ==>
      var exe := [customExec.value.value];
      spawned == [AtPath(exe)]
      && r == (if AtPath(exe) in refused then Err("无法启动自定义 Antigravity: " + (SpawnFailedPrefix + refused[AtPath(exe)]) + ". 请检查路径是否正确")
               else Ok("成功启动应用程序"))
    ensures !CustomExecutableUsable(customExec, fs) && env.os.OtherOs? ==> r == Err("不支持的操作系统") && spawned == []
    ensures !CustomExecutableUsable(customExec, fs) && !env.os.OtherOs? ==>
      r == FallbackOutcome(StartPaths(env), StartCommands(env.os), fs, refused, display)
      && spawned == FallbackSpawned(StartPaths(env), StartCommands(env.os), fs, refused)
  {
    if customExec.Ok? && customExec.value.Some? {
      var path := [customExec.value.value];
      if Exists(fs, path) && IsFile(fs, path) {
        spawned := [AtPath(path)];
        var started := TryStartFromPath(path, refused);
        if started.Ok? {
          r := started;
        } else {
          r := Err("无法启动自定义 Antigravity: " + started.error + ". 请检查路径是否正确");
        }
        return;
      }
    }
    if env.os.OtherOs? {
      return Err("不支持的操作系统"), [];
    }
    r, spawned := StartWithFallbacks(StartPaths(env), StartCommands(env.os), fs, refused, display);
  }

  /** Detection and launching agree: without a custom executable, the file detection
      reports is the first program the launcher spawns, and it is started unless its
      spawn fails. */
  lemma DetectedIsLaunchedFirst(env: Env, fs: Fs, refused: SpawnFailures, display: Path -> string)
    requires DetectExecutable(env, fs).Some?
    ensures var spawned := FallbackSpawned(StartPaths(env), StartCommands(env.os), fs, refused);
      |spawned| > 0 && spawned[0] == AtPath(DetectExecutable(env, fs).value)
    ensures AtPath(DetectExecutable(env, fs).value) !in refused ==>
      FallbackOutcome(StartPaths(env), StartCommands(env.os), fs, refused, display)
        == Ok("Antigravity启动成功 (" + display(DetectExecutable(env, fs).value) + ")")
  {
    FirstExistingIsLaunchedFirst(StartPaths(env), StartCommands(env.os), fs, refused, display);
  }

  /** The first existing file of a list is the first program the per-system start
      spawns, and it is started unless its spawn fails. */
  lemma FirstExistingIsLaunchedFirst(ps: seq<Path>, commands: seq<string>, fs: Fs, refused: SpawnFailures, display: Path -> string)
    requires FirstExisting(ps, fs).Some?
    ensures var spawned := FallbackSpawned(ps, commands, fs, refused);
      |spawned| > 0 && spawned[0] == AtPath(FirstExisting(ps, fs).value)
    ensures AtPath(FirstExisting(ps, fs).value) !in refused ==>
      FallbackOutcome(ps, commands, fs, refused, display)
        == Ok("Antigravity启动成功 (" + display(FirstExisting(ps, fs).value) + ")")
  {
    var d: nat :| FirstExistingAt(fs, ps, d) && ps[d] == FirstExisting(ps, fs).value;
    FirstExistingSpawnedFirst(ps, commands, fs, refused, d);
    if AtPath(ps[d]) !in refused {
      FirstExistingLaunches(ps, fs, refused, d);
    }
  }

  /** The first existing listed file is the first program spawned. */
  lemma FirstExistingSpawnedFirst(ps: seq<Path>, commands: seq<string>, fs: Fs, refused: SpawnFailures, d: nat)
    requires d < |ps| && Exists(fs, ps[d])
    requires forall j :: 0 <= j < d ==> !Exists(fs, ps[j])
    ensures var spawned := FallbackSpawned(ps, commands, fs, refused);
      |spawned| > 0 && spawned[0] == AtPath(ps[d])
  {
    var k := FirstIndex(ps, LaunchableIn(fs, refused));
    var n := if k.Some? then k.value + 1 else |ps|;
    assert d < n by {
      if k.Some? {
        assert LaunchableIn(fs, refused)(ps[k.value]);
      }
    }
    SpawnedHead(fs, ps, d, n);
    if k.None? {
      assert ps[..n] == ps;
    }
  }

  /** Scanning any prefix that reaches the first existing file spawns that file first. */
  lemma SpawnedHead(fs: Fs, ps: seq<Path>, d: nat, n: nat)
    requires d < n <= |ps| && Exists(fs, ps[d])
    requires forall j :: 0 <= j < d ==> !Exists(fs, ps[j])
    ensures |SpawnedPaths(fs, ps[..n])| > 0 && SpawnedPaths(fs, ps[..n])[0] == AtPath(ps[d])
  {
    SpawnedPathsSkipMissing(fs, ps, d);
    SpawnedPathsPrefix(fs, ps[..n], d);
    assert ps[..n][..d + 1] == ps[..d + 1];
  }

  /** The first existing listed file, when it spawns, is where the scan stops. */
  lemma FirstExistingLaunches(ps: seq<Path>, fs: Fs, refused: SpawnFailures, d: nat)
    requires d < |ps| && Exists(fs, ps[d]) && AtPath(ps[d]) !in refused
    requires forall j :: 0 <= j < d ==> !Exists(fs, ps[j])
    ensures FirstIndex(ps, LaunchableIn(fs, refused)) == Some(d)
  {
    var p := LaunchableIn(fs, refused);
    assert forall j :: 0 <= j < d ==> !p(ps[j]);
    FirstIndexAt(ps, p, d);
  }

  /** With no file before `d` existing, scanning up to `d` spawns just `ps[d]`. */
  lemma {:induction false} SpawnedPathsSkipMissing(fs: Fs, ps: seq<Path>, d: nat)
    requires d < |ps| && Exists(fs, ps[d])
    requires forall j :: 0 <= j < d ==> !Exists(fs, ps[j])
    ensures SpawnedPaths(fs, ps[..d + 1]) == [AtPath(ps[d])]
  {
    assert ps[..d + 1][..d] == ps[..d];
    NoneSpawned(fs, ps[..d]);
  }

  lemma {:induction false} NoneSpawned(fs: Fs, ps: seq<Path>)
    requires forall j :: 0 <= j < |ps| ==> !Exists(fs, ps[j])
    ensures SpawnedPaths(fs, ps) == []
    decreases |ps|
  {
    if |ps| > 0 {
      NoneSpawned(fs, ps[..|ps| - 1]);
    }
  }

  /** Scanning more of the list only appends. */
  lemma {:induction false} SpawnedPathsPrefix(fs: Fs, ps: seq<Path>, d: nat)
    requires d < |ps|
    ensures |SpawnedPaths(fs, ps[..d + 1])| <= |SpawnedPaths(fs, ps)|
    ensures SpawnedPaths(fs, ps)[..|SpawnedPaths(fs, ps[..d + 1])|] == SpawnedPaths(fs, ps[..d + 1])
    decreases |ps|
  {
    if d + 1 < |ps| {
      SpawnedPathsPrefix(fs, ps[..|ps| - 1], d);
      assert ps[..|ps| - 1][..d + 1] == ps[..d + 1];
    } else {
      assert ps[..d + 1] == ps;
    }
  }
}
