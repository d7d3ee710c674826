/** Antigravity process recognition, database location and process termination
    (src-tauri/src/platform_utils.rs). The running processes and the outcome of each
    kill request are inputs: `Process` values in the order sysinfo lists them, and
    `KillOutcomes` saying which requests the operating system refuses. */
module ProcessMatching {
  import opened Wrappers
  import Text
  import opened Seqs
  import opened FileSystem
  import opened Paths

  /** `ProcessPattern`: how one pattern looks at a process. */
  datatype ProcessPattern =
    | ExactName(name: string)     // the process name equals the text
    | Contains(text: string)      // the name or the command line contains the text
    | EndsWith(suffix: string)    // the name or the command line ends with the text
    | CmdContains(text: string)   // the command line contains the text
    | CmdEndsWith(suffix: string) // the command line ends with the text

  /** One arm of the match in `matches_antigravity_process`. */
  predicate PatternMatches(name: string, cmd: string, p: ProcessPattern) {
    match p
    case ExactName(n) => name == n
    case Contains(t) => Text.Contains(name, t) || Text.Contains(cmd, t)
    case EndsWith(x) => Text.IsSuffix(x, name) || Text.IsSuffix(x, cmd)
    case CmdContains(t) => Text.Contains(cmd, t)
    case CmdEndsWith(x) => Text.IsSuffix(x, cmd)
  }

  /** `matches_antigravity_process`: the scan returns true at the first pattern that
      matches, so it holds exactly when some pattern of the list matches; an empty
      list matches nothing. */
  function MatchesProcess(name: string, cmd: string, patterns: seq<ProcessPattern>): (r: bool)
    ensures r <==> exists i :: 0 <= i < |patterns| && PatternMatches(name, cmd, patterns[i])
  {
    if |patterns| == 0 then false
    else if PatternMatches(name, cmd, patterns[0]) then true
    else
      var rest := MatchesProcess(name, cmd, patterns[1..]);
      assert forall i :: 1 <= i < |patterns| ==> patterns[i] == patterns[1..][i - 1];
      rest
  }

  /** What each kind of pattern looks at: ExactName only the name, the Cmd kinds only
      the command line, Contains and EndsWith either of the two. */
  lemma PatternScope(p: ProcessPattern, name: string, cmd: string, otherName: string, otherCmd: string)
    ensures p.ExactName? ==> (PatternMatches(name, cmd, p) <==> name == p.name)
    ensures p.ExactName? ==> PatternMatches(name, cmd, p) == PatternMatches(name, otherCmd, p)
    ensures p.Contains? ==> (PatternMatches(name, cmd, p) <==> Text.Contains(name, p.text) || Text.Contains(cmd, p.text))
    ensures p.EndsWith? ==> (PatternMatches(name, cmd, p) <==> Text.IsSuffix(p.suffix, name) || Text.IsSuffix(p.suffix, cmd))
    ensures p.CmdContains? || p.CmdEndsWith? ==> PatternMatches(name, cmd, p) == PatternMatches(otherName, cmd, p)
  {
  }

  /** A list of command-line-only patterns gives the same verdict whatever the name. */
  lemma {:induction false} CommandLineOnlyPatternsIgnoreName(name: string, otherName: string, cmd: string, patterns: seq<ProcessPattern>)
    requires forall i :: 0 <= i < |patterns| ==> patterns[i].CmdContains? || patterns[i].CmdEndsWith?
    ensures MatchesProcess(name, cmd, patterns) == MatchesProcess(otherName, cmd, patterns)
  {
    if |patterns| > 0 {
      CommandLineOnlyPatternsIgnoreName(name, otherName, cmd, patterns[1..]);
    }
  }

  /** A list of ExactName patterns gives the same verdict whatever the command line. */
  lemma {:induction false} ExactNamePatternsIgnoreCommandLine(name: string, cmd: string, otherCmd: string, patterns: seq<ProcessPattern>)
    requires forall i :: 0 <= i < |patterns| ==> patterns[i].ExactName?
    ensures MatchesProcess(name, cmd, patterns) == MatchesProcess(name, otherCmd, patterns)
  {
    if |patterns| > 0 {
      ExactNamePatternsIgnoreCommandLine(name, cmd, otherCmd, patterns[1..]);
    }
  }

  /** `matches_antigravity_process_for_debug`: matching against the one-element list. */
  function MatchesProcessForDebug(name: string, cmd: string, pattern: ProcessPattern): (r: bool)
    ensures r == PatternMatches(name, cmd, pattern)
  {
    MatchesProcess(name, cmd, [pattern])
  }

  /** `get_antigravity_process_patterns` (and its `_for_debug` twin): the patterns for
      each system, in priority order. */
  function ProcessPatterns(os: Os): seq<ProcessPattern> {
    match os
    case MacOs => [
      ExactName("Antigravity"), ExactName("Antigravity.app"), ExactName("Electron"),
      Contains("Antigravity"), Contains("Antigravity Helper"),
      EndsWith("(Renderer)"), EndsWith("(GPU)"),
      CmdContains("Antigravity.app"), CmdContains("/Applications/Antigravity"), CmdContains("Applications/Antigravity"),
      CmdEndsWith(".app/Contents/MacOS/Electron"), CmdEndsWith(".app/Contents/MacOS/Antigravity")]
    case Windows => [
      ExactName("Antigravity.exe"), ExactName("Antigravity"), Contains("Antigravity"), CmdContains("Antigravity.exe")]
    case Linux => [
      ExactName("antigravity"), ExactName("Antigravity"), Contains("Antigravity"),
      CmdContains("antigravity"), CmdContains("Antigravity.AppImage")]
    case OtherOs(_) => [Contains("Antigravity"), Contains("antigravity")]
  }

  /** Every system's list holds `Contains("Antigravity")`, so on every system a process
      whose name or command line contains "Antigravity" is recognised. */
  lemma AntigravityTextAlwaysMatches(os: Os, name: string, cmd: string)
    requires Text.Contains(name, "Antigravity") || Text.Contains(cmd, "Antigravity")
    ensures MatchesProcess(name, cmd, ProcessPatterns(os))
  {
    var ps := ProcessPatterns(os);
    var k := match os case MacOs => 3 case Windows => 2 case Linux => 2 case OtherOs(_) => 0;
    assert PatternMatches(name, cmd, ps[k]);
  }

  /** On macOS every process named "Electron" is recognised, whatever it runs. */
  lemma AnyElectronMatchesOnMac(cmd: string)
    ensures MatchesProcess("Electron", cmd, ProcessPatterns(MacOs))
  {
    assert PatternMatches("Electron", cmd, ProcessPatterns(MacOs)[2]);
  }

  /** On Linux any command line containing "antigravity" is recognised; a process
      started as ".../antigravity-agent" is one of them. */
  lemma LowercaseCommandLineMatchesOnLinux(name: string, cmd: string)
    requires Text.Contains(cmd, "antigravity")
    ensures MatchesProcess(name, cmd, ProcessPatterns(Linux))
  {
    assert PatternMatches(name, cmd, ProcessPatterns(Linux)[3]);
  }

  const StateDbName := "state.vscdb"

  /** The user's custom data directory (as `get_custom_data_path` reported it) can be
      used: it was read, is set, and `<custom>/state.vscdb` exists and is a file. */
  predicate CustomDbUsable(customData: Result<Option<string>, string>, fs: Fs) {
    customData.Ok? && customData.value.Some?
    && Exists(fs, [customData.value.value, StateDbName]) && IsFile(fs, [customData.value.value, StateDbName])
  }

  /** `get_antigravity_db_path`: the custom data directory's database when it is
      usable, otherwise `state.vscdb` in the detected data directory. */
  function DbPath(customData: Result<Option<string>, string>, fs: Fs, env: Env): (r: Option<Path>)
    ensures CustomDbUsable(customData, fs) ==> r == Some([customData.value.value, StateDbName])
    ensures !CustomDbUsable(customData, fs) ==>
      r == (if AntigravityDataDir(env).Some? then Some(AntigravityDataDir(env).value + [StateDbName]) else None)
    ensures r.Some? ==> |r.value| >= 2 && r.value[|r.value| - 1] == StateDbName
  {
    if CustomDbUsable(customData, fs) then Some([customData.value.value, StateDbName])
    else match AntigravityDataDir(env)
      case None => None
      case Some(dir) => Some(dir + [StateDbName])
  }

  /** `is_antigravity_available`: the database path exists. */
  function IsAntigravityAvailable(customData: Result<Option<string>, string>, fs: Fs, env: Env): (r: bool)
    ensures r <==> DbPath(customData, fs, env).Some? && Exists(fs, DbPath(customData, fs, env).value)
    ensures CustomDbUsable(customData, fs) ==> r
  {
    match DbPath(customData, fs, env)
    case None => false
    case Some(p) => Exists(fs, p)
  }

  /** `find_antigravity_installations`: `<data>/Antigravity`, then `<config>/Antigravity`. */
  function FindInstallations(env: Env): (r: seq<Path>)
    ensures |r| <= 2
    ensures forall i :: 0 <= i < |r| ==> |r[i]| > 0 && r[i][|r[i]| - 1] == "Antigravity"
  {
    Under(env.dataDir, ["Antigravity"]) + Under(env.configDir, ["Antigravity"])
  }

  /** The database found through one read_dir item of `dir`: a file entry named
      `state.vscdb`. Items that are errors are skipped (`entries.flatten()`). */
  function EntryDb(fs: Fs, dir: Path, e: DirEntry): seq<Path> {
    if e.Entry? && e.name == StateDbName && IsFile(fs, dir + [e.name]) then [dir + [e.name]] else []
  }

  /** The databases found among the first items of a listing. */
  function EntriesDbs(fs: Fs, dir: Path, es: seq<DirEntry>): seq<Path>
    decreases |es|
  {
    if |es| == 0 then [] else EntriesDbs(fs, dir, es[..|es| - 1]) + EntryDb(fs, dir, es[|es| - 1])
  }

  /** The databases found directly inside one installation directory, if it exists and
      can be listed. */
  function InstallDbs(fs: Fs, dir: Path): seq<Path> {
    if !Exists(fs, dir) then []
    else match ReadDir(fs, dir)
      case ListError(_) => []
      case Listed(es) => EntriesDbs(fs, dir, es)
  }

  /** The databases of the first installation directories. */
  function InstallsDbs(fs: Fs, dirs: seq<Path>): seq<Path>
    decreases |dirs|
  {
    if |dirs| == 0 then [] else InstallsDbs(fs, dirs[..|dirs| - 1]) + InstallDbs(fs, dirs[|dirs| - 1])
  }

  function OptionToSeq<T>(o: Option<T>): seq<T> {
    if o.Some? then [o.value] else []
  }

  /** An existing file named `state.vscdb`. */
  predicate IsStateDb(fs: Fs, p: Path) {
    IsFile(fs, p) && |p| > 0 && p[|p| - 1] == StateDbName
  }

  /** Every database found in a listing is a `state.vscdb` file directly inside `dir`. */
  lemma {:induction false} EntriesDbsAreStateDbs(fs: Fs, dir: Path, es: seq<DirEntry>)
    ensures forall p :: p in EntriesDbs(fs, dir, es) ==> IsStateDb(fs, p) && p[..|p| - 1] == dir
    decreases |es|
  {
    if |es| > 0 {
      EntriesDbsAreStateDbs(fs, dir, es[..|es| - 1]);
    }
  }

  /** Every database found in the installation directories is a `state.vscdb` file. */
  lemma {:induction false} InstallsDbsAreStateDbs(fs: Fs, dirs: seq<Path>)
    ensures forall p :: p in InstallsDbs(fs, dirs) ==> IsStateDb(fs, p)
    decreases |dirs|
  {
    if |dirs| > 0 {
      InstallsDbsAreStateDbs(fs, dirs[..|dirs| - 1]);
      var d := dirs[|dirs| - 1];
      if Exists(fs, d) && ReadDir(fs, d).Listed? {
        EntriesDbsAreStateDbs(fs, d, ReadDir(fs, d).entries);
      }
    }
  }

  /** The list `get_all_antigravity_db_paths` builds. */
  function DbPathList(customData: Result<Option<string>, string>, fs: Fs, env: Env): seq<Path> {
    DbListFrom(fs, DbPath(customData, fs, env), FindInstallations(env))
  }

  function DbListFrom(fs: Fs, primary: Option<Path>, dirs: seq<Path>): seq<Path> {
    OptionToSeq(primary) + InstallsDbs(fs, dirs)
  }

  /** The primary database comes first; every other entry is an existing file named
      `state.vscdb`. */
  lemma DbListLayout(fs: Fs, primary: Option<Path>, dirs: seq<Path>)
    ensures var r := DbListFrom(fs, primary, dirs);
      primary.Some? ==> |r| > 0 && r[0] == primary.value
    ensures var r := DbListFrom(fs, primary, dirs); var k := |OptionToSeq(primary)|;
      forall i :: k <= i < |r| ==> IsFile(fs, r[i]) && |r[i]| > 0 && r[i][|r[i]| - 1] == StateDbName
  {
    var rest := InstallsDbs(fs, dirs);
    InstallsDbsAreStateDbs(fs, dirs);
    var r := OptionToSeq(primary) + rest;
    forall i | |OptionToSeq(primary)| <= i < |r|
      ensures IsStateDb(fs, r[i])
    {
      assert r[i] == rest[i - |OptionToSeq(primary)|];
    }
  }

  /** One iteration of the outer loop of `get_all_antigravity_db_paths`: the files
      named `state.vscdb` directly inside `dir`, when it exists and can be listed. */
  method ScanInstallation(fs: Fs, dir: Path) returns (found: seq<Path>)
    ensures found == InstallDbs(fs, dir)
  {
    found := [];
    if Exists(fs, dir) {
      var listing := ReadDir(fs, dir);
      if listing.Listed? {
        var es := listing.entries;
        for j := 0 to |es|
          invariant found == EntriesDbs(fs, dir, es[..j])
        {
          assert es[..j + 1][..j] == es[..j];
          var e := es[j];
          if e.Entry? {
            var path := dir + [e.name];
            if IsFile(fs, path) && e.name == StateDbName {
              found := found + [path];
            }
          }
        }
        assert es[..|es|] == es;
      }
    }
  }

  /** `get_all_antigravity_db_paths`: the primary database path first (when there is
      one), then every file named `state.vscdb` directly inside an existing
      installation directory, in directory and listing order. */
  method AllDbPaths(customData: Result<Option<string>, string>, fs: Fs, env: Env) returns (dbPaths: seq<Path>)
    ensures dbPaths == DbPathList(customData, fs, env)
  {
    var main := DbPath(customData, fs, env);
    var installs := FindInstallations(env);
    var found := ScanInstallations(fs, installs);
    dbPaths := OptionToSeq(main) + found;
  }

  /** The outer loop of `get_all_antigravity_db_paths`. */
  method ScanInstallations(fs: Fs, installs: seq<Path>) returns (found: seq<Path>)
    ensures found == InstallsDbs(fs, installs)
  {
    found := [];
    for i := 0 to |installs|
      invariant found == InstallsDbs(fs, installs[..i])
    {
      assert installs[..i + 1][..i] == installs[..i];
      var more := ScanInstallation(fs, installs[i]);
      found := found + more;
    }
    assert installs[..|installs|] == installs;
  }

  /** A running process as sysinfo reports it: its id, its name, and its arguments
      (joined with spaces into the command line the patterns look at). */
  datatype Process = Process(pid: nat, name: string, args: seq<string>)

  function CommandLine(p: Process): string {
    Text.Join(p.args, " ")
  }

  /** Which kill requests the system refuses: the first request for the processes in
      `firstRefused`, the second (repeated) request for those in `secondRefused`. */
  datatype KillOutcomes = KillOutcomes(firstRefused: set<nat>, secondRefused: set<nat>)

  /** An entry of `killed_processes`; `forced` marks a process that died on the retry. */
  datatype KilledProcess = KilledProcess(name: string, pid: nat, forced: bool)

  function KilledLabel(k: KilledProcess): string {
    k.name + " (PID: " + Text.NatToString(k.pid) + (if k.forced then " - 强制)" else ")")
  }

  predicate IsTarget(patterns: seq<ProcessPattern>, p: Process) {
    MatchesProcess(p.name, CommandLine(p), patterns)
  }

  /** What one loop iteration adds to `killed_processes`. */
  function KillOf(patterns: seq<ProcessPattern>, o: KillOutcomes, p: Process): seq<KilledProcess> {
    if !IsTarget(patterns, p) then []
    else if p.pid !in o.firstRefused then [KilledProcess(p.name, p.pid, false)]
    else if p.pid !in o.secondRefused then [KilledProcess(p.name, p.pid, true)]
    else []
  }

  /** The kill requests one loop iteration makes: none for a process that does not
      match, one when it succeeds, a second one after a refusal. */
  function AttemptsOf(patterns: seq<ProcessPattern>, o: KillOutcomes, p: Process): seq<nat> {
    if !IsTarget(patterns, p) then []
    else if p.pid !in o.firstRefused then [p.pid]
    else [p.pid, p.pid]
  }

  function KillsOf(patterns: seq<ProcessPattern>, o: KillOutcomes, ps: seq<Process>): seq<KilledProcess>
    decreases |ps|
  {
    if |ps| == 0 then [] else KillsOf(patterns, o, ps[..|ps| - 1]) + KillOf(patterns, o, ps[|ps| - 1])
  }

  function AttemptsOfAll(patterns: seq<ProcessPattern>, o: KillOutcomes, ps: seq<Process>): seq<nat>
    decreases |ps|
  {
    if |ps| == 0 then [] else AttemptsOfAll(patterns, o, ps[..|ps| - 1]) + AttemptsOf(patterns, o, ps[|ps| - 1])
  }

  const NoProcessFound := "未找到Antigravity进程"

  function KillMessage(killed: seq<KilledProcess>): string {
    "已成功关闭Antigravity进程: " + Text.Join(seq(|killed|, i requires 0 <= i < |killed| => KilledLabel(killed[i])), ", ")
  }

  /** `kill_antigravity_processes`: every listed process that matches the system's
      patterns gets a kill request, and a second one when the first is refused. The
      result is an error exactly when nothing was killed. */
  method KillAntigravityProcesses(os: Os, procs: seq<Process>, outcomes: KillOutcomes)
    returns (r: Result<string, string>, killed: seq<KilledProcess>, attempts: seq<nat>)
    ensures killed == KillsOf(ProcessPatterns(os), outcomes, procs)
    ensures attempts == AttemptsOfAll(ProcessPatterns(os), outcomes, procs)
    ensures r.Err? <==> killed == []
    ensures r.Err? ==> r.error == NoProcessFound
    ensures r.Ok? ==> r.value == KillMessage(killed)
  {
    var patterns := ProcessPatterns(os);
    killed, attempts := [], [];
    for i := 0 to |procs|
      invariant killed == KillsOf(patterns, outcomes, procs[..i])
      invariant attempts == AttemptsOfAll(patterns, outcomes, procs[..i])
    {
      assert procs[..i + 1][..i] == procs[..i];
      var p := procs[i];
      if MatchesProcess(p.name, CommandLine(p), patterns) {
        attempts := attempts + [p.pid];
        if p.pid !in outcomes.firstRefused {
          killed := killed + [KilledProcess(p.name, p.pid, false)];
        } else {
          attempts := attempts + [p.pid];
          if p.pid !in outcomes.secondRefused {
            killed := killed + [KilledProcess(p.name, p.pid, true)];
          }
        }
      }
    }
    assert procs[..|procs|] == procs;
    if killed == [] {
      r := Err(NoProcessFound);
    } else {
      r := Ok(KillMessage(killed));
    }
  }

  /** sysinfo lists each process id once. */
  predicate DistinctPids(ps: seq<Process>) {
    forall i, j :: 0 <= i < j < |ps| ==> ps[i].pid != ps[j].pid
  }

  lemma {:induction false} AttemptsOnlyForListed(patterns: seq<ProcessPattern>, o: KillOutcomes, ps: seq<Process>, pid: nat)
    requires forall i :: 0 <= i < |ps| ==> ps[i].pid != pid
    ensures multiset(AttemptsOfAll(patterns, o, ps))[pid] == 0
    decreases |ps|
  {
    if |ps| > 0 {
      AttemptsOnlyForListed(patterns, o, ps[..|ps| - 1], pid);
    }
  }

  /** No process receives more than two kill requests, and a process that does not
      match receives none. */
  lemma {:induction false} KillAttemptsBounded(patterns: seq<ProcessPattern>, o: KillOutcomes, ps: seq<Process>)
    requires DistinctPids(ps)
    ensures forall pid :: multiset(AttemptsOfAll(patterns, o, ps))[pid] <= 2
    ensures forall i :: 0 <= i < |ps| && !IsTarget(patterns, ps[i]) ==> ps[i].pid !in AttemptsOfAll(patterns, o, ps)
    decreases |ps|
  {
    if |ps| > 0 {
      var init, last := ps[..|ps| - 1], ps[|ps| - 1];
      KillAttemptsBounded(patterns, o, init);
      AttemptsOnlyForListed(patterns, o, init, last.pid);
      var all := AttemptsOfAll(patterns, o, ps);
      assert multiset(all) == multiset(AttemptsOfAll(patterns, o, init)) + multiset(AttemptsOf(patterns, o, last));
      forall pid ensures multiset(all)[pid] <= 2 {
        if pid == last.pid {
          assert multiset(AttemptsOf(patterns, o, last))[pid] <= 2;
        } else {
          assert multiset(AttemptsOf(patterns, o, last))[pid] == 0;
        }
      }
      forall i | 0 <= i < |ps| && !IsTarget(patterns, ps[i]) ensures ps[i].pid !in all {
        if i < |ps| - 1 {
          assert init[i] == ps[i];
          assert ps[i].pid !in AttemptsOfAll(patterns, o, init);
          assert ps[i].pid != last.pid;
        }
      }
    }
  }

  /** Everything killed was listed and matched the patterns. */
  lemma {:induction false} KilledAreMatchingTargets(patterns: seq<ProcessPattern>, o: KillOutcomes, ps: seq<Process>)
    ensures |KillsOf(patterns, o, ps)| <= |ps|
    ensures forall k :: k in KillsOf(patterns, o, ps) ==>
      exists i :: 0 <= i < |ps| && ps[i].pid == k.pid && ps[i].name == k.name && IsTarget(patterns, ps[i])
    decreases |ps|
  {
    if |ps| > 0 {
      var init := ps[..|ps| - 1];
      KilledAreMatchingTargets(patterns, o, init);
      forall k | k in KillsOf(patterns, o, ps)
        ensures exists i :: 0 <= i < |ps| && ps[i].pid == k.pid && ps[i].name == k.name && IsTarget(patterns, ps[i])
      {
        if k in KillsOf(patterns, o, init) {
          var i :| 0 <= i < |init| && init[i].pid == k.pid && init[i].name == k.name && IsTarget(patterns, init[i]);
          assert ps[i] == init[i];
        } else {
          assert ps[|ps| - 1].pid == k.pid;
        }
      }
    }
  }

  /** Every listed target gets a kill request, and is reported killed unless both of
      its requests are refused. */
  lemma {:induction false} TargetsAreKilled(patterns: seq<ProcessPattern>, o: KillOutcomes, ps: seq<Process>, i: nat)
    requires i < |ps| && IsTarget(patterns, ps[i])
    ensures ps[i].pid in AttemptsOfAll(patterns, o, ps)
    ensures !(ps[i].pid in o.firstRefused && ps[i].pid in o.secondRefused) ==>
      exists k :: k in KillsOf(patterns, o, ps) && k.pid == ps[i].pid && k.name == ps[i].name
    decreases |ps|
  {
    var init, last := ps[..|ps| - 1], ps[|ps| - 1];
    if i < |init| {
      assert init[i] == ps[i];
      TargetsAreKilled(patterns, o, init, i);
      if !(ps[i].pid in o.firstRefused && ps[i].pid in o.secondRefused) {
        var k :| k in KillsOf(patterns, o, init) && k.pid == ps[i].pid && k.name == ps[i].name;
        assert k in KillsOf(patterns, o, ps);
      }
    } else {
      assert AttemptsOf(patterns, o, last)[0] == last.pid;
      if !(last.pid in o.firstRefused && last.pid in o.secondRefused) {
        assert KillOf(patterns, o, last)[0] in KillsOf(patterns, o, ps);
      }
    }
  }

  /** With each process id listed once, no process is reported killed twice. */
  lemma {:induction false} KilledOnce(patterns: seq<ProcessPattern>, o: KillOutcomes, ps: seq<Process>)
    requires DistinctPids(ps)
    ensures var ks := KillsOf(patterns, o, ps);
      forall a, b :: 0 <= a < b < |ks| ==> ks[a].pid != ks[b].pid
    decreases |ps|
  {
    if |ps| > 0 {
      var init, last := ps[..|ps| - 1], ps[|ps| - 1];
      KilledOnce(patterns, o, init);
      KilledAreMatchingTargets(patterns, o, init);
      var before := KillsOf(patterns, o, init);
      var ks := KillsOf(patterns, o, ps);
      assert |KillOf(patterns, o, last)| <= 1;
      forall a, b | 0 <= a < b < |ks| ensures ks[a].pid != ks[b].pid {
        if b >= |before| {
          assert ks[b] == KillOf(patterns, o, last)[0] && ks[b].pid == last.pid;
          assert ks[a] == before[a] && ks[a] in before;
          var i :| 0 <= i < |init| && init[i].pid == ks[a].pid && init[i].name == ks[a].name && IsTarget(patterns, init[i]);
          assert ps[i] == init[i];
        }
      }
    }
  }

  /** `is_antigravity_running`: stops at the first matching process. */
  method IsAntigravityRunning(os: Os, procs: seq<Process>) returns (running: bool)
    ensures running <==> exists i :: 0 <= i < |procs| && IsTarget(ProcessPatterns(os), procs[i])
  {
    var patterns := ProcessPatterns(os);
    for i := 0 to |procs|
      invariant forall j :: 0 <= j < i ==> !IsTarget(patterns, procs[j])
    {
      if MatchesProcess(procs[i].name, CommandLine(procs[i]), patterns) {
        return true;
      }
    }
    return false;
  }
}
