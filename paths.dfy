/** Path construction (src-tauri/src/path_utils.rs, `AppPaths`): where Antigravity
    keeps its data, where its executable may be installed, and the agent's own
    configuration, log and backup directories. The platform's base directories (the
    `dirs` crate) and environment variables are inputs, gathered in `Env`. */
module Paths {
  import opened Wrappers
  import opened FileSystem

  /** `std::env::consts::OS`. */
  datatype Os = Windows | MacOs | Linux | OtherOs(name: string)

  /** The base directories the `dirs` crate reports (None when it cannot tell) and the
      environment variables the core reads. */
  datatype Env = Env(
    os: Os,
    configDir: Option<Path>,       // dirs::config_dir()
    dataDir: Option<Path>,         // dirs::data_dir()
    dataLocalDir: Option<Path>,    // dirs::data_local_dir()
    homeDir: Option<Path>,         // dirs::home_dir()
    programFiles: Option<Path>,    // %ProgramFiles%
    programFilesX86: Option<Path>, // %ProgramFiles(x86)%
    appData: Option<Path>          // %APPDATA%
  )

  const GlobalStorageSuffix: seq<string> := ["Antigravity", "User", "globalStorage"]

  /** `<base>/Antigravity/User/globalStorage`, for a base that may be missing. */
  function GlobalStorageUnder(base: Option<Path>): Option<Path> {
    if base.Some? then Some(base.value + GlobalStorageSuffix) else None
  }

  /** `AppPaths::antigravity_data_dir`: Windows builds on the configuration directory,
      macOS on the data directory, Linux on the configuration directory and falls back
      to the data directory only when there is none, any other system on the data
      directory. */
  function AntigravityDataDir(env: Env): (r: Option<Path>)
    ensures env.os == Windows ==> r == GlobalStorageUnder(env.configDir)
    ensures env.os == MacOs || env.os.OtherOs? ==> r == GlobalStorageUnder(env.dataDir)
    ensures env.os == Linux && env.configDir.Some? ==> r == Some(env.configDir.value + GlobalStorageSuffix)
    ensures env.os == Linux && env.configDir.None? ==> r == GlobalStorageUnder(env.dataDir)
    ensures r.Some? ==> |r.value| >= 3 && r.value[|r.value| - 3..] == GlobalStorageSuffix
  {
    match env.os
    case Windows => GlobalStorageUnder(env.configDir)
    case MacOs => GlobalStorageUnder(env.dataDir)
    case Linux => GlobalStorageUnder(env.configDir).OrElse(GlobalStorageUnder(env.dataDir))
    case OtherOs(_) => GlobalStorageUnder(env.dataDir)
  }

  /** At most one path built from an optional base. */
  function Under(base: Option<Path>, rest: seq<string>): (r: seq<Path>)
    ensures |r| == (if base.Some? then 1 else 0)
    ensures base.Some? ==> r == [base.value + rest]
  {
    if base.Some? then [base.value + rest] else []
  }

  /** Windows install locations in search order: the per-user Programs folder of the
      local data directory, the two locations under the home directory, then Program
      Files and Program Files (x86). */
  function WindowsExecutablePaths(env: Env): seq<Path> {
    Under(env.dataLocalDir, ["Programs", "Antigravity", "Antigravity.exe"])
    + (if env.homeDir.Some? then
         [env.homeDir.value + ["AppData", "Local", "Programs", "Antigravity", "Antigravity.exe"],
          env.homeDir.value + ["AppData", "Roaming", "Local", "Programs", "Antigravity", "Antigravity.exe"]]
       else [])
    + Under(env.programFiles, ["Antigravity", "Antigravity.exe"])
    + Under(env.programFilesX86, ["Antigravity", "Antigravity.exe"])
  }

  /** Each location that exists comes in its place: the local data directory's first,
      then the two under the home directory (which differ), then Program Files, and
      Program Files (x86) last; every candidate names `Antigravity.exe`. */
  lemma WindowsSearchOrder(env: Env)
    ensures var ps := WindowsExecutablePaths(env);
      var local := if env.dataLocalDir.Some? then 1 else 0;
      var k := local + (if env.homeDir.Some? then 2 else 0);
      && |ps| == k + (if env.programFiles.Some? then 1 else 0) + (if env.programFilesX86.Some? then 1 else 0)
      && (env.dataLocalDir.Some? ==> ps[0] == env.dataLocalDir.value + ["Programs", "Antigravity", "Antigravity.exe"])
      && (env.homeDir.Some? ==>
            ps[local] == env.homeDir.value + ["AppData", "Local", "Programs", "Antigravity", "Antigravity.exe"]
            && ps[local + 1] == env.homeDir.value + ["AppData", "Roaming", "Local", "Programs", "Antigravity", "Antigravity.exe"]
            && ps[local] != ps[local + 1])
      && (env.programFiles.Some? ==> ps[k] == env.programFiles.value + ["Antigravity", "Antigravity.exe"])
      && (env.programFilesX86.Some? ==> ps[|ps| - 1] == env.programFilesX86.value + ["Antigravity", "Antigravity.exe"])
      && forall i :: 0 <= i < |ps| ==> |ps[i]| > 0 && ps[i][|ps[i]| - 1] == "Antigravity.exe"
  {
    var ps := WindowsExecutablePaths(env);
    var local := Under(env.dataLocalDir, ["Programs", "Antigravity", "Antigravity.exe"]);
    var home := if env.homeDir.Some? then
         [env.homeDir.value + ["AppData", "Local", "Programs", "Antigravity", "Antigravity.exe"],
          env.homeDir.value + ["AppData", "Roaming", "Local", "Programs", "Antigravity", "Antigravity.exe"]]
       else [];
    var pf := Under(env.programFiles, ["Antigravity", "Antigravity.exe"]);
    var pfx := Under(env.programFilesX86, ["Antigravity", "Antigravity.exe"]);
    assert ps == local + home + pf + pfx;
    if env.homeDir.Some? {
      var h := env.homeDir.value;
      assert home[0][|h| + 1] != home[1][|h| + 1];
    }
    forall i | 0 <= i < |ps| ensures |ps[i]| > 0 && ps[i][|ps[i]| - 1] == "Antigravity.exe" {
      if i < |local| {
        assert ps[i] == local[i];
      } else if i < |local| + |home| {
        assert ps[i] == home[i - |local|];
      } else if i < |local| + |home| + |pf| {
        assert ps[i] == pf[i - |local| - |home|];
      } else {
        assert ps[i] == pfx[i - |local| - |home| - |pf|];
      }
    }
  }

  /** The four application bundle names in the order macOS is searched. */
  const MacAppNames: seq<string> := ["Antigravity.app", "Antigravity-electron.app", "Antigravity-alpha.app", "Antigravity-beta.app"]

  /** The four bundle names under one applications folder. */
  function BundlesIn(dir: Path): (r: seq<Path>)
    ensures |r| == |MacAppNames|
    ensures forall k :: 0 <= k < |r| ==> r[k] == dir + [MacAppNames[k]]
  {
    seq(|MacAppNames|, k requires 0 <= k < |MacAppNames| => dir + [MacAppNames[k]])
  }

  /** The macOS search list: the bundles in /Applications, then the same bundles in
      ~/Applications when there is a home directory. */
  function MacAppPathList(home: Option<Path>): seq<Path> {
    BundlesIn(["/Applications"]) + (if home.Some? then BundlesIn(home.value + ["Applications"]) else [])
  }

  /** `macos_antigravity_app_paths`: two loops pushing one path per bundle name. */
  method MacAppPaths(home: Option<Path>) returns (paths: seq<Path>)
    ensures paths == MacAppPathList(home)
  {
    paths := [];
    // get_applications_dir() is `Some("/Applications")` on macOS
    var applications: Option<Path> := Some(["/Applications"]);
    if applications.Some? {
      for i := 0 to |MacAppNames|
        invariant paths == BundlesIn(applications.value)[..i]
      {
        paths := paths + [applications.value + [MacAppNames[i]]];
      }
    }
    if home.Some? {
      var userApps := home.value + ["Applications"];
      var system := paths;
      for i := 0 to |MacAppNames|
        invariant paths == system + BundlesIn(userApps)[..i]
      {
        paths := paths + [userApps + [MacAppNames[i]]];
      }
    }
  }

  /** With a home directory the macOS list has eight entries, the four names under
      /Applications first, then the same four names in the same order under
      ~/Applications; without one it has only the first four. */
  lemma MacAppPathsLayout(home: Option<Path>)
    ensures var ps := MacAppPathList(home);
      && |ps| == (if home.Some? then 8 else 4)
      && (forall k :: 0 <= k < 4 ==> ps[k] == ["/Applications", MacAppNames[k]])
      && (home.Some? ==> forall k :: 0 <= k < 4 ==> ps[4 + k] == home.value + ["Applications", MacAppNames[k]])
  {
    var ps := MacAppPathList(home);
    if home.Some? {
      forall k | 0 <= k < 4 ensures ps[4 + k] == home.value + ["Applications", MacAppNames[k]] {
        assert ps[4 + k] == BundlesIn(home.value + ["Applications"])[k];
        assert home.value + ["Applications"] + [MacAppNames[k]] == home.value + ["Applications", MacAppNames[k]];
      }
    }
  }

  /** Linux install locations: three system paths, two under the home directory, the
      snap path, the home AppImage, the system flatpak export and the user's flatpak
      export. */
  function LinuxExecutablePaths(env: Env): seq<Path> {
    [["/usr/bin/antigravity"], ["/usr/local/bin/antigravity"], ["/usr/share/antigravity/antigravity"]]
    + (if env.homeDir.Some? then
         [env.homeDir.value + [".local", "bin", "antigravity"], env.homeDir.value + ["bin", "antigravity"]]
       else [])
    + [["/snap/bin/antigravity"]]
    + Under(env.homeDir, ["Applications", "Antigravity.AppImage"])
    + [["/var/lib/flatpak/exports/bin/antigravity"]]
    + Under(env.homeDir, [".local", "share", "flatpak", "exports", "bin", "antigravity"])
  }

  lemma LinuxSearchOrder(env: Env)
    ensures var ps := LinuxExecutablePaths(env);
      && |ps| == (if env.homeDir.Some? then 9 else 5)
      && ps[..3] == [["/usr/bin/antigravity"], ["/usr/local/bin/antigravity"], ["/usr/share/antigravity/antigravity"]]
      && (env.homeDir.None? ==> ps[3..] == [["/snap/bin/antigravity"], ["/var/lib/flatpak/exports/bin/antigravity"]])
  {
  }

  /** `AppPaths::antigravity_executable_paths`: the list for the running system, and
      no candidates at all on any other system. */
  function ExecutablePaths(env: Env): (r: seq<Path>)
    ensures env.os.OtherOs? ==> r == []
    ensures env.os == MacOs ==> r == MacAppPathList(env.homeDir)
    ensures env.os == Linux ==> |r| >= 5
  {
    match env.os
    case Windows => WindowsExecutablePaths(env)
    case MacOs => MacAppPathList(env.homeDir)
    case Linux => LinuxExecutablePaths(env)
    case OtherOs(_) => []
  }

  const AgentDirName := ".antigravity-agent"

  /** `AppPaths::config_dir`: `<config>/.antigravity-agent`, absent exactly when the
      platform has no configuration directory. */
  function ConfigDir(env: Env): (r: Option<Path>)
    ensures r.None? <==> env.configDir.None?
    ensures r.Some? ==> r.value == env.configDir.value + [AgentDirName]
  {
    if env.configDir.Some? then Some(env.configDir.value + [AgentDirName]) else None
  }

  /** One more component under the agent's configuration directory. */
  function UnderConfig(env: Env, name: string): (r: Option<Path>)
    ensures r.None? <==> ConfigDir(env).None?
    ensures r.Some? ==> r.value == ConfigDir(env).value + [name]
  {
    if ConfigDir(env).Some? then Some(ConfigDir(env).value + [name]) else None
  }

  /** `AppPaths::log_dir`. */
  function LogDir(env: Env): Option<Path> { UnderConfig(env, "logs") }

  /** `AppPaths::backup_dir`, where account backups are kept. */
  function BackupDir(env: Env): Option<Path> { UnderConfig(env, "antigravity-accounts") }

  /** `AppPaths::profile_backup_dir`. */
  function ProfileBackupDir(env: Env): Option<Path> { UnderConfig(env, "backups") }

  /** The three agent directories exist together, are exactly one component below the
      configuration directory, and are pairwise different. */
  lemma AgentDirectories(env: Env)
    ensures LogDir(env).Some? <==> env.configDir.Some?
    ensures BackupDir(env).Some? <==> env.configDir.Some?
    ensures ProfileBackupDir(env).Some? <==> env.configDir.Some?
    ensures env.configDir.Some? ==>
      var c := env.configDir.value + [AgentDirName];
      && LogDir(env).value == c + ["logs"]
      && BackupDir(env).value == c + ["antigravity-accounts"]
      && ProfileBackupDir(env).value == c + ["backups"]
      && LogDir(env) != BackupDir(env) && BackupDir(env) != ProfileBackupDir(env) && LogDir(env) != ProfileBackupDir(env)
  {
    if env.configDir.Some? {
      var c := env.configDir.value + [AgentDirName];
      assert LogDir(env).value[|c|] == "logs";
      assert BackupDir(env).value[|c|] == "antigravity-accounts";
      assert ProfileBackupDir(env).value[|c|] == "backups";
    }
  }
}
