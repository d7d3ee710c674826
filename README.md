# Antigravity Agent backend, modelled in Dafny

Antigravity Agent is a desktop companion for the Antigravity editor. This project models
its Rust backend, the crate under `src-tauri/src`. The backend:

- finds Antigravity's data directory, its `state.vscdb` database and its executable on
  Windows, macOS and Linux;
- recognises and kills Antigravity's processes;
- launches Antigravity, trying a list of executables and then shell commands;
- backs up the authentication entries of the database into per-account JSON files,
  then lists, collects, restores, deletes and clears those files;
- chains "kill, back up, clear, restart" and "kill, restore, restart" into the two
  account-switching commands;
- builds the system-tray menu and dispatches its clicks;
- keeps the window geometry between sessions;
- reports on the log file and decrypts configuration data the frontend encrypted.

There is one Dafny module per Rust file:

| module | file |
|---|---|
| `ProcessMatching` | `platform_utils.rs` |
| `Paths` | `path_utils.rs` |
| `Starter` | `antigravity_starter.rs` |
| `Backup` | `antigravity_backup.rs` |
| `SystemTray` | `system_tray.rs` |
| `WindowStates` | `window_state_manager.rs` |
| `Logging` | `commands/logging_commands.rs` |
| `PlatformCommands` | `commands/platform_commands.rs` |
| `MainCommands` | `main.rs` |

Five helper modules support them:

- `Wrappers`: `Option` and `Result`.
- `Text`: prefix, suffix, containment, join and decimal digits.
- `Seqs`: first index and filter.
- `FileSystem`: the file system as a value.
- `Json`: a JSON value.

How the environment is modelled:

- **File system.** It is a value, `FileSystem.Fs`: a map from path to file contents (or
  unreadable contents) plus the directory listings. Writing or removing a file yields a
  new `Fs` whose parent listing gains or loses the file's name; creating a directory
  adds it, with an empty listing, to its parent's listing.
- **Paths.** A path is the sequence of components the source passes to `join`, with no
  normalisation.
- **Outside world.** Everything else is a parameter of the operation:
  - environment variables and the directories that `dirs` reports (`Paths.Env`);
  - the running processes and the outcome of each kill;
  - which programs fail to spawn and why;
  - what `taskkill` or `pkill` answer;
  - JSON parsing and printing, base64 and UTF-8 decoding, and the clock.
- **Mutable state.** The crate's tray manager is a class with the fields that
  `system_tray.rs` updates in place, and its global `OnceCell` is a second class that
  holds a nullable reference to it.

`main.rs` declares its own inline `platform_utils` module (`main.rs:37-176`), and the
commands in `main.rs` call that one, not `platform_utils.rs`. It differs in two ways:

- its database path never consults a custom data directory;
- it kills by running `taskkill` or `pkill` instead of walking the process list.

`MainCommands` models that inline module separately from `ProcessMatching`. The
frontend's state, subscription and event layer has no source in this repository's Rust
crate, so it is not part of this model. The model follows the Rust code.

## Model

| member | source | states |
|---|---|---|
| ProcessMatching.MatchesProcess | src-tauri/src/platform_utils.rs:207-243 | a process matches exactly when at least one pattern of the list matches its name or command line |
| ProcessMatching.PatternScope | src-tauri/src/platform_utils.rs:210-239 | an exact-name pattern looks only at the name; contains and ends-with patterns accept either the name or the command line; command-line patterns ignore the name |
| ProcessMatching.CommandLineOnlyPatternsIgnoreName | src-tauri/src/platform_utils.rs:228-239 | with only command-line patterns, renaming the process never changes whether it matches |
| ProcessMatching.ExactNamePatternsIgnoreCommandLine | src-tauri/src/platform_utils.rs:210-215 | with only exact-name patterns, the command line never changes whether a process matches |
| ProcessMatching.MatchesProcessForDebug | src-tauri/src/platform_utils.rs:261-267 | the debug helper agrees with the matcher on a single pattern |
| ProcessMatching.AntigravityTextAlwaysMatches | src-tauri/src/platform_utils.rs:155-204 | on every operating system, a process whose name or command line contains "Antigravity" is a target |
| ProcessMatching.AnyElectronMatchesOnMac | src-tauri/src/platform_utils.rs:157-179 | on macOS any process named "Electron" is a target, whatever its command line (the pattern list is that broad) |
| ProcessMatching.LowercaseCommandLineMatchesOnLinux | src-tauri/src/platform_utils.rs:188-196 | on Linux a command line containing "antigravity" makes the process a target |
| ProcessMatching.DbPath | src-tauri/src/platform_utils.rs:11-25 | a usable custom data directory gives its `state.vscdb`; otherwise the database sits in the platform's data directory; any answer ends in `state.vscdb` |
| ProcessMatching.IsAntigravityAvailable | src-tauri/src/platform_utils.rs:29-33 | available exactly when the database path exists; a usable custom directory always counts as available |
| ProcessMatching.FindInstallations | src-tauri/src/platform_utils.rs:36-50 | at most two candidate installation directories, each named "Antigravity" |
| ProcessMatching.EntriesDbsAreStateDbs | src-tauri/src/platform_utils.rs:66-71 | every database found in a directory listing is a `state.vscdb` file directly inside that directory |
| ProcessMatching.InstallsDbsAreStateDbs | src-tauri/src/platform_utils.rs:62-75 | every database found across the installations is an existing `state.vscdb` file |
| ProcessMatching.DbListLayout | src-tauri/src/platform_utils.rs:53-78 | the primary path, when there is one, comes first; every later entry is an existing `state.vscdb` file |
| ProcessMatching.ScanInstallation | src-tauri/src/platform_utils.rs:62-75 | the loop over one installation's listing finds exactly the state databases in it |
| ProcessMatching.AllDbPaths | src-tauri/src/platform_utils.rs:53-78 | the list of all database paths is the primary path followed by the databases of every installation |
| ProcessMatching.ScanInstallations | src-tauri/src/platform_utils.rs:62-75 | the loop over installations concatenates their databases in order |
| ProcessMatching.KillAntigravityProcesses | src-tauri/src/platform_utils.rs:81-129 | the kills and requests are those of each listed process in turn; errors with "no process found" exactly when none was killed; otherwise reports the killed ones |
| ProcessMatching.AttemptsOnlyForListed | src-tauri/src/platform_utils.rs:93-118 | no kill is ever attempted on a pid absent from the process list |
| ProcessMatching.KillAttemptsBounded | src-tauri/src/platform_utils.rs:103-116 | with distinct pids each process gets at most two kill attempts (kill, then force kill), and a non-target gets none |
| ProcessMatching.TargetsAreKilled | src-tauri/src/platform_utils.rs:93-118 | every listed matching process gets a kill request, and is reported killed unless both its requests are refused |
| ProcessMatching.KilledAreMatchingTargets | src-tauri/src/platform_utils.rs:93-118 | every reported kill is a listed process that matches the platform's patterns, and there are no more kills than processes |
| ProcessMatching.KilledOnce | src-tauri/src/platform_utils.rs:93-118 | when the process list names each pid once, no pid is reported killed twice |
| ProcessMatching.IsAntigravityRunning | src-tauri/src/platform_utils.rs:132-152 | running exactly when some listed process matches the platform's patterns |
| Paths.AntigravityDataDir | src-tauri/src/path_utils.rs:17-59 | the data directory per platform: the configuration directory on Windows and on Linux when known, otherwise the data directory; it always ends in `User/globalStorage` under `Antigravity` |
| Paths.WindowsSearchOrder | src-tauri/src/path_utils.rs:77-104 | on Windows the local Programs install comes first, then the two different paths under the home directory, then Program Files and, last, Program Files (x86), each only when its directory is known; every candidate is an `Antigravity.exe` |
| Paths.MacAppPaths | src-tauri/src/path_utils.rs:107-133 | the loop builds the list of bundles in `/Applications`, then in the user's Applications |
| Paths.MacAppPathsLayout | src-tauri/src/path_utils.rs:107-133 | four system bundle paths, then the same four under the home directory when it is known |
| Paths.LinuxSearchOrder | src-tauri/src/path_utils.rs:136-165 | the fixed system locations in source order, and only snap and flatpak when there is no home directory |
| Paths.ExecutablePaths | src-tauri/src/path_utils.rs:67-74 | no candidates on an unsupported system, the bundle list on macOS, at least five on Linux |
| Paths.ConfigDir | src-tauri/src/path_utils.rs:170-173 | the agent's configuration directory exists exactly when the system configuration directory is known, and is one component below it |
| Paths.AgentDirectories | src-tauri/src/path_utils.rs:176-188 | the log, backup and profile-backup directories exist together, sit directly under the configuration directory and are pairwise distinct |
| Starter.TryStartFromPath | src-tauri/src/antigravity_starter.rs:208-214 | starting from a path succeeds exactly when its spawn does not fail, and otherwise reports the spawn error |
| Starter.CommandErrorsOnePerCommand | src-tauri/src/antigravity_starter.rs:217-232 | one error message per command tried, in order |
| Starter.TryStartFromCommands | src-tauri/src/antigravity_starter.rs:217-232 | the commands are tried in order until one starts; the result and the spawned programs are those of that prefix |
| Starter.ScanCommands | src-tauri/src/antigravity_starter.rs:220-230 | the loop stops at the first command that starts and spawns exactly the commands before it and that one |
| Starter.PathErrorsOnePerPath | src-tauri/src/antigravity_starter.rs:51-65 | one error message per candidate path, in order |
| Starter.SpawnedPathsAreExisting | src-tauri/src/antigravity_starter.rs:51-65 | only existing paths are spawned, and every existing path is spawned when none succeeds |
| Starter.TryListedPaths | src-tauri/src/antigravity_starter.rs:51-65 | the loop stops at the first existing path that launches, spawning only the existing paths up to it |
| Starter.StartWithFallbacks | src-tauri/src/antigravity_starter.rs:46-151 | the per-platform start tries the paths, then the commands, and returns the combined outcome |
| Starter.FallbackSpawnsOnlyExistingFiles | src-tauri/src/antigravity_starter.rs:51-65 | a path that does not exist is never spawned |
| Starter.CommandsOnlyAfterEveryPath | src-tauri/src/antigravity_starter.rs:67-78 | a command is spawned only when no candidate path could be launched |
| Starter.TotalFailureListsEveryAttempt | src-tauri/src/antigravity_starter.rs:67-78 | when everything fails, the error is the manual-start header, every path error and the joined command errors, and it names each failed path |
| Starter.JoinContainsPart | src-tauri/src/antigravity_starter.rs:73-76 | every part of a join appears in the joined text |
| Starter.WindowsStartPathsLayout | src-tauri/src/antigravity_starter.rs:154-180 | the Windows start list: the user's install first when a home directory is known, and the two Program Files installs last |
| Starter.MacStartPathsLayout | src-tauri/src/antigravity_starter.rs:183-198 | the macOS start list: the system bundle first, then the user's bundle when a home directory is known |
| Starter.FirstExisting | src-tauri/src/antigravity_starter.rs:242-249 | the answer is the first existing candidate; there is none exactly when no candidate exists |
| Starter.DetectExecutable | src-tauri/src/antigravity_starter.rs:236-280 | nothing is detected on an unsupported system |
| Starter.StartAntigravity | src-tauri/src/antigravity_starter.rs:23-43 | a usable custom executable is the only thing spawned; otherwise the system is refused, or the platform's paths and commands are tried |
| Starter.DetectedIsLaunchedFirst | src-tauri/src/antigravity_starter.rs:239-274 | the detected executable is the first program the start spawns, and if it launches the start reports success naming it |
| Starter.FirstExistingIsLaunchedFirst | src-tauri/src/antigravity_starter.rs:51-56 | for any candidate list, the first existing path is spawned first |
| Backup.CollectContents | src-tauri/src/antigravity_backup.rs:50-64 | the collected map holds a key exactly when the database has it or the base had it, with the database's value as a JSON string |
| Backup.CollectValues | src-tauri/src/antigravity_backup.rs:50-64 | the loop over the backup keys builds the collected map |
| Backup.JsonStrings | src-tauri/src/antigravity_backup.rs:93-96 | the notification keys become JSON strings one for one, in order |
| Backup.BackupMetadata | src-tauri/src/antigravity_backup.rs:123-130 | the backup always records the account email and the backup time |
| Backup.BackupHoldsFoundKeys | src-tauri/src/antigravity_backup.rs:50-64 | an ordinary backup key is in the backup exactly when the database has it, with its text |
| Backup.NotificationListIff | src-tauri/src/antigravity_backup.rs:76-99 | the notification key list is stored exactly when there are notification keys, as the array of those keys |
| Backup.MarkerStoredIffParses | src-tauri/src/antigravity_backup.rs:102-120 | the onboarding marker is stored exactly when the database holds it and it parses as JSON, as the parsed value |
| Backup.SmartBackup | src-tauri/src/antigravity_backup.rs:24-140 | the backup directory is created first; each later failure (no database path, missing database, open, notification query, printing, writing) gives its own error and writes no file; when every step succeeds the backup succeeds, writing the backup file into the created directory and reporting whether it existed before |
| Backup.AddNotificationsAndMetadata | src-tauri/src/antigravity_backup.rs:66-130 | adding the notification keys, marker and metadata to the collected map yields the backup document |
| FileSystem.ReadDir | src-tauri/src/main.rs:357 | listing a directory that does not exist fails |
| FileSystem.ReadToString | src-tauri/src/main.rs:422 | reading succeeds exactly for a file with readable contents |
| FileSystem.WriteFile | src-tauri/src/main.rs:474 | a write replaces the contents of that one path and its directory lists the file; no other file or listing changes |
| FileSystem.RemoveFile | src-tauri/src/main.rs:501 | removal succeeds exactly for an existing, removable file; it removes only that file, and its directory no longer lists it |
| FileSystem.CreateDirAll | src-tauri/src/main.rs:466 | afterwards the directory exists, with an empty listing when it is new; an existing directory changes nothing; no file changes and no directory disappears |
| FileSystem.JsonExtension | src-tauri/src/main.rs:361-363 | a name has the extension "json" exactly when it ends in ".json" after a non-empty stem, and it is that stem followed by ".json" |
| FileSystem.JsonNameRoundTrip | src-tauri/src/main.rs:361-363 | a non-empty stem plus ".json" has extension "json" and gives the stem back |
| FileSystem.BareJsonHasNoExtension | src-tauri/src/main.rs:361 | the hidden file ".json" has no extension, so it is never listed |
| Logging.XorDecode | src-tauri/src/commands/logging_commands.rs:81-87 | each decoded byte is the data byte XORed with the key byte at the same position, the key repeating |
| Logging.KeystreamInvolution | src-tauri/src/commands/logging_commands.rs:85-87 | XORing twice with the same key gives the data back |
| Logging.DecryptConfigData | src-tauri/src/commands/logging_commands.rs:72-100 | decryption is base64, then the XOR keystream, then UTF-8, then a JSON check; a success is always valid JSON and bad base64 always fails |
| Logging.DecryptRecoversPlaintext | src-tauri/src/commands/logging_commands.rs:72-99 | data encrypted with the password decrypts to its JSON text |
| Logging.UnitForIsLargest | src-tauri/src/commands/logging_commands.rs:187-194 | the unit chosen is the largest power of 1024 not exceeding the size, capped at GB |
| Logging.FileSizeUnit | src-tauri/src/commands/logging_commands.rs:187-194 | the division loop ends at that unit, and the scaled size times the unit is the byte count |
| Logging.FormatFileSize | src-tauri/src/commands/logging_commands.rs:186-200 | sizes below 1024 are written as an exact count of bytes; larger ones are scaled into [1, 1024) unless the unit is GB |
| Logging.ScaledRange | src-tauri/src/commands/logging_commands.rs:191-199 | the scaled size is the byte count divided by the unit, and below GB it lies in [1, 1024) |
| Logging.ExactSizeIsDecimalCount | src-tauri/src/commands/logging_commands.rs:196-197 | a small size is its decimal digits followed by " B", and the digits denote that count |
| Logging.GetLogInfo | src-tauri/src/commands/logging_commands.rs:11-46 | an absent log gives the fixed empty report; metadata and clock errors are reported with their prefixes; otherwise the report carries the length and its formatted size |
| Logging.AbsentSizeMatchesFormat | src-tauri/src/commands/logging_commands.rs:38-44 | the fixed "0 B" of the absent report is what the formatter gives for zero bytes |
| Text.NatToStringValue | src-tauri/src/commands/logging_commands.rs:197 | the decimal text of a count denotes that count |
| WindowStates.DefaultValidHiddenInvalid | src-tauri/src/window_state_manager.rs:19-50 | the default state is valid, and a minimised window's -32000 position never is |
| WindowStates.ValidityBounds | src-tauri/src/window_state_manager.rs:38-50 | validity is the size and position bounds, and does not depend on the maximised flag |
| WindowStates.SaveWindowState | src-tauri/src/window_state_manager.rs:54-79 | an invalid state is skipped with success and no write; only a valid state is written, as its encoding, to the state file; a missing state path, an encoding failure and a write failure each give their own error and write nothing |
| WindowStates.LoadWindowState | src-tauri/src/window_state_manager.rs:82-107 | a missing file gives the default; a missing state path, a read failure and a parse failure each give their own error; a parsed state that is not valid gives the default, and a valid one is returned as decoded |
| WindowStates.SaveThenLoad | src-tauri/src/window_state_manager.rs:54-107 | loading after saving a valid state gives that state back |
| WindowStates.InvalidSaveKeepsLoad | src-tauri/src/window_state_manager.rs:56-62 | saving an invalid state does not change what a later load returns |
| SystemTray.AccountsOrEmpty | src-tauri/src/system_tray.rs:298-308 | a failed account lookup counts as no accounts |
| SystemTray.AddSwitchItems | src-tauri/src/system_tray.rs:234-244 | the loop appends one switch item per account, in order |
| SystemTray.BuildTrayMenu | src-tauri/src/system_tray.rs:219-295 | the menu built is the layout for the recent and all account lists |
| SystemTray.SwitchItemsShape | src-tauri/src/system_tray.rs:234-263 | one switch item per account, in order |
| SystemTray.MenuEndsWithWindowControls | src-tauri/src/system_tray.rs:283-292 | the menu always ends with the five window controls, and is only those without accounts |
| SystemTray.QuickSwitchShownIff | src-tauri/src/system_tray.rs:229-247 | the quick-switch label heads the menu exactly when there are accounts and recent accounts |
| SystemTray.QuickSwitchListsRecent | src-tauri/src/system_tray.rs:231-246 | under the label come the recent accounts, indented, in order |
| SystemTray.AllAccountsSubmenuIff | src-tauri/src/system_tray.rs:250-268 | the menu has an "all accounts" submenu exactly when there are more than two accounts |
| SystemTray.AllAccountsSubmenuContents | src-tauri/src/system_tray.rs:250-266 | that submenu follows the quick-switch section and holds one switch item per account |
| SystemTray.SwitchAccountName | src-tauri/src/system_tray.rs:360-361 | an id names an account exactly when it starts with the switch prefix, and the name is the rest |
| SystemTray.FixedIdsAreNotSwitchIds | src-tauri/src/system_tray.rs:318-323 | no fixed menu id is mistaken for an account switch |
| SystemTray.HandleMenuEvent | src-tauri/src/system_tray.rs:315-326 | each fixed id maps to its action and only that id does; prefixed ids switch to the named account; anything else stays unknown |
| SystemTray.SwitchIdRoundTrip | src-tauri/src/system_tray.rs:315-326 | the id the menu builds for an account dispatches to switching to that account |
| SystemTray.MenuItemsDispatch | src-tauri/src/system_tray.rs:229-325 | every item in the menu is handled; top-level switch items name recent accounts, submenu items name listed accounts; the label is inert |
| SystemTray.SwitchItemsDispatch | src-tauri/src/system_tray.rs:234-244 | every switch item dispatches to one of the accounts it was built from |
| SystemTray.SystemTrayManager.constructor | src-tauri/src/system_tray.rs:32-39 | a new manager is disabled, has no app handle or icon and is not minimising |
| SystemTray.SystemTrayManager.Enable | src-tauri/src/system_tray.rs:114-118 | enabling sets only the enabled flag |
| SystemTray.SystemTrayManager.Disable | src-tauri/src/system_tray.rs:121-128 | disabling clears the flag and drops the icon, nothing else |
| SystemTray.SystemTrayManager.MinimizeToTray | src-tauri/src/system_tray.rs:136-160 | a re-entrant call is ignored; when disabled it is refused; otherwise the hide error is reported; the state fields end as they began |
| SystemTray.SystemTrayManager.RestoreFromTray | src-tauri/src/system_tray.rs:163-172 | without an app or a main window it succeeds; otherwise the show error, then the focus error, is reported |
| SystemTray.TrayRegistry.constructor | src-tauri/src/system_tray.rs:20 | the global manager starts unset |
| SystemTray.TrayRegistry.InitializeGlobal | src-tauri/src/system_tray.rs:42-91 | a second call changes nothing; a menu failure leaves it unset; otherwise a fresh, disabled manager holds the app and, if the icon builds, the icon with the current menu |
| SystemTray.TrayRegistry.RebuildMenu | src-tauri/src/system_tray.rs:94-106 | with an icon, the menu is replaced by the current layout unless building or setting it fails; nothing else in the manager changes |
| PlatformCommands.Configured | src-tauri/src/commands/platform_commands.rs:54-55 | an unreadable configuration counts as no configured path |
| PlatformCommands.DetectInstallation | src-tauri/src/commands/platform_commands.rs:52-89 | an accepted custom directory wins and is flagged custom; otherwise an existing database's directory is found; found exactly when one of the two holds |
| PlatformCommands.DetectedDirIsDataDir | src-tauri/src/commands/platform_commands.rs:69-81 | with the database path of `main.rs`, the directory reported is Antigravity's data directory |
| PlatformCommands.DetectExecutable | src-tauri/src/commands/platform_commands.rs:93-125 | an accepted custom executable wins; otherwise the first existing candidate of the launcher is reported; found exactly when one of the two holds |
| PlatformCommands.ExecutableNotFoundIff | src-tauri/src/commands/platform_commands.rs:109-124 | without a custom executable nothing is found exactly when no candidate exists, and always on an unsupported system |
| PlatformCommands.SaveAntigravityPath | src-tauri/src/commands/platform_commands.rs:129-139 | a rejected directory is refused without storing; an accepted one is stored, and succeeds exactly when the store does |
| PlatformCommands.SaveAntigravityExecutable | src-tauri/src/commands/platform_commands.rs:143-153 | the same contract for the executable |
| PlatformCommands.SavedPathsAreDetected | src-tauri/src/commands/platform_commands.rs:129-153 | a path saved successfully is what detection then reports, as custom |
| PlatformCommands.GetCurrentPaths | src-tauri/src/commands/platform_commands.rs:157-167 | the configured paths, with a read error counting as none |
| MainCommands.Beneath | src-tauri/src/main.rs:219-238 | a path below a known base exists exactly when the base does |
| MainCommands.AppStateConfigDir | src-tauri/src/main.rs:216-252 | the configuration directory the application state uses, per platform and per available variable, always ending in the agent's directory name |
| MainCommands.AppStateAgreesWithAppPaths | src-tauri/src/main.rs:219-238 | when the system configuration directory is known (and, on Windows, the other variables are not), the state's directories agree with those of `path_utils.rs` |
| MainCommands.FirstItemErrorAt | src-tauri/src/main.rs:357-358 | the listing fails at the first unreadable entry |
| MainCommands.ListBackups | src-tauri/src/main.rs:350-370 | the backup names are those of the account directory's listing; a missing directory gives none |
| MainCommands.ScanBackupNames | src-tauri/src/main.rs:357-366 | the loop over the entries yields the listed stems or the first entry error |
| MainCommands.StemsAppend | src-tauri/src/main.rs:357-366 | listing two runs of entries lists the first's names, then the second's |
| MainCommands.ListedNamesAreJsonFiles | src-tauri/src/main.rs:361-365 | every listed name is the stem of a ".json" entry of the directory |
| MainCommands.BackupFileIsListed | src-tauri/src/main.rs:361-365 | every "name.json" entry with a non-empty name is listed |
| MainCommands.CollectBackupContents | src-tauri/src/main.rs:398-449 | the collected backups are those of the account directory; a missing directory gives none |
| MainCommands.CollectOne | src-tauri/src/main.rs:412-445 | one entry contributes its parsed backup or nothing |
| MainCommands.CollectedAreFaithful | src-tauri/src/main.rs:404-446 | every collected backup is a JSON file of the directory with the contents it parses to, and there are no more than the entries |
| MainCommands.GoodBackupIsCollected | src-tauri/src/main.rs:412-435 | every readable JSON file that parses is collected |
| MainCommands.RestoreBackupFiles | src-tauri/src/main.rs:453-489 | a failure to create the directory is reported and writes nothing; otherwise the directory is created and each backup is written into it in turn |
| MainCommands.RestoreAccounting | src-tauri/src/main.rs:471-486 | restored plus failed equals the number of backups, and the failures are exactly the refused writes, in order, with their errors |
| MainCommands.RestoreKeepsOtherFiles | src-tauri/src/main.rs:471-486 | restoring never touches a file that is not one of the backups' targets, nor any directory listing other than the backup directory's |
| MainCommands.RestoreKeepsListing | src-tauri/src/main.rs:471-486 | while restoring, the backup directory's listing keeps every item it had and gains no erroneous item |
| MainCommands.RestoreListsBackup | src-tauri/src/main.rs:471-486 | after restoring, the backup directory lists every backup whose write was accepted |
| MainCommands.ListingShowsBackup | src-tauri/src/main.rs:355-366 | a listing without erroneous items that has `<name>.json` makes `list_backups` answer with `name` |
| MainCommands.RestoredBackupIsListed | src-tauri/src/main.rs:453-489 | after `restore_backup_files`, `list_backups` answers with the name of every backup whose write was accepted |
| MainCommands.WrittenBackupIsListed | src-tauri/src/antigravity_backup.rs:28-135 | the file the account backup writes into its newly ensured directory is then listed by `list_backups` under its email |
| MainCommands.RestoreWritesBackupFiles | src-tauri/src/main.rs:472-476 | every backup not refused and not overwritten by a later one ends on disk as its pretty-printed content |
| MainCommands.DeleteBackup | src-tauri/src/main.rs:492-506 | deleting a missing backup fails with no change; deletion succeeds exactly for a removable file, removing only that file and its name from the directory's listing |
| MainCommands.StemMembers | src-tauri/src/main.rs:355-366 | the listed names are exactly the stems of the listing's ".json" items |
| MainCommands.DeletedBackupIsNotListed | src-tauri/src/main.rs:492-506 | after a successful delete, `list_backups` no longer answers with that name, and still answers with exactly the other names it gave before |
| MainCommands.WrittenBackupCanBeDeleted | src-tauri/src/main.rs:492-506 | a backup just written can be deleted, which leaves the other files as they were |
| MainCommands.ClearFailureIsFinal | src-tauri/src/main.rs:517-523 | once a removal fails, clearing stops there |
| MainCommands.ClearAllBackups | src-tauri/src/main.rs:509-532 | a missing directory has nothing to clear; a listing error is reported; otherwise the clearing run gives the count or its first failure; after a success `list_backups` answers with no names |
| MainCommands.ClearEntries | src-tauri/src/main.rs:517-526 | the loop over the entries is the clearing run |
| MainCommands.ClearRemovesExactlyJsonFiles | src-tauri/src/main.rs:512-531 | a successful clear removes exactly the directory's JSON files and counts them |
| MainCommands.ClearedListing | src-tauri/src/main.rs:512-531 | while clearing, only the backup directory's listing changes; it keeps only items it had and lists none of the ".json" files cleared so far |
| MainCommands.ClearedListsNothing | src-tauri/src/main.rs:509-532 | a clear that gets through the whole listing leaves `list_backups` answering with no names |
| MainCommands.InlineDbPath | src-tauri/src/main.rs:70-72 | the database is `state.vscdb` in Antigravity's data directory, when that is known |
| MainCommands.InlineDbPathIsUncustomised | src-tauri/src/main.rs:70-72 | it is the crate's database path with no custom directory configured |
| MainCommands.KillTargets | src-tauri/src/main.rs:131-154 | each kill tool is tried with exactly two targets |
| MainCommands.InlineKill | src-tauri/src/main.rs:127-174 | the loop runs the platform's kill tool on its targets in order and gives the outcome described below |
| MainCommands.InlineKillOrder | src-tauri/src/main.rs:134-170 | the first success is reported; a tool that cannot start is reported at once; if both targets fail, the second failure is reported with its standard error |
| MainCommands.ClassifyKill | src-tauri/src/main.rs:850-868 | a kill result stops the command exactly when it is an error that does not say "not found"; a not-found report means "not running" |
| MainCommands.EmailOf | src-tauri/src/main.rs:877-897 | an email is found only when the auth status was read, parsed and holds an "email" string, and it is that string |
| MainCommands.BackupAndRestart | src-tauri/src/main.rs:845-940 | the command always starts by killing Antigravity |
| MainCommands.KillErrorStopsBackup | src-tauri/src/main.rs:860-866 | a real kill error ends the command at once, with nothing else done |
| MainCommands.CleanupOnlyAfterBackup | src-tauri/src/main.rs:902-916 | user data is cleared only after the account's backup succeeded |
| MainCommands.BackupFlowSucceedsIff | src-tauri/src/main.rs:845-940 | the command succeeds exactly when the kill is acceptable, the database path is known, the email is found, the backup succeeds and the cleanup succeeds |
| MainCommands.BackupFlowReportsVerdict | src-tauri/src/main.rs:935-939 | a success report starts with the kill verdict and Antigravity was restarted |
| MainCommands.SwitchToAccount | src-tauri/src/main.rs:943-1000 | the switch always starts by killing Antigravity |
| MainCommands.SwitchRestoresOnlyAfterKill | src-tauri/src/main.rs:950-999 | the account is restored exactly when the kill is acceptable; the switch succeeds exactly when the kill and the restore do, and the report chains their messages |
| MainCommands.ChooseDbPath | src-tauri/src/main.rs:541-551 | the primary database is chosen, else the first found, and with neither the installation is not found |
| MainCommands.ChosenDbIsStateDb | src-tauri/src/main.rs:541-551 | the chosen database is always a `state.vscdb`, and when there is no primary path it is an existing file |
| MainCommands.SwitchAccount | src-tauri/src/main.rs:536-564 | success requires the chosen database to exist and to open, and names the account and the database; a missing database is reported |
| MainCommands.PkillNoMatchStopsBackup | src-tauri/src/main.rs:149-171 | as written: with no Antigravity running on macOS or Linux, the kill error stops the backup command before anything is backed up |
| MainCommands.NoMatchMeansNotRunning | src-tauri/src/main.rs:149-171 | with the corrected killer, no matching process means "not running" and the command goes on; in every other case the outcome is the one written |

## Left out

- I/O through Tauri, `std::fs`, `dirs`, `sysinfo`, `rusqlite` and `serde_json` is not performed. Each call's effect or answer is a value passed in, such as the `Fs` value, the process list, the kill outcomes, the database contents or the JSON parser and printer.
- Base64 (section 4 of RFC 4648), UTF-8 decoding and the test for valid JSON are oracles, not implementations.
- `chrono` and the system clock are not modelled: the time is an input text.
- Floating point is not modelled. The size formatter computes on reals, and the `{:.2}` rounding of its text is not modelled. This matters only above 2^53 bytes, where the unit is already GB.
- Concurrency is not modelled:
  - the `Mutex` and `OnceCell` locking;
  - the race between two tray initialisations (`system_tray.rs:85-87`);
  - `async` and the sleeps between steps of the orchestration commands.
- Printing to the console (`println!`) is not modelled.
- `backup_profile` and `restore_profile` (`main.rs:255-347`) are not modelled: they zip and unzip a directory tree.
- `tray_commands.rs`, `window_commands.rs`, the log decorator, `write_frontend_log`, `write_text_file`, `clear_logs` and `get_platform_info` are not modelled: they only forward to Tauri or the file system.
- The icon loading and the show, hide and quit effects of the tray handlers on the window are not modelled.
- The `antigravity_path_config` module is not part of this model. Its stored paths are inputs and its validators are uninterpreted predicates.
- `is_valid_path` and `ensure_dir_exists` are not modelled.
- Path normalisation is not modelled: a component such as `AppData\Local\...` stays one component.
- The escaping done by `{:?}` is not modelled: a quoted error text is the text between two double quotes.
- Logging.DecryptConfigData: requires a non-empty password when the Base64 data is not empty. The source indexes the key with `i % 0` there (`logging_commands.rs:86`) and panics; the panic is not modelled.
- Logging.XorDecode: has the same requirement for the same reason.
- FileSystem.CreateDirAll: models only a successful call; its failure is an input of the callers, and a path component that is an existing file is not told apart.
- A written file is listed after the items its directory already had. `fs::read_dir` promises no order, so this is one of the orders `list_backups` may give.
- MainCommands.AppStateConfigDir: gives only the path. `AppState::default` also tries to create the directory and ignores a failure (`main.rs:240-243`); that creation is not modelled, because `list_backups` treats a missing directory as empty and `restore_backup_files` creates it itself.
- MainCommands.RestoreBackupFiles: does not model the `u32` wrap-around of the restored count, because reaching it would take more than four billion backups.
- Starter.DetectExecutable: its own contract states only the unsupported-system case. That it answers the first existing candidate is proved by Starter.FirstExisting, which it calls, and by Starter.DetectedIsLaunchedFirst.
- MainCommands.BackupAndRestart and MainCommands.SwitchToAccount: their own contracts state only that killing comes first. The rest is proved by the lemmas that follow them in the table.
- The frontend's state, subscriptions and events are not part of this model: their source is not in the Rust crate.

## Findings

| source | as written | input that shows it | evidently intended | confidence | as-written member | corrected member |
|---|---|---|---|---|---|---|
| src-tauri/src/main.rs:149-171 | when no process matches, `pkill` exits with status 1 and an empty standard error; the killer then reports `关闭进程失败 (模式: antigravity): ""`, which contains neither "not found" nor "未找到", so `main.rs:860-866` treats it as a real error and `backup_and_restart_antigravity` and `switch_to_antigravity_account` stop | macOS or Linux with no Antigravity process running | the commands go on, reporting that Antigravity is not running | not executed | MainCommands.PkillNoMatchStopsBackup | MainCommands.NoMatchMeansNotRunning |
