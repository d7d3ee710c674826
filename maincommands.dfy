/** The commands main.rs defines itself: the configuration directory the application
    state settles on, the bookkeeping of the account-backup directory (list, collect,
    restore, delete, clear), main.rs's own process killer (its inline `platform_utils`
    module, which shells out to taskkill or pkill), and the decisions of the two
    commands that close Antigravity, back up or restore an account, and restart it. */
module MainCommands {
  import opened Wrappers
  import opened Text
  import opened Seqs
  import opened FileSystem
  import opened JsonValues
  import opened Paths
  import ProcessMatching

  // ----------------------------------------------------------------------------------
  // AppState::default

  /** `base/rest`, for a base that may be missing. */
  function Beneath(base: Option<Path>, rest: seq<string>): (r: Option<Path>)
    ensures r.Some? <==> base.Some?
    ensures r.Some? ==> r.value == base.value + rest
  {
    if base.Some? then Some(base.value + rest) else None
  }

  /** The configuration directory `AppState::default` settles on. A Windows build tries
      `%APPDATA%`, then `<home>/AppData/Roaming`, then the platform configuration
      directory, and at last uses the relative directory on its own; any other build
      uses the configuration directory, or "." when there is none. */
  function AppStateConfigDir(env: Env): (r: Path)
    ensures |r| > 0 && r[|r| - 1] == AgentDirName
    ensures env.os == Windows && env.appData.Some? ==> r == env.appData.value + [AgentDirName]
    ensures env.os == Windows && env.appData.None? && env.homeDir.Some? ==>
      r == env.homeDir.value + ["AppData", "Roaming", AgentDirName]
    ensures env.os == Windows && env.appData.None? && env.homeDir.None? && env.configDir.Some? ==>
      r == env.configDir.value + [AgentDirName]
    ensures env.os == Windows && env.appData.None? && env.homeDir.None? && env.configDir.None? ==>
      r == [AgentDirName]
    ensures env.os != Windows && env.configDir.Some? ==> r == env.configDir.value + [AgentDirName]
    ensures env.os != Windows && env.configDir.None? ==> r == [".", AgentDirName]
  {
    if env.os == Windows then
      Beneath(env.appData, [AgentDirName])
        .OrElse(Beneath(env.homeDir, ["AppData", "Roaming", AgentDirName]))
        .OrElse(Beneath(env.configDir, [AgentDirName]))
        .GetOr([AgentDirName])
    else
      env.configDir.GetOr(["."]) + [AgentDirName]
  }

  /** The account-backup directory under the state's configuration directory. */
  function AccountsDir(configDir: Path): Path {
    configDir + ["antigravity-accounts"]
  }

  /** Outside Windows, and on Windows when neither `%APPDATA%` nor the home directory is
      known, the state's directories are the ones `AppPaths` computes. */
  lemma AppStateAgreesWithAppPaths(env: Env)
    requires env.configDir.Some?
    requires env.os == Windows ==> env.appData.None? && env.homeDir.None?
    ensures AppStateConfigDir(env) == ConfigDir(env).value
    ensures AccountsDir(AppStateConfigDir(env)) == BackupDir(env).value
  {
  }

  // ----------------------------------------------------------------------------------
  // Reading the backup directory (list_backups, collect_backup_contents)

  const ReadDirFailedPrefix := "读取用户目录失败: "
  const EntryFailedPrefix := "读取目录项失败: "

  predicate IsEntryError(e: DirEntry) {
    e.EntryError?
  }

  /** A listing item whose name has the extension "json". */
  predicate IsJsonEntry(e: DirEntry) {
    e.Entry? && Extension(e.name) == Some("json")
  }

  /** The position of the first listing item that is an error: the loops of main.rs
      give up there (the `?` on each entry). */
  function FirstItemError(es: seq<DirEntry>): Option<nat> {
    FirstIndex(es, IsEntryError)
  }

  lemma FirstItemErrorAt(es: seq<DirEntry>, i: nat)
    requires i < |es| && IsEntryError(es[i])
    requires forall j :: 0 <= j < i ==> !IsEntryError(es[j])
    ensures FirstItemError(es) == Some(i)
  {
    var f := FirstItemError(es);
    assert f.Some?;
    assert !(f.value < i);
  }

  /** The names of the entries of a listing, in order. */
  function EntryNames(es: seq<DirEntry>): seq<string>
    decreases |es|
  {
    if |es| == 0 then []
    else EntryNames(es[..|es| - 1]) + (if es[|es| - 1].Entry? then [es[|es| - 1].name] else [])
  }

  /** What one listing item adds to `list_backups`: the stem of a ".json" entry. */
  function EntryStem(e: DirEntry): seq<string> {
    if IsJsonEntry(e) then [FileStem(e.name)] else []
  }

  /** The backup names of the first items of a listing. */
  function Stems(es: seq<DirEntry>): seq<string>
    decreases |es|
  {
    if |es| == 0 then [] else Stems(es[..|es| - 1]) + EntryStem(es[|es| - 1])
  }

  /** What `list_backups` returns for the backup directory `dir`. */
  function ListOutcome(fs: Fs, dir: Path): Result<seq<string>, string> {
    if !Exists(fs, dir) then Ok([])
    else match ReadDir(fs, dir)
      case ListError(m) => Err(ReadDirFailedPrefix + m)
      case Listed(es) => ListedStems(es)
  }

  /** The backup names of a whole listing, or the error of its first erroneous item. */
  function ListedStems(es: seq<DirEntry>): Result<seq<string>, string> {
    match FirstItemError(es)
    case Some(k) => Err(EntryFailedPrefix + es[k].message)
    case None => Ok(Stems(es))
  }

  /** `list_backups`: the stems of the ".json" entries of the backup directory, in
      listing order; nothing when the directory does not exist. */
  method ListBackups(configDir: Path, fs: Fs) returns (r: Result<seq<string>, string>)
    ensures r == ListOutcome(fs, AccountsDir(configDir))
    ensures !Exists(fs, AccountsDir(configDir)) ==> r == Ok([])
  {
    var dir := AccountsDir(configDir);
    if !Exists(fs, dir) {
      return Ok([]);
    }
    var listing := ReadDir(fs, dir);
    if listing.ListError? {
      return Err(ReadDirFailedPrefix + listing.message);
    }
    r := ScanBackupNames(listing.entries);
  }

  /** The loop of `list_backups` over the listing, stopping at the first erroneous item. */
  method ScanBackupNames(es: seq<DirEntry>) returns (r: Result<seq<string>, string>)
    ensures r == ListedStems(es)
  {
    var allBackups: seq<string> := [];
    for i := 0 to |es|
      invariant allBackups == Stems(es[..i])
      invariant forall j :: 0 <= j < i ==> !IsEntryError(es[j])
    {
      assert es[..i + 1][..i] == es[..i];
      var e := es[i];
      if e.EntryError? {
        FirstItemErrorAt(es, i);
        return Err(EntryFailedPrefix + e.message);
      }
      if Extension(e.name) == Some("json") {
        allBackups := allBackups + [FileStem(e.name)];
      }
      assert allBackups == Stems(es[..i]) + EntryStem(e);
    }
    assert es[..|es|] == es;
    r := Ok(allBackups);
  }

  /** Listing keeps order: the names of two runs of items are the names of each. */
  lemma {:induction false} StemsAppend(xs: seq<DirEntry>, ys: seq<DirEntry>)
    ensures Stems(xs + ys) == Stems(xs) + Stems(ys)
    decreases |ys|
  {
    if |ys| == 0 {
      assert xs + ys == xs;
    } else {
      assert (xs + ys)[..|xs + ys| - 1] == xs + ys[..|ys| - 1];
      StemsAppend(xs, ys[..|ys| - 1]);
    }
  }

  /** Every listed name is that of a ".json" file in the directory. */
  lemma {:induction false} ListedNamesAreJsonFiles(es: seq<DirEntry>)
    ensures forall k :: 0 <= k < |Stems(es)| ==> Stems(es)[k] + ".json" in EntryNames(es)
    decreases |es|
  {
    if |es| > 0 {
      var init := es[..|es| - 1];
      var e := es[|es| - 1];
      ListedNamesAreJsonFiles(init);
      if IsJsonEntry(e) {
        JsonExtension(e.name);
      }
      forall k | 0 <= k < |Stems(es)| ensures Stems(es)[k] + ".json" in EntryNames(es) {
        if k < |Stems(init)| {
          assert Stems(es)[k] == Stems(init)[k];
        } else {
          assert Stems(es)[k] == FileStem(e.name);
        }
      }
    }
  }

  /** A backup file `<name>.json` in the directory (as the backup command writes it) is
      listed under its name. */
  lemma {:induction false} BackupFileIsListed(es: seq<DirEntry>, j: nat, name: string)
    requires |name| > 0
    requires j < |es| && es[j].Entry? && es[j].name == name + ".json"
    ensures name in Stems(es)
    decreases |es|
  {
    var init := es[..|es| - 1];
    if j < |es| - 1 {
      BackupFileIsListed(init, j, name);
    } else {
      JsonNameRoundTrip(name);
    }
  }

  /** One file of `collect_backup_contents`, with the time it was collected. */
  datatype BackupData = BackupData(filename: string, content: Json, timestamp: nat)

  /** What one listing item adds to `collect_backup_contents`: a ".json" entry whose name
      is valid Unicode and not empty, whose file can be read and parses as JSON. Any
      other item is skipped. */
  function CollectedItem(fs: Fs, dir: Path, parse: string -> Option<Json>, now: nat, e: DirEntry): seq<BackupData> {
    if !IsJsonEntry(e) then []
    else
      var filename := if e.unicodeName then e.name else "";
      if filename == "" then []
      else match ReadToString(fs, dir + [e.name])
        case Err(_) => []
        case Ok(text) =>
          match parse(text)
          case None => []
          case Some(v) => [BackupData(filename, v, now)]
  }

  function Collected(fs: Fs, dir: Path, parse: string -> Option<Json>, now: nat, es: seq<DirEntry>): seq<BackupData>
    decreases |es|
  {
    if |es| == 0 then []
    else Collected(fs, dir, parse, now, es[..|es| - 1]) + CollectedItem(fs, dir, parse, now, es[|es| - 1])
  }

  /** What `collect_backup_contents` returns for the backup directory `dir`. */
  function CollectOutcome(fs: Fs, dir: Path, parse: string -> Option<Json>, now: nat): Result<seq<BackupData>, string> {
    if !Exists(fs, dir) then Ok([])
    else match ReadDir(fs, dir)
      case ListError(m) => Err(ReadDirFailedPrefix + m)
      case Listed(es) =>
        match FirstItemError(es)
        case Some(k) => Err(EntryFailedPrefix + es[k].message)
        case None => Ok(Collected(fs, dir, parse, now, es))
  }

  /** `collect_backup_contents`: every readable, parseable ".json" backup with its
      content; nothing when the directory does not exist. `now` is the clock reading
      each item is stamped with. */
  method CollectBackupContents(configDir: Path, fs: Fs, parse: string -> Option<Json>, now: nat)
    returns (r: Result<seq<BackupData>, string>)
    ensures r == CollectOutcome(fs, AccountsDir(configDir), parse, now)
    ensures !Exists(fs, AccountsDir(configDir)) ==> r == Ok([])
  {
    var dir := AccountsDir(configDir);
    var backups: seq<BackupData> := [];
    if !Exists(fs, dir) {
      return Ok(backups);
    }
    var listing := ReadDir(fs, dir);
    if listing.ListError? {
      return Err(ReadDirFailedPrefix + listing.message);
    }
    var es := listing.entries;
    for i := 0 to |es|
      invariant backups == Collected(fs, dir, parse, now, es[..i])
      invariant forall j :: 0 <= j < i ==> !IsEntryError(es[j])
    {
      assert es[..i + 1][..i] == es[..i];
      var e := es[i];
      if e.EntryError? {
        FirstItemErrorAt(es, i);
        return Err(EntryFailedPrefix + e.message);
      }
      var item := CollectOne(fs, dir, parse, now, e);
      backups := backups + item;
    }
    assert es[..|es|] == es;
    r := Ok(backups);
  }

  /** The body of the loop of `collect_backup_contents` for one entry. */
  method CollectOne(fs: Fs, dir: Path, parse: string -> Option<Json>, now: nat, e: DirEntry)
    returns (item: seq<BackupData>)
    requires e.Entry?
    ensures item == CollectedItem(fs, dir, parse, now, e)
  {
    item := [];
    if Extension(e.name) == Some("json") {
      var filename := if e.unicodeName then e.name else "";
      if filename == "" {
        return;
      }
      var content := ReadToString(fs, dir + [e.name]);
      if content.Ok? {
        var parsed := parse(content.value);
        if parsed.Some? {
          item := [BackupData(filename, parsed.value, now)];
        }
      }
    }
  }

  /** A backup `collect_backup_contents` returns is what its file holds. */
  predicate FaithfulItem(fs: Fs, dir: Path, parse: string -> Option<Json>, now: nat, b: BackupData) {
    b.filename != "" && Extension(b.filename) == Some("json")
    && ReadToString(fs, dir + [b.filename]).Ok?
    && parse(ReadToString(fs, dir + [b.filename]).value) == Some(b.content)
    && b.timestamp == now
  }

  /** Every collected backup is a non-empty ".json" name whose file reads and parses to
      the content reported; no more backups are collected than there are items. */
  lemma {:induction false} CollectedAreFaithful(fs: Fs, dir: Path, parse: string -> Option<Json>, now: nat, es: seq<DirEntry>)
    ensures |Collected(fs, dir, parse, now, es)| <= |es|
    ensures forall k :: 0 <= k < |Collected(fs, dir, parse, now, es)| ==>
      FaithfulItem(fs, dir, parse, now, Collected(fs, dir, parse, now, es)[k])
    decreases |es|
  {
    if |es| > 0 {
      var init := es[..|es| - 1];
      CollectedAreFaithful(fs, dir, parse, now, init);
      var c0 := Collected(fs, dir, parse, now, init);
      var c := Collected(fs, dir, parse, now, es);
      forall k | 0 <= k < |c| ensures FaithfulItem(fs, dir, parse, now, c[k]) {
        if k < |c0| {
          assert c[k] == c0[k];
        }
      }
    }
  }

  /** Conversely, a ".json" entry with a valid non-empty name whose file reads and
      parses is collected. */
  lemma {:induction false} GoodBackupIsCollected(fs: Fs, dir: Path, parse: string -> Option<Json>, now: nat, es: seq<DirEntry>, j: nat)
    requires j < |es| && IsJsonEntry(es[j]) && es[j].unicodeName && es[j].name != ""
    requires ReadToString(fs, dir + [es[j].name]).Ok?
    requires parse(ReadToString(fs, dir + [es[j].name]).value).Some?
    ensures BackupData(es[j].name, parse(ReadToString(fs, dir + [es[j].name]).value).value, now)
      in Collected(fs, dir, parse, now, es)
    decreases |es|
  {
    var init := es[..|es| - 1];
    if j < |es| - 1 {
      GoodBackupIsCollected(fs, dir, parse, now, init, j);
    }
  }

  // ----------------------------------------------------------------------------------
  // Writing and removing backups (restore_backup_files, delete_backup, clear_all_backups)

  /** A backup that could not be written back, with the reason. */
  datatype FailedBackup = FailedBackup(filename: string, error: string)

  /** The answer of `restore_backup_files`. */
  datatype RestoreResult = RestoreResult(restoredCount: nat, failed: seq<FailedBackup>)

  /** The tally and file system part-way through `restore_backup_files`. */
  datatype RestoreRun = RestoreRun(result: RestoreResult, fs: Fs)

  const WriteFailedPrefix := "写入文件失败: "

  /** The text written for a backup: its content pretty-printed, or nothing when
      printing fails (`unwrap_or_default`). */
  function PrettyText(printer: Json -> Option<string>, content: Json): string {
    printer(content).GetOr("")
  }

  /** Whether writing `b` back into `dir` is refused by the file system. */
  predicate WriteRefused(dir: Path, refused: map<Path, string>, b: BackupData) {
    dir + [b.filename] in refused
  }

  function RefusedIn(dir: Path, refused: map<Path, string>): BackupData -> bool {
    b => WriteRefused(dir, refused, b)
  }

  /** One iteration of `restore_backup_files`: a refused write is recorded as failed,
      any other write replaces the file and counts as restored. */
  function RestoreStep(run: RestoreRun, dir: Path, printer: Json -> Option<string>, refused: map<Path, string>, b: BackupData): RestoreRun {
    var p := dir + [b.filename];
    if p in refused then
      RestoreRun(run.result.(failed := run.result.failed + [FailedBackup(b.filename, WriteFailedPrefix + refused[p])]), run.fs)
    else
      RestoreRun(run.result.(restoredCount := run.result.restoredCount + 1), WriteFile(run.fs, p, PrettyText(printer, b.content)))
  }

  /** The state after restoring the first backups of a list. */
  function Restored(fs: Fs, dir: Path, printer: Json -> Option<string>, refused: map<Path, string>, bs: seq<BackupData>): RestoreRun
    decreases |bs|
  {
    if |bs| == 0 then RestoreRun(RestoreResult(0, []), fs)
    else RestoreStep(Restored(fs, dir, printer, refused, bs[..|bs| - 1]), dir, printer, refused, bs[|bs| - 1])
  }

  /** `restore_backup_files`: the backup directory is created with its missing
      ancestors (`createFailure` is the error of that, if any), then every backup is
      written into it. The answer counts the written ones and lists the others; the new
      file system is returned. */
  method RestoreBackupFiles(configDir: Path, backups: seq<BackupData>, fs: Fs, createFailure: Option<string>,
                            printer: Json -> Option<string>, refused: map<Path, string>)
    returns (r: Result<RestoreResult, string>, fsAfter: Fs)
    ensures createFailure.Some? ==> r == Err("创建目录失败: " + createFailure.value) && fsAfter == fs
    ensures createFailure.None? ==>
      var run := Restored(CreateDirAll(fs, AccountsDir(configDir)), AccountsDir(configDir), printer, refused, backups);
      r == Ok(run.result) && fsAfter == run.fs
  {
    var dir := AccountsDir(configDir);
    fsAfter := fs;
    if createFailure.Some? {
      return Err("创建目录失败: " + createFailure.value), fs;
    }
    fsAfter := CreateDirAll(fs, dir);
    ghost var created := fsAfter;
    var restoredCount: nat := 0;
    var failed: seq<FailedBackup> := [];
    for i := 0 to |backups|
      invariant Restored(created, dir, printer, refused, backups[..i]) == RestoreRun(RestoreResult(restoredCount, failed), fsAfter)
    {
      assert backups[..i + 1][..i] == backups[..i];
      var b := backups[i];
      var path := dir + [b.filename];
      if path in refused {
        failed := failed + [FailedBackup(b.filename, WriteFailedPrefix + refused[path])];
      } else {
        fsAfter := WriteFile(fsAfter, path, PrettyText(printer, b.content));
        restoredCount := restoredCount + 1;
      }
    }
    assert backups[..|backups|] == backups;
    r := Ok(RestoreResult(restoredCount, failed));
  }

  /** Restoring accounts for every backup exactly once: the restored count and the
      failures add up to the number of backups, and the failures are exactly the
      refused backups, in their original order, each with its reason. */
  lemma {:induction false} RestoreAccounting(fs: Fs, dir: Path, printer: Json -> Option<string>, refused: map<Path, string>, bs: seq<BackupData>)
    ensures var res := Restored(fs, dir, printer, refused, bs).result;
      res.restoredCount + |res.failed| == |bs|
    ensures var res := Restored(fs, dir, printer, refused, bs).result;
      var refusedOnes := Filter(bs, RefusedIn(dir, refused));
      |res.failed| == |refusedOnes|
      && forall k :: 0 <= k < |res.failed| ==>
        res.failed[k] == FailedBackup(refusedOnes[k].filename, WriteFailedPrefix + refused[dir + [refusedOnes[k].filename]])
    decreases |bs|
  {
    if |bs| > 0 {
      var init := bs[..|bs| - 1];
      var b := bs[|bs| - 1];
      RestoreAccounting(fs, dir, printer, refused, init);
      assert bs == init + [b];
      FilterAppend(init, [b], RefusedIn(dir, refused));
      assert Filter([b], RefusedIn(dir, refused)) == (if WriteRefused(dir, refused, b) then [b] else []) by {
        assert [b][1..] == [];
      }
    }
  }

  /** Restoring changes no file other than those of the backups, and no directory
      listing other than that of the backup directory. */
  lemma {:induction false} RestoreKeepsOtherFiles(fs: Fs, dir: Path, printer: Json -> Option<string>, refused: map<Path, string>, bs: seq<BackupData>)
    ensures var after := Restored(fs, dir, printer, refused, bs).fs;
      after.dirs.Keys == fs.dirs.Keys
      && (forall d :: d in fs.dirs && d != dir ==> after.dirs[d] == fs.dirs[d])
      && forall p :: p in fs.files && (forall j :: 0 <= j < |bs| ==> p != dir + [bs[j].filename]) ==>
           p in after.files && after.files[p] == fs.files[p]
    decreases |bs|
  {
    if |bs| > 0 {
      var init := bs[..|bs| - 1];
      RestoreKeepsOtherFiles(fs, dir, printer, refused, init);
      var after := Restored(fs, dir, printer, refused, bs).fs;
      var b := bs[|bs| - 1];
      assert ParentOf(dir + [b.filename]) == dir;
      forall p | p in fs.files && (forall j :: 0 <= j < |bs| ==> p != dir + [bs[j].filename])
        ensures p in after.files && after.files[p] == fs.files[p]
      {
        assert forall j :: 0 <= j < |init| ==> init[j] == bs[j];
        assert p != dir + [b.filename];
      }
    }
  }

  /** One restoring step keeps the backup directory's listing free of erroneous items
      and what it listed, and makes it list the backup when its write is accepted. */
  lemma RestoreStepListing(run: RestoreRun, dir: Path, printer: Json -> Option<string>, refused: map<Path, string>, b: BackupData)
    requires dir in run.fs.dirs && run.fs.dirs[dir].Listed? && NoEntryErrors(run.fs.dirs[dir].entries)
    ensures var after := RestoreStep(run, dir, printer, refused, b).fs;
      dir in after.dirs && after.dirs[dir].Listed?
      && NoEntryErrors(after.dirs[dir].entries)
      && run.fs.dirs[dir].entries <= after.dirs[dir].entries
      && (!WriteRefused(dir, refused, b) ==> Lists(after.dirs[dir].entries, b.filename))
  {
    if !WriteRefused(dir, refused, b) {
      var es := run.fs.dirs[dir].entries;
      assert ParentOf(dir + [b.filename]) == dir && NameOf(dir + [b.filename]) == b.filename;
      var ws := WithEntry(es, b.filename);
      assert NoEntryErrors(ws) by {
        forall i | 0 <= i < |ws| ensures !ws[i].EntryError? {
          if i < |es| { assert ws[i] == es[i]; }
        }
      }
    }
  }

  /** A listing that grows keeps listing every name it listed. */
  lemma ListsGrows(es: seq<DirEntry>, fs: seq<DirEntry>, name: string)
    requires es <= fs && Lists(es, name)
    ensures Lists(fs, name)
  {
    var i :| 0 <= i < |es| && Names(es[i], name);
    assert fs[i] == es[i];
  }

  /** Restoring keeps the backup directory's listing free of erroneous items, and
      keeps what it listed. */
  lemma {:induction false} RestoreKeepsListing(fs: Fs, dir: Path, printer: Json -> Option<string>, refused: map<Path, string>, bs: seq<BackupData>)
    requires dir in fs.dirs && fs.dirs[dir].Listed? && NoEntryErrors(fs.dirs[dir].entries)
    ensures var after := Restored(fs, dir, printer, refused, bs).fs;
      dir in after.dirs && after.dirs[dir].Listed?
      && NoEntryErrors(after.dirs[dir].entries)
      && fs.dirs[dir].entries <= after.dirs[dir].entries
    decreases |bs|
  {
    if |bs| > 0 {
      var init := bs[..|bs| - 1];
      RestoreKeepsListing(fs, dir, printer, refused, init);
      RestoreStepListing(Restored(fs, dir, printer, refused, init), dir, printer, refused, bs[|bs| - 1]);
    }
  }

  /** Restoring makes the backup directory list every backup whose write was
      accepted. */
  lemma {:induction false} RestoreListsBackup(fs: Fs, dir: Path, printer: Json -> Option<string>, refused: map<Path, string>, bs: seq<BackupData>, j: nat)
    requires dir in fs.dirs && fs.dirs[dir].Listed? && NoEntryErrors(fs.dirs[dir].entries)
    requires j < |bs| && !WriteRefused(dir, refused, bs[j])
    ensures var after := Restored(fs, dir, printer, refused, bs).fs;
      dir in after.dirs && after.dirs[dir].Listed? && Lists(after.dirs[dir].entries, bs[j].filename)
    decreases |bs|
  {
    var init := bs[..|bs| - 1];
    var before := Restored(fs, dir, printer, refused, init);
    RestoreKeepsListing(fs, dir, printer, refused, init);
    RestoreStepListing(before, dir, printer, refused, bs[|bs| - 1]);
    if j < |init| {
      assert init[j] == bs[j];
      RestoreListsBackup(fs, dir, printer, refused, init, j);
      ListsGrows(before.fs.dirs[dir].entries, Restored(fs, dir, printer, refused, bs).fs.dirs[dir].entries, bs[j].filename);
    }
  }

  /** A listing without erroneous items that has the file `<name>.json` makes
      `list_backups` answer with `name` among the names. */
  lemma ListingShowsBackup(fs: Fs, dir: Path, name: string)
    requires |name| > 0
    requires dir in fs.dirs && fs.dirs[dir].Listed? && NoEntryErrors(fs.dirs[dir].entries)
    requires Lists(fs.dirs[dir].entries, name + ".json")
    ensures ListOutcome(fs, dir).Ok? && name in ListOutcome(fs, dir).value
  {
    var es := fs.dirs[dir].entries;
    assert FirstItemError(es).None?;
    var i :| 0 <= i < |es| && Names(es[i], name + ".json");
    BackupFileIsListed(es, i, name);
  }

  /** After `restore_backup_files`, `list_backups` answers with the name of every backup
      `<name>.json` whose write was accepted, as long as the backup directory was
      missing or listed without errors before. */
  lemma RestoredBackupIsListed(configDir: Path, fs: Fs, printer: Json -> Option<string>, refused: map<Path, string>,
                               bs: seq<BackupData>, j: nat, name: string)
    requires var dir := AccountsDir(configDir);
      dir !in fs.dirs || (fs.dirs[dir].Listed? && NoEntryErrors(fs.dirs[dir].entries))
    requires |name| > 0 && j < |bs| && bs[j].filename == name + ".json"
    requires !WriteRefused(AccountsDir(configDir), refused, bs[j])
    ensures var dir := AccountsDir(configDir);
      var after := Restored(CreateDirAll(fs, dir), dir, printer, refused, bs).fs;
      ListOutcome(after, dir).Ok? && name in ListOutcome(after, dir).value
  {
    var dir := AccountsDir(configDir);
    var created := CreateDirAll(fs, dir);
    assert dir in created.dirs && created.dirs[dir].Listed? && NoEntryErrors(created.dirs[dir].entries);
    RestoreListsBackup(created, dir, printer, refused, bs, j);
    RestoreKeepsListing(created, dir, printer, refused, bs);
    ListingShowsBackup(Restored(created, dir, printer, refused, bs).fs, dir, name);
  }

  /** A backup written under `name` into the backup directory, once that is created,
      is among the names `list_backups` answers with, as long as the directory was
      missing or listed without errors before. */
  lemma WrittenBackupIsListed(dir: Path, fs: Fs, name: string, text: string)
    requires |dir| > 0 && |name| > 0
    requires dir !in fs.dirs || (fs.dirs[dir].Listed? && NoEntryErrors(fs.dirs[dir].entries))
    ensures var after := WriteFile(CreateDirAll(fs, dir), dir + [name + ".json"], text);
      ListOutcome(after, dir).Ok? && name in ListOutcome(after, dir).value
  {
    var created := CreateDirAll(fs, dir);
    var p := dir + [name + ".json"];
    var after := WriteFile(created, p, text);
    assert ParentOf(p) == dir && NameOf(p) == name + ".json";
    var es := created.dirs[dir].entries;
    var ws := WithEntry(es, name + ".json");
    assert after.dirs[dir] == Listed(ws);
    assert NoEntryErrors(ws) by {
      forall i | 0 <= i < |ws| ensures !ws[i].EntryError? {
        if i < |es| { assert ws[i] == es[i]; }
      }
    }
    ListingShowsBackup(after, dir, name);
  }

  /** A backup written after every other backup of the same name leaves its
      pretty-printed content in its file. */
  lemma {:induction false} RestoreWritesBackupFiles(fs: Fs, dir: Path, printer: Json -> Option<string>, refused: map<Path, string>, bs: seq<BackupData>)
    ensures var after := Restored(fs, dir, printer, refused, bs).fs;
      forall j :: (0 <= j < |bs| && !WriteRefused(dir, refused, bs[j])
                   && (forall k :: j < k < |bs| ==> bs[k].filename != bs[j].filename)) ==>
        dir + [bs[j].filename] in after.files
        && after.files[dir + [bs[j].filename]] == Contents(PrettyText(printer, bs[j].content))
    decreases |bs|
  {
    if |bs| > 0 {
      var init := bs[..|bs| - 1];
      RestoreWritesBackupFiles(fs, dir, printer, refused, init);
      var after := Restored(fs, dir, printer, refused, bs).fs;
      var b := bs[|bs| - 1];
      forall j | 0 <= j < |bs| && !WriteRefused(dir, refused, bs[j])
          && (forall k :: j < k < |bs| ==> bs[k].filename != bs[j].filename)
        ensures dir + [bs[j].filename] in after.files
          && after.files[dir + [bs[j].filename]] == Contents(PrettyText(printer, bs[j].content))
      {
        if j < |bs| - 1 {
          assert bs[|bs| - 1].filename != bs[j].filename;
          assert init[j] == bs[j];
          assert dir + [b.filename] != dir + [bs[j].filename] by {
            assert (dir + [b.filename])[|dir|] == b.filename;
          }
        }
      }
    }
  }

  /** The path of the backup saved under `name`. */
  function BackupFilePath(configDir: Path, name: string): Path {
    AccountsDir(configDir) + [name + ".json"]
  }

  /** `delete_backup`: removes `<name>.json` from the backup directory and from its
      listing, and nothing else; a missing file is an error and changes nothing. */
  function DeleteBackup(configDir: Path, name: string, fs: Fs, refused: map<Path, string>): (r: (Result<string, string>, Fs))
    ensures var file := BackupFilePath(configDir, name);
      !Exists(fs, file) ==> r == (Err("用户文件不存在"), fs)
    ensures var file := BackupFilePath(configDir, name);
      r.0.Ok? <==> IsFile(fs, file) && file !in refused
    ensures r.0.Ok? ==>
      r.0.value == "删除用户成功: " + name
      && r.1.files == fs.files - {BackupFilePath(configDir, name)}
      && r.1.dirs == DropListing(fs.dirs, BackupFilePath(configDir, name))
    ensures r.0.Err? ==> r.1 == fs
  {
    var file := BackupFilePath(configDir, name);
    if Exists(fs, file) then
      match RemoveFile(fs, file, refused)
      case Err(e) => (Err("删除用户文件失败: " + e), fs)
      case Ok(fs2) => (Ok("删除用户成功: " + name), fs2)
    else
      (Err("用户文件不存在"), fs)
  }

  /** The names of a listing are exactly the stems of its ".json" entries. */
  lemma {:induction false} StemMembers(es: seq<DirEntry>)
    ensures forall n :: n in Stems(es) <==> exists e :: e in es && IsJsonEntry(e) && FileStem(e.name) == n
    decreases |es|
  {
    if |es| > 0 {
      var init := es[..|es| - 1];
      var last := es[|es| - 1];
      StemMembers(init);
      assert es == init + [last];
      forall n ensures n in Stems(es) <==> exists e :: e in es && IsJsonEntry(e) && FileStem(e.name) == n {
        if n in Stems(es) {
          if n in Stems(init) {
            var e :| e in init && IsJsonEntry(e) && FileStem(e.name) == n;
            assert e in es;
          } else {
            assert last in es;
          }
        }
      }
    }
  }

  /** After a successful `delete_backup`, `list_backups` no longer answers with `name`;
      and when it answered before, it still answers, with the same other names. */
  lemma DeletedBackupIsNotListed(configDir: Path, name: string, fs: Fs, refused: map<Path, string>)
    requires DeleteBackup(configDir, name, fs, refused).0.Ok?
    ensures var dir := AccountsDir(configDir);
      var after := DeleteBackup(configDir, name, fs, refused).1;
      (ListOutcome(after, dir).Ok? ==> name !in ListOutcome(after, dir).value)
      && (ListOutcome(fs, dir).Ok? ==>
            ListOutcome(after, dir).Ok?
            && forall n :: n != name ==> (n in ListOutcome(fs, dir).value <==> n in ListOutcome(after, dir).value))
  {
    var dir := AccountsDir(configDir);
    var file := BackupFilePath(configDir, name);
    var after := DeleteBackup(configDir, name, fs, refused).1;
    assert ParentOf(file) == dir && NameOf(file) == name + ".json";
    assert dir != file;
    assert Exists(after, dir) <==> Exists(fs, dir);
    if Exists(fs, dir) && dir in fs.dirs && fs.dirs[dir].Listed? {
      var es := fs.dirs[dir].entries;
      var ws := WithoutEntry(es, name + ".json");
      assert after.dirs[dir] == Listed(ws);
      StemMembers(es);
      StemMembers(ws);
      if FirstItemError(ws).None? {
        forall e | e in ws && IsJsonEntry(e) ensures FileStem(e.name) != name {
          JsonExtension(e.name);
        }
      }
      if FirstItemError(es).None? {
        assert FirstItemError(ws).None? by {
          forall i | 0 <= i < |ws| ensures !IsEntryError(ws[i]) {
            assert ws[i] in ws;
          }
        }
        forall n | n != name ensures n in Stems(es) <==> n in Stems(ws) {
          if n in Stems(es) {
            var e :| e in es && IsJsonEntry(e) && FileStem(e.name) == n;
            JsonExtension(e.name);
            assert e.name != name + ".json" by {
              if e.name == name + ".json" {
                JsonNameRoundTrip(name);
              }
            }
            assert e in ws;
          }
        }
      }
    }
  }

  /** A backup just written under `name` can be deleted, and deleting it removes its
      file and leaves every other file as it was before the backup. */
  lemma WrittenBackupCanBeDeleted(configDir: Path, name: string, fs: Fs, refused: map<Path, string>, text: string)
    requires BackupFilePath(configDir, name) !in refused
    ensures var written := WriteFile(fs, BackupFilePath(configDir, name), text);
      var (r, after) := DeleteBackup(configDir, name, written, refused);
      r == Ok("删除用户成功: " + name) && after.files == fs.files - {BackupFilePath(configDir, name)}
  {
    var file := BackupFilePath(configDir, name);
    var written := WriteFile(fs, file, text);
    assert IsFile(written, file);
    var after := DeleteBackup(configDir, name, written, refused).1;
    assert after.files == fs.files[file := Contents(text)] - {file};
    assert after.files == fs.files - {file};
  }

  /** Part-way through `clear_all_backups`: still clearing, with the files removed so
      far counted, or stopped by an error. */
  datatype ClearRun = Clearing(fs: Fs, deleted: nat) | ClearFailed(fs: Fs, message: string)

  /** One iteration of `clear_all_backups`: an erroneous item stops the loop, a ".json"
      entry is removed (or its removal error stops the loop), anything else is kept. */
  function ClearStep(run: ClearRun, dir: Path, refused: map<Path, string>, display: Path -> string, e: DirEntry): ClearRun {
    if run.ClearFailed? then run
    else if e.EntryError? then ClearFailed(run.fs, EntryFailedPrefix + e.message)
    else if Extension(e.name) != Some("json") then run
    else
      var p := dir + [e.name];
      match RemoveFile(run.fs, p, refused)
      case Err(m) => ClearFailed(run.fs, "删除文件 " + display(p) + " 失败: " + m)
      case Ok(fs2) => Clearing(fs2, run.deleted + 1)
  }

  function Cleared(fs: Fs, dir: Path, refused: map<Path, string>, display: Path -> string, es: seq<DirEntry>): ClearRun
    decreases |es|
  {
    if |es| == 0 then Clearing(fs, 0)
    else ClearStep(Cleared(fs, dir, refused, display, es[..|es| - 1]), dir, refused, display, es[|es| - 1])
  }

  /** Once stopped, the clearing stays stopped. */
  lemma {:induction false} ClearFailureIsFinal(fs: Fs, dir: Path, refused: map<Path, string>, display: Path -> string, es: seq<DirEntry>, k: nat)
    requires k <= |es| && Cleared(fs, dir, refused, display, es[..k]).ClearFailed?
    ensures Cleared(fs, dir, refused, display, es) == Cleared(fs, dir, refused, display, es[..k])
    decreases |es|
  {
    if |es| == k {
      assert es[..k] == es;
    } else {
      var init := es[..|es| - 1];
      assert init[..k] == es[..k];
      ClearFailureIsFinal(fs, dir, refused, display, init, k);
    }
  }

  const ClearedPrefix := "已清空所有用户备份，共删除 "
  const NothingToClear := "用户目录不存在，无需清空"

  /** The message `clear_all_backups` reports after deleting `n` files. */
  function ClearedMessage(n: nat): string {
    ClearedPrefix + NatToString(n) + " 个文件"
  }

  /** `clear_all_backups`: removes every ".json" entry of the backup directory, in
      listing order, and reports how many; a missing directory is not an error.
      The file system after the call is returned too, also when an error stopped it
      part-way. */
  method ClearAllBackups(configDir: Path, fs: Fs, refused: map<Path, string>, display: Path -> string)
    returns (r: Result<string, string>, fsAfter: Fs)
    ensures var dir := AccountsDir(configDir);
      !Exists(fs, dir) ==> r == Ok(NothingToClear) && fsAfter == fs
    ensures var dir := AccountsDir(configDir);
      Exists(fs, dir) && ReadDir(fs, dir).ListError? ==>
        r == Err(ReadDirFailedPrefix + ReadDir(fs, dir).message) && fsAfter == fs
    ensures var dir := AccountsDir(configDir);
      Exists(fs, dir) && ReadDir(fs, dir).Listed? ==>
        match Cleared(fs, dir, refused, display, ReadDir(fs, dir).entries)
        case Clearing(after, n) => r == Ok(ClearedMessage(n)) && fsAfter == after
        case ClearFailed(after, m) => r == Err(m) && fsAfter == after
    ensures r.Ok? ==> ListOutcome(fsAfter, AccountsDir(configDir)) == Ok([])
  {
    var dir := AccountsDir(configDir);
    fsAfter := fs;
    if !Exists(fs, dir) {
      return Ok(NothingToClear), fs;
    }
    var listing := ReadDir(fs, dir);
    if listing.ListError? {
      return Err(ReadDirFailedPrefix + listing.message), fs;
    }
    var run := ClearEntries(fs, dir, refused, display, listing.entries);
    if run.Clearing? {
      ClearedListsNothing(fs, dir, refused, display);
    }
    match run
    case Clearing(after, n) =>
      r, fsAfter := Ok(ClearedMessage(n)), after;
    case ClearFailed(after, m) =>
      r, fsAfter := Err(m), after;
  }

  /** The loop of `clear_all_backups` over the listing, stopping at the first error. */
  method ClearEntries(fs: Fs, dir: Path, refused: map<Path, string>, display: Path -> string, es: seq<DirEntry>)
    returns (run: ClearRun)
    ensures run == Cleared(fs, dir, refused, display, es)
  {
    var current := fs;
    var deletedCount: nat := 0;
    for i := 0 to |es|
      invariant Cleared(fs, dir, refused, display, es[..i]) == Clearing(current, deletedCount)
    {
      assert es[..i + 1][..i] == es[..i];
      var e := es[i];
      if e.EntryError? {
        ClearFailureIsFinal(fs, dir, refused, display, es, i + 1);
        return ClearFailed(current, EntryFailedPrefix + e.message);
      }
      if Extension(e.name) == Some("json") {
        var p := dir + [e.name];
        var removal := RemoveFile(current, p, refused);
        if removal.Err? {
          ClearFailureIsFinal(fs, dir, refused, display, es, i + 1);
          return ClearFailed(current, "删除文件 " + display(p) + " 失败: " + removal.error);
        }
        current := removal.value;
        deletedCount := deletedCount + 1;
      }
    }
    assert es[..|es|] == es;
    run := Clearing(current, deletedCount);
  }

  /** The paths of the ".json" entries of a listing. */
  function JsonPaths(dir: Path, es: seq<DirEntry>): set<Path> {
    set j | 0 <= j < |es| && IsJsonEntry(es[j]) :: dir + [es[j].name]
  }

  /** The number of ".json" entries of a listing. */
  function JsonCount(es: seq<DirEntry>): nat
    decreases |es|
  {
    if |es| == 0 then 0 else JsonCount(es[..|es| - 1]) + (if IsJsonEntry(es[|es| - 1]) then 1 else 0)
  }

  /** The ".json" paths of a listing grow by at most its last entry's path. */
  lemma JsonPathsSnoc(dir: Path, es: seq<DirEntry>)
    requires |es| > 0
    ensures var init := es[..|es| - 1]; var e := es[|es| - 1];
      JsonPaths(dir, es) == JsonPaths(dir, init) + (if IsJsonEntry(e) then {dir + [e.name]} else {})
  {
    var init := es[..|es| - 1];
    var e := es[|es| - 1];
    forall p | p in JsonPaths(dir, es)
      ensures p in JsonPaths(dir, init) + (if IsJsonEntry(e) then {dir + [e.name]} else {})
    {
      var j :| 0 <= j < |es| && IsJsonEntry(es[j]) && p == dir + [es[j].name];
      if j < |init| {
        assert init[j] == es[j];
      }
    }
    forall p | p in JsonPaths(dir, init) ensures p in JsonPaths(dir, es) {
      var j :| 0 <= j < |init| && IsJsonEntry(init[j]) && p == dir + [init[j].name];
      assert es[j] == init[j];
    }
    if IsJsonEntry(e) {
      assert dir + [es[|es| - 1].name] in JsonPaths(dir, es);
    }
  }

  /** A clearing that gets through the whole listing has deleted one file per ".json"
      entry, and exactly the files of those entries. */
  lemma {:induction false} ClearRemovesExactlyJsonFiles(fs: Fs, dir: Path, refused: map<Path, string>, display: Path -> string, es: seq<DirEntry>)
    ensures var run := Cleared(fs, dir, refused, display, es);
      run.Clearing? ==>
        run.deleted == JsonCount(es) && run.fs.files == fs.files - JsonPaths(dir, es)
    decreases |es|
  {
    if |es| > 0 {
      var init := es[..|es| - 1];
      var e := es[|es| - 1];
      ClearRemovesExactlyJsonFiles(fs, dir, refused, display, init);
      JsonPathsSnoc(dir, es);
      var before := Cleared(fs, dir, refused, display, init);
      if before.Clearing? && IsJsonEntry(e) {
        var q := dir + [e.name];
        assert fs.files - (JsonPaths(dir, init) + {q}) == (fs.files - JsonPaths(dir, init)) - {q};
      }
    }
  }

  /** While clearing goes on, only the cleared directory's listing changes: it keeps a
      subset of its items and lists none of the ".json" entries cleared so far, none of
      which was an erroneous item. */
  lemma {:induction false} ClearedListing(fs: Fs, dir: Path, refused: map<Path, string>, display: Path -> string, es: seq<DirEntry>)
    requires dir in fs.dirs && fs.dirs[dir].Listed?
    ensures var run := Cleared(fs, dir, refused, display, es);
      run.Clearing? ==>
        run.fs.dirs.Keys == fs.dirs.Keys
        && (forall d :: d in fs.dirs && d != dir ==> run.fs.dirs[d] == fs.dirs[d])
        && run.fs.dirs[dir].Listed?
        && (forall e :: e in run.fs.dirs[dir].entries ==> e in fs.dirs[dir].entries)
        && (forall i :: 0 <= i < |es| && IsJsonEntry(es[i]) ==> !Lists(run.fs.dirs[dir].entries, es[i].name))
        && NoEntryErrors(es)
    decreases |es|
  {
    if |es| > 0 {
      var init := es[..|es| - 1];
      var e := es[|es| - 1];
      ClearedListing(fs, dir, refused, display, init);
      var before := Cleared(fs, dir, refused, display, init);
      var run := Cleared(fs, dir, refused, display, es);
      if run.Clearing? {
        assert before.Clearing? && !e.EntryError?;
        var ls := before.fs.dirs[dir].entries;
        if IsJsonEntry(e) {
          var p := dir + [e.name];
          assert ParentOf(p) == dir && NameOf(p) == e.name;
          var ws := WithoutEntry(ls, e.name);
          assert run.fs.dirs[dir] == Listed(ws);
          forall i | 0 <= i < |es| && IsJsonEntry(es[i]) ensures !Lists(ws, es[i].name) {
            if i < |init| {
              assert init[i] == es[i];
            }
          }
        } else {
          forall i | 0 <= i < |es| && IsJsonEntry(es[i]) ensures !Lists(run.fs.dirs[dir].entries, es[i].name) {
            assert i < |init| && init[i] == es[i];
          }
        }
        assert NoEntryErrors(es) by {
          forall i | 0 <= i < |es| ensures !es[i].EntryError? {
            if i < |init| { assert init[i] == es[i]; }
          }
        }
      }
    }
  }

  /** A listing in which no item is erroneous or a ".json" entry answers with no names. */
  lemma {:induction false} NoJsonNoStems(es: seq<DirEntry>)
    requires forall i :: 0 <= i < |es| ==> !IsJsonEntry(es[i])
    ensures Stems(es) == []
    decreases |es|
  {
    if |es| > 0 {
      NoJsonNoStems(es[..|es| - 1]);
    }
  }

  /** A clearing of the backup directory that gets through the whole listing leaves
      `list_backups` answering with no names. */
  lemma ClearedListsNothing(fs: Fs, dir: Path, refused: map<Path, string>, display: Path -> string)
    requires dir in fs.dirs && fs.dirs[dir].Listed?
    requires Cleared(fs, dir, refused, display, fs.dirs[dir].entries).Clearing?
    ensures ListOutcome(Cleared(fs, dir, refused, display, fs.dirs[dir].entries).fs, dir) == Ok([])
  {
    var es := fs.dirs[dir].entries;
    var after := Cleared(fs, dir, refused, display, es).fs;
    ClearedListing(fs, dir, refused, display, es);
    var ls := after.dirs[dir].entries;
    assert NoEntryErrors(ls) by {
      forall i | 0 <= i < |ls| ensures !ls[i].EntryError? {
        assert ls[i] in ls;
        var j :| 0 <= j < |es| && es[j] == ls[i];
      }
    }
    assert FirstItemError(ls).None?;
    forall i | 0 <= i < |ls| ensures !IsJsonEntry(ls[i]) {
      assert ls[i] in ls;
      var j :| 0 <= j < |es| && es[j] == ls[i];
      if IsJsonEntry(ls[i]) {
        assert Names(ls[i], es[j].name);
      }
    }
    NoJsonNoStems(ls);
  }

  // ----------------------------------------------------------------------------------
  // main.rs's own platform_utils: the database path and the process killer

  /** main.rs's `get_antigravity_db_path`: `state.vscdb` in the detected data directory.
      Unlike src-tauri/src/platform_utils.rs it never consults a custom data path. */
  function InlineDbPath(env: Env): (r: Option<Path>)
    ensures r.Some? <==> AntigravityDataDir(env).Some?
    ensures r.Some? ==> r.value == AntigravityDataDir(env).value + [ProcessMatching.StateDbName]
  {
    match AntigravityDataDir(env)
    case None => None
    case Some(dir) => Some(dir + [ProcessMatching.StateDbName])
  }

  /** It is the other module's database path with no custom data path configured, so
      main.rs's `get_all_antigravity_db_paths` (the same loop over that primary path)
      is `ProcessMatching.DbPathList` with no custom data path. */
  lemma InlineDbPathIsUncustomised(fs: Fs, env: Env)
    ensures InlineDbPath(env) == ProcessMatching.DbPath(Ok(None), fs, env)
  {
  }

  /** What running `taskkill /F /IM <name>` or `pkill -f <pattern>` gives: the command
      could not be started, or it exited with a status code and a standard error text
      (as `from_utf8_lossy` shows it). Status 0 is success. */
  datatype RunOutcome = NotStarted(message: string) | Exited(code: int, stderr: string)

  /** The outcome of running the kill command of the platform with an argument. */
  type Runner = string -> RunOutcome

  datatype KillTool = Taskkill | Pkill

  /** The arguments the killer tries, in order: process names for taskkill, command-line
      patterns for pkill. */
  function KillTargets(tool: KillTool): (r: seq<string>)
    ensures |r| == 2
  {
    match tool
    case Taskkill => ["Antigravity.exe", "Antigravity"]
    case Pkill => ["Antigravity", "antigravity"]
  }

  /** `{:?}` of a string: the text in double quotes (escaping is not modelled). */
  function DebugQuoted(s: string): string {
    "\"" + s + "\""
  }

  function NotStartedText(tool: KillTool, m: string): string {
    match tool
    case Taskkill => "执行taskkill命令失败: " + m
    case Pkill => "执行pkill命令失败: " + m
  }

  function KilledText(tool: KillTool, arg: string): string {
    match tool
    case Taskkill => "已成功关闭Antigravity进程 (" + arg + ")"
    case Pkill => "已成功关闭Antigravity进程 (模式: " + arg + ")"
  }

  function KillFailedText(tool: KillTool, arg: string, stderr: string): string {
    match tool
    case Taskkill => "关闭进程 " + arg + " 失败: " + DebugQuoted(stderr)
    case Pkill => "关闭进程失败 (模式: " + arg + "): " + DebugQuoted(stderr)
  }

  /** The loop stops at an argument whose command could not be started or succeeded. */
  predicate StopsAt(run: Runner, arg: string) {
    run(arg).NotStarted? || run(arg).code == 0
  }

  const UnsupportedOs := "不支持的操作系统"

  function ToolOf(os: Os): Option<KillTool> {
    match os
    case Windows => Some(Taskkill)
    case MacOs => Some(Pkill)
    case Linux => Some(Pkill)
    case OtherOs(_) => None
  }

  /** The result of the argument the loop stopped at. */
  function Settled(tool: KillTool, run: Runner, arg: string): Result<string, string> {
    if run(arg).NotStarted? then Err(NotStartedText(tool, run(arg).message)) else Ok(KilledText(tool, arg))
  }

  /** What main.rs's `kill_antigravity_processes` returns with one tool: success naming
      the first argument whose command succeeded, the start failure of the first
      command that could not be started, or else the failure of the last argument. */
  function ToolKillOutcome(tool: KillTool, run: Runner): Result<string, string> {
    var a := KillTargets(tool);
    if StopsAt(run, a[0]) then Settled(tool, run, a[0])
    else if StopsAt(run, a[1]) then Settled(tool, run, a[1])
    else Err(KillFailedText(tool, a[1], run(a[1]).stderr))
  }

  function InlineKillOutcome(os: Os, run: Runner): Result<string, string> {
    match ToolOf(os)
    case None => Err(UnsupportedOs)
    case Some(tool) => ToolKillOutcome(tool, run)
  }

  /** main.rs's `kill_antigravity_processes`: taskkill on Windows, pkill on macOS and
      Linux, each tried with its two arguments in order; any other system is refused. */
  method InlineKill(os: Os, run: Runner) returns (r: Result<string, string>)
    ensures r == InlineKillOutcome(os, run)
  {
    if ToolOf(os).None? {
      return Err(UnsupportedOs);
    }
    var tool := ToolOf(os).value;
    var args := KillTargets(tool);
    var lastError := "";
    for i := 0 to |args|
      invariant forall j :: 0 <= j < i ==> !StopsAt(run, args[j])
      invariant i > 0 ==> lastError == KillFailedText(tool, args[i - 1], run(args[i - 1]).stderr)
    {
      var output := run(args[i]);
      if output.NotStarted? {
        return Err(NotStartedText(tool, output.message));
      }
      if output.code == 0 {
        return Ok(KilledText(tool, args[i]));
      }
      lastError := KillFailedText(tool, args[i], output.stderr);
    }
    r := Err(lastError);
  }

  /** The killer tries its arguments in order and stops at the first that settles it:
      success on the first, success on the second after the first failed, a command
      that cannot be started, or the second failure reported with its standard error. */
  lemma InlineKillOrder(os: Os, run: Runner)
    requires ToolOf(os).Some?
    ensures var tool := ToolOf(os).value; var a := KillTargets(tool);
      run(a[0]).Exited? && run(a[0]).code == 0 ==>
        InlineKillOutcome(os, run) == Ok(KilledText(tool, a[0]))
    ensures var tool := ToolOf(os).value; var a := KillTargets(tool);
      run(a[0]).NotStarted? ==>
        InlineKillOutcome(os, run) == Err(NotStartedText(tool, run(a[0]).message))
    ensures var tool := ToolOf(os).value; var a := KillTargets(tool);
      run(a[0]).Exited? && run(a[0]).code != 0 && run(a[1]).Exited? && run(a[1]).code == 0 ==>
        InlineKillOutcome(os, run) == Ok(KilledText(tool, a[1]))
    ensures var tool := ToolOf(os).value; var a := KillTargets(tool);
      run(a[0]).Exited? && run(a[0]).code != 0 && run(a[1]).Exited? && run(a[1]).code != 0 ==>
        InlineKillOutcome(os, run) == Err(KillFailedText(tool, a[1], run(a[1]).stderr))
  {
  }

  // ----------------------------------------------------------------------------------
  // Orchestration: backup_and_restart_antigravity, switch_to_antigravity_account,
  // switch_antigravity_account

  const NotRunning := "Antigravity 进程未运行"
  const KillErrorPrefix := "关闭进程时发生错误: "

  /** A kill report that says no process was found. */
  predicate SaysNotFound(s: string) {
    Contains(s, "not found") || Contains(s, "未找到")
  }

  /** How both orchestration commands read the killer's result: a report that says
      nothing was found means Antigravity was not running and the command goes on; any
      other success goes on with that report; any other error stops the command. */
  function ClassifyKill(kill: Result<string, string>): (r: Result<string, string>)
    ensures r.Err? <==> kill.Err? && !SaysNotFound(kill.error)
    ensures r.Err? ==> r.error == KillErrorPrefix + kill.error
    ensures r.Ok? && SaysNotFound(if kill.Ok? then kill.value else kill.error) ==> r.value == NotRunning
    ensures kill.Ok? && !SaysNotFound(kill.value) ==> r == kill
  {
    match kill
    case Ok(m) => if SaysNotFound(m) then Ok(NotRunning) else Ok(m)
    case Err(e) => if SaysNotFound(e) then Ok(NotRunning) else Err(KillErrorPrefix + e)
  }

  /** The side effects an orchestration command performs, in order. */
  datatype Step = Killing | BackingUp(email: string) | ClearingData | RestoringAccount(account: string) | Restarting

  /** What an orchestration command returns, and which steps it performed. */
  datatype Flow = Flow(result: Result<string, string>, performed: seq<Step>)

  /** Reading the signed-in account from the state database: opening it, querying
      `antigravityAuthStatus`, and parsing that as JSON (each may fail). */
  datatype AuthLookup = AuthLookup(openFailure: Option<string>, authStatus: Result<string, string>, parse: string -> Result<Json, string>)

  /** The e-mail address backup_and_restart_antigravity backs up under: the string
      field "email" of the parsed authentication status. */
  function EmailOf(auth: AuthLookup): (r: Result<string, string>)
    ensures r.Ok? ==>
      auth.openFailure.None? && auth.authStatus.Ok?
      && auth.parse(auth.authStatus.value).Ok?
      && auth.parse(auth.authStatus.value).value.JObject?
      && "email" in auth.parse(auth.authStatus.value).value.fields
      && auth.parse(auth.authStatus.value).value.fields["email"] == JString(r.value)
  {
    if auth.openFailure.Some? then Err("连接数据库失败: " + auth.openFailure.value)
    else if auth.authStatus.Err? then Err("查询认证信息失败: " + auth.authStatus.error)
    else match auth.parse(auth.authStatus.value)
      case Err(e) => Err("解析认证信息失败: " + e)
      case Ok(v) =>
        if v.JObject? && "email" in v.fields && v.fields["email"].JString? then Ok(v.fields["email"].s)
        else Err("认证信息中未找到邮箱")
  }

  /** The restart report: the starter's message, or its error marked as a failure. */
  function StartMessage(start: Result<string, string>): string {
    match start
    case Ok(m) => m
    case Err(e) => "启动失败: " + e
  }

  /** `backup_and_restart_antigravity`: close Antigravity, back up the signed-in account
      (`backup` is the smart backup of an address: the backup's name and whether it
      replaced an earlier one), clear Antigravity's data, restart it, and report each
      step. `dbPath` is the database path; `cleanup` and `start` are what clearing the
      data and restarting give. */
  function BackupAndRestart(kill: Result<string, string>, dbPath: Option<Path>, auth: AuthLookup,
                            backup: string -> Result<(string, bool), string>,
                            cleanup: Result<string, string>, start: Result<string, string>): (f: Flow)
    ensures |f.performed| > 0 && f.performed[0] == Killing
  {
    var verdict := ClassifyKill(kill);
    if verdict.Err? then Flow(verdict, [Killing])
    else if dbPath.None? then Flow(Err("未找到Antigravity数据库路径"), [Killing])
    else match EmailOf(auth)
      case Err(e) => Flow(Err(e), [Killing])
      case Ok(email) =>
        match backup(email)
        case Err(e) => Flow(Err(e), [Killing, BackingUp(email)])
        case Ok((name, overwrite)) =>
          if cleanup.Err? then Flow(Err("清除数据失败: " + cleanup.error), [Killing, BackingUp(email), ClearingData])
          else
            Flow(Ok(verdict.value + BackupReport(name, overwrite, start)), [Killing, BackingUp(email), ClearingData, Restarting])
  }

  /** What backup_and_restart_antigravity reports after the kill verdict: whether the
      backup was created or updated, its name, the clearing, and the restart. */
  function BackupReport(name: string, overwrite: bool, start: Result<string, string>): string {
    var action := if overwrite then "更新" else "创建";
    " -> 已" + action + "备份: " + name + " -> 已清除账户数据 -> " + StartMessage(start)
  }

  /** A kill error that is not a "not found" report stops the command before anything
      else happens. */
  lemma KillErrorStopsBackup(kill: Result<string, string>, dbPath: Option<Path>, auth: AuthLookup,
                             backup: string -> Result<(string, bool), string>,
                             cleanup: Result<string, string>, start: Result<string, string>)
    requires kill.Err? && !SaysNotFound(kill.error)
    ensures BackupAndRestart(kill, dbPath, auth, backup, cleanup, start) == Flow(Err(KillErrorPrefix + kill.error), [Killing])
  {
  }

  /** Antigravity's data is cleared only after the signed-in account was backed up. */
  lemma CleanupOnlyAfterBackup(kill: Result<string, string>, dbPath: Option<Path>, auth: AuthLookup,
                               backup: string -> Result<(string, bool), string>,
                               cleanup: Result<string, string>, start: Result<string, string>)
    ensures var f := BackupAndRestart(kill, dbPath, auth, backup, cleanup, start);
      ClearingData in f.performed ==>
        EmailOf(auth).Ok? && backup(EmailOf(auth).value).Ok?
        && f.performed[..2] == [Killing, BackingUp(EmailOf(auth).value)]
  {
    var performed := BackupAndRestart(kill, dbPath, auth, backup, cleanup, start).performed;
    var email := EmailOf(auth);
    var goesOn := ClassifyKill(kill).Ok? && dbPath.Some? && email.Ok?;
    if !goesOn {
      assert performed == [Killing];
    } else if backup(email.value).Err? {
      assert performed == [Killing, BackingUp(email.value)];
    } else {
      assert performed[..2] == [Killing, BackingUp(email.value)];
    }
  }

  /** The command succeeds exactly when every step up to the clearing succeeded: a
      failed restart is reported, not an error. */
  lemma BackupFlowSucceedsIff(kill: Result<string, string>, dbPath: Option<Path>, auth: AuthLookup,
                              backup: string -> Result<(string, bool), string>,
                              cleanup: Result<string, string>, start: Result<string, string>)
    ensures var f := BackupAndRestart(kill, dbPath, auth, backup, cleanup, start);
      f.result.Ok? <==>
        ClassifyKill(kill).Ok? && dbPath.Some? && EmailOf(auth).Ok? && backup(EmailOf(auth).value).Ok? && cleanup.Ok?
  {
  }

  /** A successful report starts with the kill verdict, and the restart was attempted. */
  lemma BackupFlowReportsVerdict(kill: Result<string, string>, dbPath: Option<Path>, auth: AuthLookup,
                                 backup: string -> Result<(string, bool), string>,
                                 cleanup: Result<string, string>, start: Result<string, string>)
    ensures var f := BackupAndRestart(kill, dbPath, auth, backup, cleanup, start);
      f.result.Ok? ==> IsPrefix(ClassifyKill(kill).value, f.result.value) && Restarting in f.performed
  {
    var f := BackupAndRestart(kill, dbPath, auth, backup, cleanup, start);
    if f.result.Ok? {
      var v := ClassifyKill(kill).value;
      var b := backup(EmailOf(auth).value).value;
      assert f.result.value == v + BackupReport(b.0, b.1, start);
    }
  }

  /** `switch_to_antigravity_account`: close Antigravity, restore the account's backup
      into its database (`restore` is what that gives), restart it, and report. */
  function SwitchToAccount(account: string, kill: Result<string, string>, restore: Result<string, string>,
                           start: Result<string, string>): (f: Flow)
    ensures |f.performed| > 0 && f.performed[0] == Killing
  {
    var verdict := ClassifyKill(kill);
    if verdict.Err? then Flow(verdict, [Killing])
    else if restore.Err? then Flow(Err(restore.error), [Killing, RestoringAccount(account)])
    else Flow(Ok(verdict.value + " -> " + restore.value + " -> " + StartMessage(start)),
              [Killing, RestoringAccount(account), Restarting])
  }

  /** The account is restored only once the killer's result lets the command go on; the
      command succeeds exactly when the restore does, whatever the restart gives, and
      the report starts with the kill verdict, followed by the restore report. */
  lemma SwitchRestoresOnlyAfterKill(account: string, kill: Result<string, string>, restore: Result<string, string>,
                                    start: Result<string, string>)
    ensures var f := SwitchToAccount(account, kill, restore, start);
      RestoringAccount(account) in f.performed <==> ClassifyKill(kill).Ok?
    ensures var f := SwitchToAccount(account, kill, restore, start);
      f.result.Ok? <==> ClassifyKill(kill).Ok? && restore.Ok?
    ensures var f := SwitchToAccount(account, kill, restore, start);
      f.result.Ok? ==> IsPrefix(ClassifyKill(kill).value + " -> " + restore.value + " -> ", f.result.value)
  {
    var f := SwitchToAccount(account, kill, restore, start);
    if f.result.Ok? {
      var p := ClassifyKill(kill).value + " -> " + restore.value + " -> ";
      assert f.result.value == p + StartMessage(start);
      assert f.result.value[..|p|] == p;
    }
  }

  /** The database `switch_antigravity_account` works on: the primary path when there
      is one, otherwise the first of all database paths found. */
  function ChooseDbPath(primary: Option<Path>, all: seq<Path>): (r: Result<Path, string>)
    ensures r.Err? <==> primary.None? && |all| == 0
    ensures r.Err? ==> r.error == "未找到Antigravity安装位置"
    ensures r.Ok? ==> r.value == (if primary.Some? then primary.value else all[0])
  {
    match primary
    case Some(p) => Ok(p)
    case None => if |all| == 0 then Err("未找到Antigravity安装位置") else Ok(all[0])
  }

  /** With main.rs's database paths, the chosen database is always a `state.vscdb`;
      when the data directory is unknown, it is an existing file found in an
      installation directory. */
  lemma ChosenDbIsStateDb(env: Env, fs: Fs)
    ensures var r := ChooseDbPath(InlineDbPath(env), ProcessMatching.DbPathList(Ok(None), fs, env));
      r.Ok? ==> |r.value| > 0 && r.value[|r.value| - 1] == ProcessMatching.StateDbName
    ensures var r := ChooseDbPath(InlineDbPath(env), ProcessMatching.DbPathList(Ok(None), fs, env));
      r.Ok? && InlineDbPath(env).None? ==> IsFile(fs, r.value)
  {
    var all := ProcessMatching.DbPathList(Ok(None), fs, env);
    InlineDbPathIsUncustomised(fs, env);
    ProcessMatching.DbListLayout(fs, InlineDbPath(env), ProcessMatching.FindInstallations(env));
  }

  /** `switch_antigravity_account`: picks the database, checks that it exists and can
      be opened (`openFailure`), and reports the switch. */
  function SwitchAccount(accountId: string, env: Env, fs: Fs, openFailure: Option<string>, display: Path -> string): (r: Result<string, string>)
    ensures r.Ok? ==>
      var chosen := ChooseDbPath(InlineDbPath(env), ProcessMatching.DbPathList(Ok(None), fs, env));
      chosen.Ok? && Exists(fs, chosen.value) && openFailure.None?
      && r.value == "已切换到账户: " + accountId + " (数据库: " + display(chosen.value) + ")"
    ensures var chosen := ChooseDbPath(InlineDbPath(env), ProcessMatching.DbPathList(Ok(None), fs, env));
      chosen.Ok? && !Exists(fs, chosen.value) ==>
        r == Err("Antigravity 状态数据库文件不存在: " + display(chosen.value))
  {
    match ChooseDbPath(InlineDbPath(env), ProcessMatching.DbPathList(Ok(None), fs, env))
    case Err(e) => Err(e)
    case Ok(p) =>
      if !Exists(fs, p) then Err("Antigravity 状态数据库文件不存在: " + display(p))
      else if openFailure.Some? then Err("连接数据库失败 (" + display(p) + "): " + openFailure.value)
      else Ok("已切换到账户: " + accountId + " (数据库: " + display(p) + ")")
  }

  // ----------------------------------------------------------------------------------
  // Finding: pkill finding nothing stops the orchestration commands

  /** pkill's answer when no process matches its pattern: status 1, nothing on
      standard error. */
  predicate NothingMatches(run: Runner) {
    forall arg :: arg in KillTargets(Pkill) ==> run(arg) == Exited(1, "")
  }

  /** As written: on macOS and Linux, when Antigravity is not running, the killer's
      error says neither "not found" nor "未找到", so backup_and_restart_antigravity
      stops with an error before backing anything up. */
  lemma PkillNoMatchStopsBackup(os: Os, run: Runner, dbPath: Option<Path>, auth: AuthLookup,
                                backup: string -> Result<(string, bool), string>,
                                cleanup: Result<string, string>, start: Result<string, string>)
    requires os == MacOs || os == Linux
    requires NothingMatches(run)
    ensures var msg := KillFailedText(Pkill, "antigravity", "");
      InlineKillOutcome(os, run) == Err(msg)
      && BackupAndRestart(InlineKillOutcome(os, run), dbPath, auth, backup, cleanup, start)
         == Flow(Err(KillErrorPrefix + msg), [Killing])
  {
    var a := KillTargets(Pkill);
    assert a[0] in a && a[1] in a;
    InlineKillOrder(os, run);
    var msg := KillFailedText(Pkill, "antigravity", "");
    assert msg == "关闭进程失败 (模式: " + "antigravity" + "): " + ("\"" + "" + "\"");
    assert Lacks("关闭进程失败 (模式: ", 'f') && Lacks("antigravity", 'f') && Lacks("): ", 'f') && Lacks("\"\"", 'f');
    assert Lacks("关闭进程失败 (模式: ", '未') && Lacks("antigravity", '未') && Lacks("): ", '未') && Lacks("\"\"", '未');
    assert "\"" + "" + "\"" == "\"\"";
    LacksConcat("关闭进程失败 (模式: ", "antigravity", 'f');
    LacksConcat("关闭进程失败 (模式: " + "antigravity", "): ", 'f');
    LacksConcat("关闭进程失败 (模式: " + "antigravity" + "): ", "\"\"", 'f');
    LacksConcat("关闭进程失败 (模式: ", "antigravity", '未');
    LacksConcat("关闭进程失败 (模式: " + "antigravity", "): ", '未');
    LacksConcat("关闭进程失败 (模式: " + "antigravity" + "): ", "\"\"", '未');
    LackedCharBlocks(msg, "not found", 4);
    LackedCharBlocks(msg, "未找到", 0);
    KillErrorStopsBackup(InlineKillOutcome(os, run), dbPath, auth, backup, cleanup, start);
  }

  const NoProcessMatched := "未找到匹配的Antigravity进程"

  /** The killer as evidently intended: on macOS and Linux, pkill answering status 1 for
      every pattern means no process was found, and is reported in words the callers
      recognise; every other outcome is as written. */
  function CorrectedKillOutcome(os: Os, run: Runner): Result<string, string> {
    if ToolOf(os) == Some(Pkill) && (forall j :: 0 <= j < 2 ==> run(KillTargets(Pkill)[j]).Exited? && run(KillTargets(Pkill)[j]).code == 1)
    then Err(NoProcessMatched)
    else InlineKillOutcome(os, run)
  }

  /** With the corrected killer, Antigravity not running lets both orchestration
      commands go on, reporting it as not running; in every other case (another
      system, or a pkill run that did find a process) the result is the one written. */
  lemma NoMatchMeansNotRunning(os: Os, run: Runner)
    ensures ToolOf(os) == Some(Pkill) && NothingMatches(run) ==>
      ClassifyKill(CorrectedKillOutcome(os, run)) == Ok(NotRunning)
    ensures (ToolOf(os) == Some(Pkill) && run(KillTargets(Pkill)[0]).Exited? && run(KillTargets(Pkill)[0]).code == 0) ==>
      CorrectedKillOutcome(os, run) == InlineKillOutcome(os, run) == Ok(KilledText(Pkill, "Antigravity"))
    ensures !(ToolOf(os) == Some(Pkill)
              && forall j :: 0 <= j < 2 ==> run(KillTargets(Pkill)[j]).Exited? && run(KillTargets(Pkill)[j]).code == 1) ==>
      CorrectedKillOutcome(os, run) == InlineKillOutcome(os, run)
  {
    var a := KillTargets(Pkill);
    if ToolOf(os) == Some(Pkill) && NothingMatches(run) {
      assert a[0] in a && a[1] in a;
      assert IsPrefix("未找到", NoProcessMatched);
      PrefixIsContained("未找到", NoProcessMatched);
    }
  }
}
