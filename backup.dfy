/** The account backup (src-tauri/src/antigravity_backup.rs,
    `smart_backup_antigravity_account`): selected rows of Antigravity's SQLite item
    table are collected into a JSON object and written to `<backup dir>/<email>.json`.
    The database is a value (`Db`); the key lists of `crate::constants::database` are
    parameters (that file is not part of this model), and so are JSON parsing and
    printing, the clock, and the outcomes of creating the directory and writing. */
module Backup {
  import opened Wrappers
  import opened FileSystem
  import opened JsonValues
  import opened Paths

  /** The item table as the backup reads it: the string value stored under each key
      (a lookup that errs reads as absent), and what the notification-key query gives. */
  datatype Db = Db(values: map<string, string>, notificationKeys: Result<seq<string>, string>)

  /** The key list (`ALL_KEYS`) and the marker key (`TARGET_STORAGE_MARKER`). */
  datatype BackupKeys = BackupKeys(all: seq<string>, marker: string)

  /** Everything the backup needs from outside: directory creation and opening the
      database (each may fail), a JSON parser for the marker, the printer, the write's
      outcome, the current time in RFC 3339 and how a path is displayed. */
  datatype BackupIo = BackupIo(
    createDir: Option<string>,
    open: Result<Db, string>,
    parse: string -> Option<Json>,
    printJson: map<string, Json> -> Result<string, string>,
    writeFailure: Option<string>,
    now: string,
    display: Path -> string)

  /** The map after inserting, in order, each key whose lookup gives a value, as a JSON
      string of the raw value. */
  function Collect(base: map<string, Json>, values: map<string, string>, keys: seq<string>): map<string, Json>
    decreases |keys|
  {
    if |keys| == 0 then base
    else
      var m := Collect(base, values, keys[..|keys| - 1]);
      var k := keys[|keys| - 1];
      if k in values then m[k := JString(values[k])] else m
  }

  /** A looked-up key ends up in the map exactly when its lookup gave a value, holding
      that value; keys not looked up keep what the base map had. */
  lemma {:induction false} CollectContents(base: map<string, Json>, values: map<string, string>, keys: seq<string>)
    ensures forall k :: k in keys ==> (k in Collect(base, values, keys) <==> k in values || k in base)
    ensures forall k :: k in keys && k in values ==> Collect(base, values, keys)[k] == JString(values[k])
    ensures forall k :: k !in keys ==> (k in Collect(base, values, keys) <==> k in base)
    ensures forall k :: k !in keys && k in base ==> Collect(base, values, keys)[k] == base[k]
    decreases |keys|
  {
    if |keys| > 0 {
      var init := keys[..|keys| - 1];
      CollectContents(base, values, init);
      forall k | k in init ensures k in keys { }
      forall k | k in keys && k != keys[|keys| - 1] ensures k in init {
        var i :| 0 <= i < |keys| && keys[i] == k;
        assert init[i] == k;
      }
    }
  }

  /** The two lookup loops of the backup. */
  method CollectValues(base: map<string, Json>, values: map<string, string>, keys: seq<string>) returns (m: map<string, Json>)
    ensures m == Collect(base, values, keys)
  {
    m := base;
    for i := 0 to |keys|
      invariant m == Collect(base, values, keys[..i])
    {
      assert keys[..i + 1][..i] == keys[..i];
      var key := keys[i];
      if key in values {
        m := m[key := JString(values[key])];
      }
    }
    assert keys[..|keys|] == keys;
  }

  function JsonStrings(xs: seq<string>): (r: seq<Json>)
    ensures |r| == |xs| && forall i :: 0 <= i < |xs| ==> r[i] == JString(xs[i])
  {
    seq(|xs|, i requires 0 <= i < |xs| => JString(xs[i]))
  }

  /** The map the backup writes, stage by stage: the key values; then, when there are
      notification keys, their values and the `notification_keys` list; then the
      marker when its value parses as JSON; then `account_email` and `backup_time`. */
  function BackupData(email: string, keys: BackupKeys, db: Db, notifications: seq<string>, io: BackupIo): map<string, Json> {
    var m1 := Collect(map[], db.values, keys.all);
    var m2 := if |notifications| == 0 then m1
              else Collect(m1, db.values, notifications)["notification_keys" := JArray(JsonStrings(notifications))];
    var m3 := if keys.marker in db.values && io.parse(db.values[keys.marker]).Some?
              then m2[keys.marker := io.parse(db.values[keys.marker]).value] else m2;
    m3["account_email" := JString(email)]["backup_time" := JString(io.now)]
  }

  /** The metadata inserted last always wins: `account_email` is the email and
      `backup_time` the time of the backup. */
  lemma BackupMetadata(email: string, keys: BackupKeys, db: Db, notifications: seq<string>, io: BackupIo)
    ensures var m := BackupData(email, keys, db, notifications, io);
      m["account_email"] == JString(email) && m["backup_time"] == JString(io.now)
  {
  }

  /** A key of the key list (and of nothing later) is in the backup exactly when the
      database has a value for it, stored as the raw string. */
  lemma BackupHoldsFoundKeys(email: string, keys: BackupKeys, db: Db, notifications: seq<string>, io: BackupIo, k: string)
    requires k in keys.all && k !in notifications && k != keys.marker
    requires k != "notification_keys" && k != "account_email" && k != "backup_time"
    ensures var m := BackupData(email, keys, db, notifications, io);
      (k in m <==> k in db.values) && (k in m ==> m[k] == JString(db.values[k]))
  {
    CollectContents(map[], db.values, keys.all);
    CollectContents(Collect(map[], db.values, keys.all), db.values, notifications);
  }

  /** `notification_keys` is present exactly when the query found notification keys
      (as long as no other stage writes that key). */
  lemma NotificationListIff(email: string, keys: BackupKeys, db: Db, notifications: seq<string>, io: BackupIo)
    requires "notification_keys" !in keys.all && keys.marker != "notification_keys"
    ensures var m := BackupData(email, keys, db, notifications, io);
      ("notification_keys" in m <==> |notifications| > 0)
      && (|notifications| > 0 ==> m["notification_keys"] == JArray(JsonStrings(notifications)))
  {
    CollectContents(map[], db.values, keys.all);
  }

  /** The marker is stored, as the parsed object, only when its value parses (as long as
      neither key list also names it). */
  lemma MarkerStoredIffParses(email: string, keys: BackupKeys, db: Db, notifications: seq<string>, io: BackupIo)
    requires keys.marker !in keys.all && keys.marker !in notifications
    requires keys.marker != "notification_keys" && keys.marker != "account_email" && keys.marker != "backup_time"
    ensures var m := BackupData(email, keys, db, notifications, io);
      (keys.marker in m <==> keys.marker in db.values && io.parse(db.values[keys.marker]).Some?)
      && (keys.marker in m ==> m[keys.marker] == io.parse(db.values[keys.marker]).value)
  {
    CollectContents(map[], db.values, keys.all);
    CollectContents(Collect(map[], db.values, keys.all), db.values, notifications);
  }

  /** `<backup dir>/<email>.json`. */
  function BackupFile(dir: Path, email: string): Path {
    dir + [email + ".json"]
  }

  /** The database the backup reads: `state.vscdb` in Antigravity's data directory. */
  function BackupDbPath(env: Env): Option<Path> {
    if AntigravityDataDir(env).Some? then Some(AntigravityDataDir(env).value + ["state.vscdb"]) else None
  }

  /** `smart_backup_antigravity_account`. The backup directory is created (with its
      missing ancestors) right after it is found, so every later step sees it, and a
      later failure leaves it created but writes no file. On success the name is the
      email, the flag says whether `<email>.json` existed before, and that file now
      holds the printed backup map; nothing else changes. */
  method SmartBackup(email: string, env: Env, fs: Fs, keys: BackupKeys, io: BackupIo)
    returns (r: Result<(string, bool), string>, fsAfter: Fs)
    ensures BackupDir(env).None? ==> r == Err("无法获取备份目录") && fsAfter == fs
    ensures BackupDir(env).Some? && io.createDir.Some? ==> r == Err(io.createDir.value) && fsAfter == fs
    ensures BackupDir(env).Some? && io.createDir.None? ==>
      var created := CreateDirAll(fs, BackupDir(env).value);
      (r.Err? ==> fsAfter == created)
      && (BackupDbPath(env).None? ==> r == Err("未找到数据库路径"))
      && (BackupDbPath(env).Some? && !Exists(created, BackupDbPath(env).value) ==>
            r == Err("数据库文件不存在: " + io.display(BackupDbPath(env).value)))
    ensures BackupDir(env).Some? && io.createDir.None? && BackupDbPath(env).Some?
            && Exists(CreateDirAll(fs, BackupDir(env).value), BackupDbPath(env).value) ==>
      (io.open.Err? ==> r == Err(io.open.error))
      && (io.open.Ok? && io.open.value.notificationKeys.Err? ==> r == Err(io.open.value.notificationKeys.error))
      && (io.open.Ok? && io.open.value.notificationKeys.Ok? ==>
            var data := BackupData(email, keys, io.open.value, io.open.value.notificationKeys.value, io);
            (io.printJson(data).Err? ==> r == Err(io.printJson(data).error))
            && (io.printJson(data).Ok? && io.writeFailure.Some? ==> r == Err(io.writeFailure.value))
            && (io.printJson(data).Ok? && io.writeFailure.None? ==> r.Ok?))
    ensures r.Ok? ==>
      BackupDir(env).Some? && io.createDir.None? && BackupDbPath(env).Some?
      && var created := CreateDirAll(fs, BackupDir(env).value);
         Exists(created, BackupDbPath(env).value)
         && io.open.Ok? && io.open.value.notificationKeys.Ok?
         && var file := BackupFile(BackupDir(env).value, email);
            var data := BackupData(email, keys, io.open.value, io.open.value.notificationKeys.value, io);
            r.value == (email, Exists(created, file))
            && io.printJson(data).Ok? && fsAfter == WriteFile(created, file, io.printJson(data).value)
  {
    fsAfter := fs;
    var configDir := BackupDir(env);
    if configDir.None? {
      return Err("无法获取备份目录"), fs;
    }
    if io.createDir.Some? {
      return Err(io.createDir.value), fs;
    }
    fsAfter := CreateDirAll(fs, configDir.value);
    var backupName := email;
    var isOverwrite := Exists(fsAfter, BackupFile(configDir.value, backupName));
    var appData := BackupDbPath(env);
    if appData.None? {
      return Err("未找到数据库路径"), fsAfter;
    }
    if !Exists(fsAfter, appData.value) {
      return Err("数据库文件不存在: " + io.display(appData.value)), fsAfter;
    }
    if io.open.Err? {
      return Err(io.open.error), fsAfter;
    }
    var conn := io.open.value;
    var dataMap := CollectValues(map[], conn.values, keys.all);
    if conn.notificationKeys.Err? {
      return Err(conn.notificationKeys.error), fsAfter;
    }
    dataMap := AddNotificationsAndMetadata(dataMap, email, keys, conn, conn.notificationKeys.value, io);
    var backupFile := BackupFile(configDir.value, backupName);
    var fileContent := io.printJson(dataMap);
    if fileContent.Err? {
      return Err(fileContent.error), fsAfter;
    }
    if io.writeFailure.Some? {
      return Err(io.writeFailure.value), fsAfter;
    }
    fsAfter := WriteFile(fsAfter, backupFile, fileContent.value);
    r := Ok((backupName, isOverwrite));
  }

  /** The rest of the backup map after the key list: the notification keys and their
      list, the parsed marker, then the email and the time. */
  method AddNotificationsAndMetadata(collected: map<string, Json>, email: string, keys: BackupKeys, db: Db,
                                     notificationKeys: seq<string>, io: BackupIo)
    returns (dataMap: map<string, Json>)
    requires collected == Collect(map[], db.values, keys.all)
    ensures dataMap == BackupData(email, keys, db, notificationKeys, io)
  {
    dataMap := collected;
    if |notificationKeys| > 0 {
      dataMap := CollectValues(dataMap, db.values, notificationKeys);
      dataMap := dataMap["notification_keys" := JArray(JsonStrings(notificationKeys))];
    }
    if keys.marker in db.values {
      var parsedMarker := io.parse(db.values[keys.marker]);
      if parsedMarker.Some? {
        dataMap := dataMap[keys.marker := parsedMarker.value];
      }
    }
    dataMap := dataMap["account_email" := JString(email)];
    dataMap := dataMap["backup_time" := JString(io.now)];
  }
}
