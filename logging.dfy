/** Log and configuration commands (src-tauri/src/commands/logging_commands.rs): the
    XOR decryption of an exported configuration, the size text of the log file, and the
    log-file report. Base64, UTF-8 and JSON decoding are inputs (`Base64Decoder`,
    `Utf8Decoder`, `JsonCheck`), as are the file's metadata. */
module Logging {
  import opened Wrappers
  import Text
  import opened FileSystem

  type Byte = bv8

  type Base64Decoder = string -> Result<seq<Byte>, string>
  type Utf8Decoder = seq<Byte> -> Result<string, string>
  type JsonCheck = string -> bool

  // ---------------------------------------------------------------- XOR keystream

  /** The repeating-key XOR of `data` with `key`. */
  function Keystream(data: seq<Byte>, key: seq<Byte>): seq<Byte>
    requires |data| > 0 ==> |key| > 0
  {
    seq(|data|, i requires 0 <= i < |data| => data[i] ^ key[i % |key|])
  }

  /** The loop of `decrypt_config_data`: a zeroed buffer of the input's length is
      filled in place, byte `i` becoming `data[i] XOR key[i mod |key|]`. A non-empty
      input needs a non-empty key (the index `i % 0` faults otherwise). */
  method XorDecode(data: seq<Byte>, key: seq<Byte>) returns (decoded: seq<Byte>)
    requires |data| > 0 ==> |key| > 0
    ensures |decoded| == |data|
    ensures forall i :: 0 <= i < |data| ==> decoded[i] == data[i] ^ key[i % |key|]
    ensures decoded == Keystream(data, key)
  {
    var buffer := new Byte[|data|](_ => 0);
    for i := 0 to |data|
      invariant forall j :: 0 <= j < i ==> buffer[j] == data[j] ^ key[j % |key|]
    {
      buffer[i] := data[i] ^ key[i % |key|];
    }
    decoded := buffer[..];
  }

  /** XOR with the same keystream is its own inverse, so decoding what was encoded
      with the same key gives the original bytes back. */
  lemma KeystreamInvolution(data: seq<Byte>, key: seq<Byte>)
    requires |data| > 0 ==> |key| > 0
    ensures Keystream(Keystream(data, key), key) == data
  {
    var once := Keystream(data, key);
    forall i | 0 <= i < |data| ensures Keystream(once, key)[i] == data[i] {
      var k := key[i % |key|];
      assert (data[i] ^ k) ^ k == data[i];
    }
  }

  /** What `decrypt_config_data` returns. */
  function DecryptOutcome(encrypted: string, password: seq<Byte>, base64: Base64Decoder, utf8: Utf8Decoder, isJson: JsonCheck): Result<string, string>
    requires base64(encrypted).Ok? && |base64(encrypted).value| > 0 ==> |password| > 0
  {
    match base64(encrypted)
    case Err(e) => Err("Base64解码失败: " + e)
    case Ok(bytes) =>
      match utf8(Keystream(bytes, password))
      case Err(e) => Err("UTF-8解码失败: " + e)
      case Ok(text) => if isJson(text) then Ok(text) else Err("解密后的数据不是有效的JSON格式")
  }

  /** `decrypt_config_data`: Base64-decode, XOR with the password's bytes, decode as
      UTF-8, and accept the text only if it is JSON. */
  method DecryptConfigData(encrypted: string, password: seq<Byte>, base64: Base64Decoder, utf8: Utf8Decoder, isJson: JsonCheck)
    returns (r: Result<string, string>)
    requires base64(encrypted).Ok? && |base64(encrypted).value| > 0 ==> |password| > 0
    ensures r == DecryptOutcome(encrypted, password, base64, utf8, isJson)
    ensures r.Ok? ==> isJson(r.value)
    ensures base64(encrypted).Err? ==> r.Err?
  {
    var decodedBase64 := base64(encrypted);
    if decodedBase64.Err? {
      return Err("Base64解码失败: " + decodedBase64.error);
    }
    var decrypted := XorDecode(decodedBase64.value, password);
    var text := utf8(decrypted);
    if text.Err? {
      return Err("UTF-8解码失败: " + text.error);
    }
    if !isJson(text.value) {
      return Err("解密后的数据不是有效的JSON格式");
    }
    r := Ok(text.value);
  }

  /** Round trip: a configuration encrypted with the same password (XOR, then Base64)
      decrypts to the original JSON text. */
  lemma DecryptRecoversPlaintext(encrypted: string, password: seq<Byte>, plain: seq<Byte>, text: string,
                                 base64: Base64Decoder, utf8: Utf8Decoder, isJson: JsonCheck)
    requires |plain| > 0 ==> |password| > 0
    requires base64(encrypted) == Ok(Keystream(plain, password))
    requires utf8(plain) == Ok(text) && isJson(text)
    ensures DecryptOutcome(encrypted, password, base64, utf8, isJson) == Ok(text)
  {
    KeystreamInvolution(plain, password);
  }

  // ---------------------------------------------------------------- file size

  const Units: seq<string> := ["B", "KB", "MB", "GB"]

  function Pow1024(k: nat): (r: nat)
    ensures r >= 1
  {
    if k == 0 then 1 else 1024 * Pow1024(k - 1)
  }

  /** The unit `format_file_size` settles on, stated directly: the largest k <= 3 with
      1024^k <= bytes (0 for fewer than 1024 bytes). */
  function UnitFor(bytes: nat): nat {
    if bytes < 1024 then 0
    else if bytes < 1024 * 1024 then 1
    else if bytes < 1024 * 1024 * 1024 then 2
    else 3
  }

  /** `UnitFor` is the largest index below the number of units whose power does not
      exceed the size. */
  lemma UnitForIsLargest(bytes: nat)
    ensures UnitFor(bytes) < |Units|
    ensures UnitFor(bytes) == 0 || Pow1024(UnitFor(bytes)) <= bytes
    ensures UnitFor(bytes) < 3 ==> bytes < Pow1024(UnitFor(bytes) + 1)
  {
    assert Pow1024(1) == 1024;
    assert Pow1024(2) == 1024 * 1024;
    assert Pow1024(3) == 1024 * 1024 * 1024;
  }

  /** The loop of `format_file_size`: divide by 1024 while the size is at least 1024 and
      a larger unit remains. `size` is a real; the loop's decisions do not depend on
      rounding (the thresholds are powers of two and a u64 below 2^53 converts exactly). */
  method FileSizeUnit(bytes: nat) returns (unit: nat, size: real)
    ensures unit == UnitFor(bytes)
    ensures size * (Pow1024(unit) as real) == bytes as real
  {
    size := bytes as real;
    unit := 0;
    while size >= 1024.0 && unit < |Units| - 1
      invariant unit <= 3
      invariant size * (Pow1024(unit) as real) == bytes as real
      invariant unit > 0 ==> bytes >= Pow1024(unit)
      invariant unit == 0 || unit == UnitFor(bytes) || bytes >= Pow1024(unit + 1)
      invariant unit < UnitFor(bytes) ==> size >= 1024.0
      invariant unit <= UnitFor(bytes)
      decreases 3 - unit
    {
      ScaleStep(bytes, unit, size);
      size := size / 1024.0;
      unit := unit + 1;
    }
    UnitForIsLargest(bytes);
    FinalUnit(bytes, unit, size);
  }

  lemma ScaleStep(bytes: nat, unit: nat, size: real)
    requires unit < 3 && size >= 1024.0
    requires size * (Pow1024(unit) as real) == bytes as real
    ensures (size / 1024.0) * (Pow1024(unit + 1) as real) == bytes as real
    ensures bytes >= Pow1024(unit + 1)
    ensures unit + 1 < UnitFor(bytes) ==> size / 1024.0 >= 1024.0
  {
    var p := Pow1024(unit) as real;
    assert Pow1024(unit + 1) as real == 1024.0 * p;
    assert (size / 1024.0) * (1024.0 * p) == size * p;
    assert p >= 1.0;
    assert bytes as real >= 1024.0 * p;
    UnitForIsLargest(bytes);
    if unit + 1 < UnitFor(bytes) {
      PowStep(unit + 1);
      assert bytes >= Pow1024(unit + 2) by {
        Thresholds(bytes, unit + 2);
      }
      assert (Pow1024(unit + 2) as real) == 1024.0 * 1024.0 * p;
      assert size * p >= 1024.0 * 1024.0 * p;
      assert size >= 1024.0 * 1024.0;
    }
  }

  lemma FinalUnit(bytes: nat, unit: nat, size: real)
    requires unit <= 3 && unit <= UnitFor(bytes)
    requires size * (Pow1024(unit) as real) == bytes as real
    requires unit < UnitFor(bytes) ==> size >= 1024.0
    requires !(size >= 1024.0 && unit < 3)
    ensures unit == UnitFor(bytes)
  {
  }

  lemma PowStep(k: nat)
    ensures Pow1024(k + 1) == 1024 * Pow1024(k)
  {
  }

  lemma Thresholds(bytes: nat, k: nat)
    requires 0 < k <= UnitFor(bytes)
    ensures bytes >= Pow1024(k)
  {
    assert Pow1024(1) == 1024;
    assert Pow1024(2) == 1024 * 1024;
    assert Pow1024(3) == 1024 * 1024 * 1024;
  }

  /** What `format_file_size` prints: the exact count with " B" below 1024 bytes, and
      otherwise the scaled value (printed with two decimals, not modelled) and the unit. */
  datatype SizeText = Exact(text: string) | Scaled(value: real, unit: string)

  function SizeTextFor(bytes: nat): SizeText {
    if UnitFor(bytes) == 0 then Exact(Text.NatToString(bytes) + " B")
    else Scaled(bytes as real / (Pow1024(UnitFor(bytes)) as real), Units[UnitFor(bytes)])
  }

  /** `format_file_size`. */
  method FormatFileSize(bytes: nat) returns (r: SizeText)
    requires bytes < 0x1_0000_0000_0000_0000
    ensures r == SizeTextFor(bytes)
    ensures bytes < 1024 <==> r.Exact?
    ensures r.Scaled? ==> 1.0 <= r.value < 1024.0 || r.unit == "GB"
  {
    var unit, size := FileSizeUnit(bytes);
    UnitForIsLargest(bytes);
    if unit == 0 {
      r := Exact(Text.NatToString(bytes) + " B");
    } else {
      r := Scaled(size, Units[unit]);
      ScaledRange(bytes, unit, size);
    }
  }

  lemma ScaledRange(bytes: nat, unit: nat, size: real)
    requires 0 < unit == UnitFor(bytes)
    requires size * (Pow1024(unit) as real) == bytes as real
    ensures size == bytes as real / (Pow1024(unit) as real)
    ensures unit < 3 ==> 1.0 <= size < 1024.0
  {
    UnitForIsLargest(bytes);
    var p := Pow1024(unit) as real;
    assert size == (size * p) / p;
    assert bytes as real >= p;
    if unit < 3 {
      PowStep(unit);
      assert (bytes as real) < 1024.0 * p;
    }
  }

  /** Below 1024 bytes the text is the exact decimal count: reading its digits back gives
      the size. */
  lemma ExactSizeIsDecimalCount(bytes: nat)
    requires bytes < 1024
    ensures SizeTextFor(bytes) == Exact(Text.NatToString(bytes) + " B")
    ensures Text.DigitsValue(Text.NatToString(bytes)) == bytes
  {
    Text.NatToStringValue(bytes);
  }

  // ---------------------------------------------------------------- get_log_info

  /** The file's metadata: its length, and its modification time already rendered as
      "%Y-%m-%d %H:%M:%S UTC" (or the error reading it). */
  datatype FileMeta = FileMeta(len: nat, modified: Result<string, string>)

  datatype LogInfo = LogInfo(fileExists: bool, path: string, sizeBytes: nat, sizeHuman: SizeText, lastModified: string)

  /** The log file `get_log_info` looks at: `<config or .>/antigravity-agent/logs/antigravity-agent.log`. */
  function LogFilePath(configDir: Option<Path>): Path {
    configDir.GetOr(["."]) + ["antigravity-agent", "logs", "antigravity-agent.log"]
  }

  const AbsentLog := LogInfo(false, "日志文件路径", 0, Exact("0 B"), "不存在")

  /** `get_log_info`. A missing file is reported as absent with size 0; otherwise the
      metadata's errors are returned and the size text is `format_file_size` of its length. */
  method GetLogInfo(configDir: Option<Path>, fs: Fs, meta: Result<FileMeta, string>) returns (r: Result<LogInfo, string>)
    requires meta.Ok? ==> meta.value.len < 0x1_0000_0000_0000_0000
    ensures !Exists(fs, LogFilePath(configDir)) ==> r == Ok(AbsentLog)
    ensures Exists(fs, LogFilePath(configDir)) && meta.Err? ==> r == Err("获取文件信息失败: " + meta.error)
    ensures Exists(fs, LogFilePath(configDir)) && meta.Ok? && meta.value.modified.Err? ==>
      r == Err("获取修改时间失败: " + meta.value.modified.error)
    ensures Exists(fs, LogFilePath(configDir)) && meta.Ok? && meta.value.modified.Ok? ==>
      r == Ok(LogInfo(true, "日志文件路径", meta.value.len, SizeTextFor(meta.value.len), meta.value.modified.value))
  {
    var logFile := LogFilePath(configDir);
    if Exists(fs, logFile) {
      if meta.Err? {
        return Err("获取文件信息失败: " + meta.error);
      }
      var m := meta.value;
      if m.modified.Err? {
        return Err("获取修改时间失败: " + m.modified.error);
      }
      var human := FormatFileSize(m.len);
      r := Ok(LogInfo(true, "日志文件路径", m.len, human, m.modified.value));
    } else {
      r := Ok(AbsentLog);
    }
  }

  /** The absent report's "0 B" is what `format_file_size(0)` prints. */
  lemma AbsentSizeMatchesFormat()
    ensures AbsentLog.sizeHuman == SizeTextFor(AbsentLog.sizeBytes)
  {
    assert Text.NatToString(0) == "0";
  }
}
