/** Saving and restoring the main window's geometry (src-tauri/src/window_state_manager.rs).
    The fields are reals: only comparisons are made on them. Locating the state file
    (`ConfigManager`), JSON encoding and decoding, and the write's outcome are inputs. */
module WindowStates {
  import opened Wrappers
  import opened FileSystem

  datatype WindowState = WindowState(x: real, y: real, width: real, height: real, maximized: bool)

  /** `WindowState::default`. */
  const DefaultState := WindowState(100.0, 100.0, 800.0, 600.0, false)

  /** `is_valid`: the position is strictly inside (-1000, 10000) on both axes, the width
      is within [400, 4000] and the height within [400, 3000]. */
  predicate IsValid(s: WindowState) {
    var positionValid := s.x > -1000.0 && s.x < 10000.0 && s.y > -1000.0 && s.y < 10000.0;
    var sizeValid := s.width >= 400.0 && s.width <= 4000.0 && s.height >= 400.0 && s.height <= 3000.0;
    positionValid && sizeValid
  }

  /** The default state is valid, and Windows' hidden-window position -32000 on either
      axis is not, whatever the size. */
  lemma DefaultValidHiddenInvalid(s: WindowState)
    ensures IsValid(DefaultState)
    ensures s.x == -32000.0 || s.y == -32000.0 ==> !IsValid(s)
  {
  }

  /** Validity does not depend on `maximized`, and the bounds are exactly those stated. */
  lemma ValidityBounds(s: WindowState, maximized: bool)
    ensures IsValid(s) == IsValid(s.(maximized := maximized))
    ensures IsValid(s) ==> 400.0 <= s.width <= 4000.0 && 400.0 <= s.height <= 3000.0
    ensures IsValid(s) ==> -1000.0 < s.x < 10000.0 && -1000.0 < s.y < 10000.0
    ensures s.width < 400.0 || s.width > 4000.0 || s.height < 400.0 || s.height > 3000.0 ==> !IsValid(s)
  {
  }

  type Encoder = WindowState -> Result<string, string>
  type Decoder = string -> Result<WindowState, string>

  /** The outcome of `save_window_state` and the file system after it. */
  datatype SaveResult = SaveResult(result: Result<(), string>, fs: Fs)

  /** `save_window_state`. An invalid state is silently skipped (Ok, nothing written);
      otherwise the state file's location, the encoding and the write can each fail,
      and a successful save leaves the encoded state in the file and nothing else changed. */
  function SaveWindowState(s: WindowState, stateFile: Result<Path, string>, fs: Fs, encode: Encoder, writeFailure: Option<string>): (r: SaveResult)
    ensures !IsValid(s) ==> r == SaveResult(Ok(()), fs)
    ensures r.fs != fs ==> IsValid(s) && r.result.Ok?
    ensures r.result.Ok? && IsValid(s) ==>
      stateFile.Ok? && encode(s).Ok? && writeFailure.None? && r.fs == WriteFile(fs, stateFile.value, encode(s).value)
    ensures IsValid(s) && stateFile.Err? ==> r == SaveResult(Err(stateFile.error), fs)
    ensures IsValid(s) && stateFile.Ok? && encode(s).Err? ==>
      r == SaveResult(Err("序列化窗口状态失败: " + encode(s).error), fs)
    ensures IsValid(s) && stateFile.Ok? && encode(s).Ok? && writeFailure.Some? ==>
      r == SaveResult(Err("保存窗口状态失败: " + writeFailure.value), fs)
  {
    if !IsValid(s) then SaveResult(Ok(()), fs)
    else match stateFile
      case Err(e) => SaveResult(Err(e), fs)
      case Ok(file) =>
        match encode(s)
        case Err(e) => SaveResult(Err("序列化窗口状态失败: " + e), fs)
        case Ok(json) =>
          if writeFailure.Some? then SaveResult(Err("保存窗口状态失败: " + writeFailure.value), fs)
          else SaveResult(Ok(()), WriteFile(fs, file, json))
  }

  /** `load_window_state`. A missing file gives the default; a read or parse error is
      returned; a parsed state that is not valid is replaced by the default. */
  function LoadWindowState(stateFile: Result<Path, string>, fs: Fs, decode: Decoder): (r: Result<WindowState, string>)
    ensures r.Ok? ==> IsValid(r.value)
    ensures stateFile.Ok? && !Exists(fs, stateFile.value) ==> r == Ok(DefaultState)
    ensures r.Ok? && r.value != DefaultState ==>
      stateFile.Ok? && ReadToString(fs, stateFile.value).Ok? && decode(ReadToString(fs, stateFile.value).value) == r
    ensures stateFile.Err? ==> r == Err(stateFile.error)
    ensures stateFile.Ok? && Exists(fs, stateFile.value) && ReadToString(fs, stateFile.value).Err? ==>
      r == Err("读取窗口状态文件失败: " + ReadToString(fs, stateFile.value).error)
    ensures stateFile.Ok? && ReadToString(fs, stateFile.value).Ok? ==>
      var decoded := decode(ReadToString(fs, stateFile.value).value);
      (decoded.Err? ==> r == Err("解析窗口状态失败: " + decoded.error))
      && (decoded.Ok? && !IsValid(decoded.value) ==> r == Ok(DefaultState))
      && (decoded.Ok? && IsValid(decoded.value) ==> r == decoded)
  {
    match stateFile
    case Err(e) => Err(e)
    case Ok(file) =>
      if !Exists(fs, file) then Ok(DefaultState)
      else match ReadToString(fs, file)
        case Err(e) => Err("读取窗口状态文件失败: " + e)
        case Ok(content) =>
          match decode(content)
          case Err(e) => Err("解析窗口状态失败: " + e)
          case Ok(s) => if !IsValid(s) then Ok(DefaultState) else Ok(s)
  }

  /** Round trip: with an encoding the decoder inverts, a state that was saved loads
      back unchanged. */
  lemma SaveThenLoad(s: WindowState, file: Path, fs: Fs, encode: Encoder, decode: Decoder)
    requires encode(s).Ok? && decode(encode(s).value) == Ok(s)
    requires IsValid(s)
    ensures var saved := SaveWindowState(s, Ok(file), fs, encode, None);
      saved.result.Ok? && LoadWindowState(Ok(file), saved.fs, decode) == Ok(s)
  {
    var saved := SaveWindowState(s, Ok(file), fs, encode, None);
    assert ReadToString(saved.fs, file) == Ok(encode(s).value);
  }

  /** Saving an invalid state leaves whatever loaded before loading the same way. */
  lemma InvalidSaveKeepsLoad(s: WindowState, file: Result<Path, string>, fs: Fs, encode: Encoder, decode: Decoder, writeFailure: Option<string>)
    requires !IsValid(s)
    ensures LoadWindowState(file, SaveWindowState(s, file, fs, encode, writeFailure).fs, decode) == LoadWindowState(file, fs, decode)
  {
  }
}
