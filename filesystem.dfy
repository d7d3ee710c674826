/** The file system as the core sees it: a value listing which paths are files (with
    their text, or the error reading them gives) and which are directories (with what
    read_dir yields for them, in listing order). A path is the sequence of the arguments
    it was built from: `PathBuf::from(s)` is `[s]` and `p.join(c)` is `p + [c]`. */
module FileSystem {
  import opened Wrappers
  import opened Text
  import opened Seqs

  type Path = seq<string>

  datatype FileBody = Contents(text: string) | Unreadable(message: string)

  /** One item yielded by read_dir: an entry with its file name (as `to_string_lossy`
      shows it, and whether `to_str` would succeed), or an error for that item. */
  datatype DirEntry = Entry(name: string, unicodeName: bool) | EntryError(message: string)

  datatype Listing = Listed(entries: seq<DirEntry>) | ListError(message: string)

  datatype Fs = Fs(files: map<Path, FileBody>, dirs: map<Path, Listing>)

  /** `Path::exists`. */
  predicate Exists(fs: Fs, p: Path) {
    p in fs.files || p in fs.dirs
  }

  /** `Path::is_file`. */
  predicate IsFile(fs: Fs, p: Path) {
    p in fs.files
  }

  /** `fs::read_dir`: the listing of a directory, or an error when there is none. */
  function ReadDir(fs: Fs, d: Path): (r: Listing)
    ensures d !in fs.dirs ==> r.ListError?
  {
    if d in fs.dirs then fs.dirs[d] else ListError("No such file or directory")
  }

  /** `fs::read_to_string`. */
  function ReadToString(fs: Fs, p: Path): (r: Result<string, string>)
    ensures r.Ok? <==> p in fs.files && fs.files[p].Contents?
  {
    if p !in fs.files then Err("No such file or directory")
    else match fs.files[p]
      case Contents(t) => Ok(t)
      case Unreadable(m) => Err(m)
  }

  /** The directory holding a non-empty path, and the name the path has in it. */
  function ParentOf(p: Path): Path
    requires |p| > 0
  {
    p[..|p| - 1]
  }

  function NameOf(p: Path): string
    requires |p| > 0
  {
    p[|p| - 1]
  }

  /** A listing item that is the entry called `name`. */
  predicate Names(e: DirEntry, name: string) {
    e.Entry? && e.name == name
  }

  /** Whether a listing has an entry called `name`. */
  predicate Lists(es: seq<DirEntry>, name: string) {
    exists i :: 0 <= i < |es| && Names(es[i], name)
  }

  /** Whether no item of a listing is an error. */
  predicate NoEntryErrors(es: seq<DirEntry>) {
    forall i :: 0 <= i < |es| ==> !es[i].EntryError?
  }

  /** A listing once a file called `name` is in its directory: the items already there
      stay, in their order, and a new entry is added at the end unless one was there.
      The order read_dir yields is not specified; the model puts new names last. */
  function WithEntry(es: seq<DirEntry>, name: string): (r: seq<DirEntry>)
    ensures es <= r && Lists(r, name)
    ensures forall i :: |es| <= i < |r| ==> r[i] == Entry(name, true)
  {
    if Lists(es, name) then es
    else
      var r := es + [Entry(name, true)];
      assert Names(r[|es|], name);
      r
  }

  /** A listing once the file called `name` is no longer in its directory: every
      other item stays, in its order. */
  function WithoutEntry(es: seq<DirEntry>, name: string): (r: seq<DirEntry>)
    ensures !Lists(r, name)
    ensures forall e :: e in r <==> e in es && !Names(e, name)
  {
    var r := Filter(es, e => !Names(e, name));
    assert forall e :: e in es && !Names(e, name) ==> e in r by {
      forall e | e in es && !Names(e, name) ensures e in r {
        var j :| 0 <= j < |es| && es[j] == e;
      }
    }
    r
  }

  /** The listings after the file at `p` appeared: its directory, when it lists, now
      has the file's name; every other listing is as before. */
  function AddListing(dirs: map<Path, Listing>, p: Path): (r: map<Path, Listing>)
    ensures r.Keys == dirs.Keys
    ensures forall d :: d in dirs && (|p| == 0 || d != ParentOf(p)) ==> r[d] == dirs[d]
    ensures |p| > 0 && ParentOf(p) in dirs ==>
      if dirs[ParentOf(p)].Listed? then r[ParentOf(p)] == Listed(WithEntry(dirs[ParentOf(p)].entries, NameOf(p)))
      else r[ParentOf(p)] == dirs[ParentOf(p)]
  {
    if |p| == 0 || ParentOf(p) !in dirs || dirs[ParentOf(p)].ListError? then dirs
    else dirs[ParentOf(p) := Listed(WithEntry(dirs[ParentOf(p)].entries, NameOf(p)))]
  }

  /** The listings after the file at `p` disappeared: its directory, when it lists, no
      longer has the file's name; every other listing is as before. */
  function DropListing(dirs: map<Path, Listing>, p: Path): (r: map<Path, Listing>)
    ensures r.Keys == dirs.Keys
    ensures forall d :: d in dirs && (|p| == 0 || d != ParentOf(p)) ==> r[d] == dirs[d]
    ensures |p| > 0 && ParentOf(p) in dirs ==>
      if dirs[ParentOf(p)].Listed? then r[ParentOf(p)] == Listed(WithoutEntry(dirs[ParentOf(p)].entries, NameOf(p)))
      else r[ParentOf(p)] == dirs[ParentOf(p)]
  {
    if |p| == 0 || ParentOf(p) !in dirs || dirs[ParentOf(p)].ListError? then dirs
    else dirs[ParentOf(p) := Listed(WithoutEntry(dirs[ParentOf(p)].entries, NameOf(p)))]
  }

  /** `fs::write` once it has succeeded: the file now holds `text` and its directory
      lists it; nothing else changes. */
  function WriteFile(fs: Fs, p: Path, text: string): (r: Fs)
    ensures r.files == fs.files[p := Contents(text)] && r.dirs == AddListing(fs.dirs, p)
  {
    Fs(fs.files[p := Contents(text)], AddListing(fs.dirs, p))
  }

  /** `fs::remove_file`: it fails with the message `refused` gives for the path, or
      when the path is not a file; otherwise the file is gone, its directory no longer
      lists it, and nothing else changes. */
  function RemoveFile(fs: Fs, p: Path, refused: map<Path, string>): (r: Result<Fs, string>)
    ensures r.Ok? <==> IsFile(fs, p) && p !in refused
    ensures r.Ok? ==> r.value.files == fs.files - {p} && r.value.dirs == DropListing(fs.dirs, p)
    ensures r.Err? && p in refused ==> r.error == refused[p]
  {
    if p in refused then Err(refused[p])
    else if p in fs.dirs && p !in fs.files then Err("Is a directory")
    else if p !in fs.files then Err("No such file or directory")
    else Ok(Fs(fs.files - {p}, DropListing(fs.dirs, p)))
  }

  /** `fs::create_dir_all` once it has succeeded (its failure is an input of the
      callers): every missing directory on the way to `d` is created empty and listed
      in its parent; directories already there are kept, with their listings. */
  function CreateDirAll(fs: Fs, d: Path): (r: Fs)
    ensures r.files == fs.files
    ensures d in fs.dirs ==> r == fs
    ensures |d| > 0 ==> d in r.dirs
    ensures |d| > 0 && d !in fs.dirs ==> r.dirs[d] == Listed([])
    ensures forall x :: x in fs.dirs ==> x in r.dirs
    decreases |d|
  {
    if |d| == 0 || d in fs.dirs then fs
    else
      var up := CreateDirAll(fs, d[..|d| - 1]);
      Fs(up.files, AddListing(up.dirs, d)[d := Listed([])])
  }

  /** The index of the last '.' in a file name. */
  function LastDot(name: string): (r: Option<nat>)
    ensures r.Some? ==> r.value < |name| && name[r.value] == '.'
    ensures r.Some? ==> forall j :: r.value < j < |name| ==> name[j] != '.'
    ensures r.None? ==> forall j :: 0 <= j < |name| ==> name[j] != '.'
  {
    if |name| == 0 then None
    else if name[|name| - 1] == '.' then Some(|name| - 1)
    else LastDot(name[..|name| - 1])
  }

  /** `Path::extension` of a file name: the part after the last '.', unless that dot is
      the leading dot of a name like ".bashrc". */
  function Extension(name: string): Option<string> {
    match LastDot(name)
    case None => None
    case Some(i) => if i == 0 then None else Some(name[i + 1..])
  }

  /** `Path::file_stem` of a file name: the part before the last '.', or the whole name. */
  function FileStem(name: string): string {
    match LastDot(name)
    case None => name
    case Some(i) => if i == 0 then name else name[..i]
  }

  /** A file name has extension "json" exactly when it ends in ".json" with something
      before it; its stem is then what precedes ".json". */
  lemma JsonExtension(name: string)
    ensures Extension(name) == Some("json") <==> |name| > 5 && IsSuffix(".json", name)
    ensures Extension(name) == Some("json") ==> name == FileStem(name) + ".json"
  {
    if |name| > 5 && IsSuffix(".json", name) {
      var i := |name| - 5;
      assert name[i] == '.';
      assert name[i + 1..] == "json";
      assert forall j :: i < j < |name| ==> name[j] != '.';
      assert LastDot(name) == Some(i) by {
        var d := LastDot(name);
        assert d.Some? by { assert name[i] == '.'; }
        assert !(d.value < i);
      }
      assert name == name[..i] + ".json";
    }
    if Extension(name) == Some("json") {
      var i := LastDot(name).value;
      assert name[i..] == "." + name[i + 1..];
      assert name == name[..i] + ".json";
    }
  }

  /** The backup file written for `stem` ("<stem>.json") is read back as `stem`, provided
      the stem is not empty. */
  lemma JsonNameRoundTrip(stem: string)
    requires |stem| > 0
    ensures Extension(stem + ".json") == Some("json")
    ensures FileStem(stem + ".json") == stem
  {
    var name := stem + ".json";
    assert name[|name| - 5..] == ".json";
    JsonExtension(name);
    assert name[..|stem|] == stem;
  }

  /** A name that is nothing but ".json" has no extension at all. */
  lemma BareJsonHasNoExtension()
    ensures Extension(".json") == None
  {
    var name := ".json";
    assert name[0] == '.';
    assert forall j :: 0 < j < |name| ==> name[j] != '.';
  }
}
